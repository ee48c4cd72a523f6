# PathPlay game page, modelled in Dafny

PathPlay is a tile-memorisation game. A 5×5 grid highlights a random sequence of cells one at a
time. The player must then click the same cells, in any order. Clicking them all wins the level and
offers the next one. A wrong click loses. Retrying starts over from level 1.

This project models the level/sequence state machine of the game page (`src/gamepage.js`):

- `Grid`: the constants (grid size 5, 25 cells, at most 10 tiles), the tile count `min(level, 10)`
  and the reveal delay table with its fallback to the "easy" delay.
- `Sequences`: the sequence generator. It is a loop that reads random draws and keeps each cell the
  first time it is drawn. The random draws are an input sequence (`draws`), and `Dedup` is the
  reference definition the loop is proved against.
- `Reveal`: the reveal timeline that starting a level schedules. It is a list of timers (offset in
  ms, the number of the level start that scheduled it, event), and the model never runs a clock.
- `Rounds`: what a click does, as a pure function `Click` on the click-relevant state. Lemmas cover
  out-of-phase clicks, repeated clicks, wrong clicks and winning.
- `Session`: the class `GameSession`. Its fields are the page's state variables (`level`,
  `sequence`, `step`, `revealIndex`, `userClicks`, `wrongIndex`). Its methods are the page's
  operations. The `useEffect(..., [level])` rule is the method `LevelEffect`. It starts the level
  whenever the effect has not yet seen the current level. `NextLevel` and the level-above-1 branch
  of `Retry` call it, and a client calls it once after construction for the mount.
- `Theme`: the cell content for each theme.
- `Scenarios`: concrete runs of the page, including the stale-timer run in "Findings".

The model keeps these behaviours of the code:

- The code never cancels the timers of an earlier level start (see "Findings").
- For a length above 25 the code does not fail. Its loop never ends. The model requires enough
  distinct draws, and `DedupBound` shows this rules out lengths above 25.
- `nextLevel` does not cap the level. Only the sequence length stops growing at 10.
- The correct clicks are kept as an array in click order, not as a set.

## Model

| member | source | states |
|---|---|---|
| Grid.TileCount | src/gamepage.js:46 | the tile count is the smaller of the level and 10: at most both, and equal to one of them |
| Grid.TileCountMonotone | src/gamepage.js:99-102 | raising the level never shrinks the tile count, which stays 10 from level 10 on |
| Grid.RevealDelay | src/gamepage.js:11-13 | the delay is the table entry for easy, medium or hard, and 1500 ms (easy) for any other difficulty; always positive |
| Sequences.DedupSpec | src/gamepage.js:32-39 | keeping first occurrences gives a duplicate-free sequence holding exactly the drawn values |
| Sequences.DedupPrefix | src/gamepage.js:32-39 | reading more draws only extends the sequence collected so far |
| Sequences.DedupBound | src/gamepage.js:34 | draws from the grid yield at most 25 distinct cells, so generation can only finish for lengths up to 25 |
| Sequences.CoversAll | src/gamepage.js:87 | distinct clicks drawn from the sequence and as many as its tiles include every tile |
| Sequences.GenerateSequence | src/gamepage.js:29-41 | returns exactly `len` distinct grid cells: the first `len` distinct values of the draws, in draw order |
| Reveal.EndRevealComesLast | src/gamepage.js:55-62 | N tiles give N cursor timers at `delay*i` and one end timer at `delay*N + 200`; the end timer is the only end and is strictly later than every cursor timer |
| Reveal.CursorWithinSequence | src/gamepage.js:55-57 | every cursor timer of a timeline points inside the sequence it was scheduled for |
| Reveal.ScheduleIncreasing | src/gamepage.js:55-62 | with a positive delay, the timers are due in strictly increasing order |
| Reveal.ScheduleReveal | src/gamepage.js:55-62 | builds the timeline: one cursor timer per tile in order, then the end timer |
| Rounds.Click | src/gamepage.js:72-97 | a click never changes the sequence, is ignored outside play and on a tile already clicked, and otherwise appends at most the clicked cell |
| Rounds.ClickKeepsInv | src/gamepage.js:82-96 | after any click the correct clicks are still distinct tiles of the sequence, a won round has all of them, and a lost round has a wrong cell outside the sequence |
| Rounds.CorrectClickWinsIffAllClicked | src/gamepage.js:82-91 | a correct new click is appended, and the round is won exactly when every tile is then clicked; otherwise it stays in play |
| Rounds.WrongClickLoses | src/gamepage.js:92-96 | a click outside the sequence during play loses, records that cell, and keeps the clicks and the sequence |
| Rounds.OutOfPhaseIgnoresAll | src/gamepage.js:74 | a round that is revealing, won or lost ignores any number of clicks |
| Rounds.RemainingClicksWin | src/gamepage.js:82-91 | clicking the remaining tiles once each, in any order, wins, with those clicks appended |
| Rounds.ClickingEveryTileWins | src/gamepage.js:82-91 | from no clicks, clicking every tile once in any order wins, and the clicked cells are exactly the tiles |
| Session.GameSession.constructor | src/gamepage.js:16-26 | the initial state: level 1, empty sequence, reveal phase, no cursor (-1), no clicks, no wrong click |
| Session.GameSession.StartLevel | src/gamepage.js:44-63 | a fresh sequence of `min(level, 10)` distinct grid cells, no clicks, no wrong click, reveal phase with the cursor at 0, level unchanged, and the timeline for that sequence |
| Session.GameSession.LevelEffect | src/gamepage.js:66-69 | starts the level exactly when the effect has not seen the current level; otherwise nothing changes |
| Session.GameSession.Fire | src/gamepage.js:56-62 | a cursor timer sets the cursor; an end timer hides it and moves to play, whatever level start scheduled it; clicks, sequence and level are untouched |
| Session.GameSession.FireCurrent | src/gamepage.js:55-62 | a timer from a superseded level start changes nothing; a current one acts as `Fire` |
| Session.GameSession.HandleClick | src/gamepage.js:72-97 | the state moves exactly as `Click` says; level, cursor and invariant are kept |
| Session.GameSession.NextLevel | src/gamepage.js:100-102 | the level goes up by exactly one, with no cap, and the new level is started |
| Session.GameSession.Retry | src/gamepage.js:105-113 | the level becomes 1 and exactly one level start happens: directly at level 1, through the effect otherwise |
| Session.GameSession.IsRevealed | src/gamepage.js:147 | a highlighted cell is a tile of the sequence during the reveal; no cell is highlighted when the cursor is -1 |
| Session.GameSession.IsCorrectClick | src/gamepage.js:149 | a cell marked correct is a tile of the sequence |
| Session.GameSession.IsWrongClick | src/gamepage.js:151 | a cell marked wrong belongs to a lost round, lies outside the sequence, and is never also marked correct |
| Theme.GetContent | src/gamepage.js:116-124 | a cell shows its one-based number, a shape or an animal from the theme's list, and nothing exactly for an unknown theme |
| Theme.ContentCycles | src/gamepage.js:116-122 | numbers differ between cells; shapes repeat every 4 cells and animals every 10 |
| Theme.GlyphListsDistinct | src/gamepage.js:117-118 | no shape and no animal appears twice in its list |
| Theme.GlyphsDistinctWithinPeriod | src/gamepage.js:121-122 | within one period, different cells show different glyphs |
| Scenarios.FirstLevelWon | src/gamepage.js:44-97 | level 1 with one tile opens for play when its reveal's end timer fires and is won by clicking that tile |
| Scenarios.SecondLevelStarted | src/gamepage.js:99-102 | after level 1 is won, the next level is 2 and reveals two distinct tiles, with no clicks yet |
| Scenarios.StaleEndReopensLostRound | src/gamepage.js:55-62 | as written, an end timer left over from before a restart lets a lost round return to play |
| Scenarios.StaleEndReopensWonRound | src/gamepage.js:55-62 | as written, an end timer left over from before a restart sets a won round back to play with every tile already clicked |
| Scenarios.StaleEndDiscarded | src/gamepage.js:55-62 | with stale timers discarded, the same run keeps the round in the reveal until its own end timer; the click during the reveal is ignored and the round is not lost |

## Left out

- `Math.random` is an input: `draws` stands for the successive values of `Math.floor(Math.random() * 25)`.
- Sequences.GenerateSequence: requires the draws to hold `len` distinct cells. The source instead
  draws until it has them, which ends only with probability 1. Probabilistic termination is not
  modelled.
- `setTimeout` and real time: timers are returned as data, and the caller chooses when each one
  fires by calling `Fire` or `FireCurrent`. Timer jitter and the browser's event loop are not
  modelled.
- The page's reactive state updates are sequential field assignments. Batching and the updater
  function passed to `setUserClicks` (which sets the step to won from inside the updater) are not
  modelled.
- Session.GameSession.LevelEffect: React runs the effect after the first render and after each
  render whose level differs from the previous one. Here the mount run is a call the client makes
  after construction. Later runs are made by the methods that change the level.
- Grid.RevealDelay: a difficulty that names an inherited JavaScript object property (such as
  "constructor") makes the source's table lookup return a function rather than a number. The model
  treats every difficulty outside the table as missing.
- The default values of the page's `difficulty` ("easy") and `theme` ("numbers") settings are not
  modelled: the constructor takes both, and the app always passes both.
- The level is an unbounded integer. JavaScript numbers lose precision above 2^53.
- Rendering is not modelled: the JSX, CSS class strings, status texts, buttons and the "Main Menu"
  callback `onBack`. Only the three cell predicates and `getContent` are kept.
- The menu (`src/menu.js`) and the app shell (`src/App.js`) only store button choices and switch
  screens. They are not part of this model. The app's default theme "nature" reaches
  `Theme.GetContent` as an unknown theme and gives `Blank`.
- The `epoch` field is not in the source. It counts level starts so that each timer records which
  start scheduled it. `Fire` ignores it, as the source does, and only `FireCurrent` reads it.

## Findings

| source | as written | input that shows it | evidently intended | confidence | as-written member | corrected member |
|---|---|---|---|---|---|---|
| src/gamepage.js:55-62 | timers of an earlier `startLevel` are never cancelled; the end-of-reveal timer sets the step to play unconditionally | difficulty easy, level 1, draws [7]: retry at 100 ms; the first reveal's end timer opens the round at 1700 ms; clicking cell 3 at 1750 ms loses; the new reveal's end timer at 1800 ms sets the step back to play with the wrong click still recorded; clicking 7 at 1750 ms instead wins, and the same timer at 1800 ms sets a won round back to play (Scenarios.StaleEndReopensWonRound) | timers of a superseded level start are discarded, so a lost round stays lost and a reveal is not cut short | medium, not executed | Scenarios.StaleEndReopensLostRound | Session.GameSession.FireCurrent |
