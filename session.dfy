/**
 * A game page: the level/sequence state machine. The fields are the page's state
 * variables; `LevelEffect` is the rule that a change of level starts the level again.
 */
module Session {
  import opened Wrappers
  import opened Grid
  import opened Sequences
  import opened Reveal
  import opened Rounds

  class GameSession {
    /** The page's settings, fixed for its lifetime. */
    const difficulty: string
    const theme: string

    var level: int
    var sequence: seq<int>
    var step: Step
    /** Position in `sequence` of the tile being revealed; -1 when none is. */
    var revealIndex: int
    var userClicks: seq<int>
    var wrongIndex: Option<int>

    /** The level seen by the last run of the level-change effect; None before the first run. */
    var effectLevel: Option<int>
    /** How many times a level has been started; each timer carries the count of its start. */
    var epoch: nat

    /** The click-relevant part of the state. */
    function Round(): Round
      reads this
    {
      Rounds.Round(step, sequence, userClicks, wrongIndex)
    }

    /**
     * The invariant between a state change and the effect that follows it: level at
     * least 1, a sequence of distinct cells no longer than MaxTiles, a consistent round,
     * and, once the effect has seen the current level, a sequence of that level's length.
     */
    ghost predicate Sound()
      reads this
    {
      && level >= 1
      && revealIndex >= -1
      && AllCells(sequence) && |sequence| <= MaxTiles
      && RoundInv(Round())
      && (effectLevel == Some(level) ==> |sequence| == TileCount(level))
    }

    /** Sound, and no level-change effect is pending. */
    ghost predicate Valid()
      reads this
    {
      Sound() && (effectLevel.Some? ==> effectLevel.value == level)
    }

    /** The state right after a level start that read `draws` and returned `timers`. */
    ghost predicate JustStarted(draws: seq<int>, timers: seq<Timer>)
      reads this
    {
      && |sequence| == TileCount(level)
      && 0 <= TileCount(level) <= |Dedup(draws)|
      && sequence == Dedup(draws)[..TileCount(level)]
      && userClicks == [] && wrongIndex == None
      && step == Reveal && revealIndex == 0
      && timers == Schedule(|sequence|, RevealDelay(difficulty), epoch)
    }

    /** The page as first rendered: level 1, nothing generated, nothing revealed. */
    constructor (difficulty: string, theme: string)
      ensures Valid()
      ensures this.difficulty == difficulty && this.theme == theme
      ensures level == 1 && sequence == [] && step == Reveal && revealIndex == -1
      ensures userClicks == [] && wrongIndex == None
      ensures effectLevel == None && epoch == 0
    {
      this.difficulty := difficulty;
      this.theme := theme;
      level := 1;
      sequence := [];
      step := Reveal;
      revealIndex := -1;
      userClicks := [];
      wrongIndex := None;
      effectLevel := None;
      epoch := 0;
    }

    /**
     * Starts the current level: a fresh sequence of TileCount(level) cells from `draws`,
     * no clicks, no wrong click, the reveal phase with the cursor on the first tile, and
     * the timeline of the reveal.
     */
    method StartLevel(draws: seq<int>) returns (timers: seq<Timer>)
      requires Sound()
      requires AllCells(draws) && |Dedup(draws)| >= TileCount(level)
      modifies this
      ensures Sound()
      ensures JustStarted(draws, timers)
      ensures Distinct(sequence) && AllCells(sequence)
      ensures epoch == old(epoch) + 1
      ensures level == old(level) && effectLevel == old(effectLevel)
    {
      var count := TileCount(level);
      var s := GenerateSequence(count, draws);
      sequence := s;
      userClicks := [];
      wrongIndex := None;
      step := Reveal;
      revealIndex := 0;
      epoch := epoch + 1;
      timers := ScheduleReveal(|s|, RevealDelay(difficulty), epoch);
    }

    /**
     * The level-change effect: starts the level when the effect has not yet seen the
     * current level (on the first run, and after every change of level), and does
     * nothing otherwise.
     */
    method LevelEffect(draws: seq<int>) returns (timers: Option<seq<Timer>>)
      requires Sound()
      requires effectLevel != Some(level) ==> AllCells(draws) && |Dedup(draws)| >= TileCount(level)
      modifies this
      ensures Valid()
      ensures effectLevel == Some(level) && level == old(level)
      ensures timers.Some? <==> old(effectLevel) != Some(level)
      ensures timers.Some? ==> JustStarted(draws, timers.value) && epoch == old(epoch) + 1
      ensures timers.None? ==> Round() == old(Round()) && revealIndex == old(revealIndex) && epoch == old(epoch)
    {
      if effectLevel != Some(level) {
        var t := StartLevel(draws);
        effectLevel := Some(level);
        timers := Some(t);
      } else {
        timers := None;
      }
    }

    /**
     * A timer firing, as the page schedules it: a cursor timer moves the cursor and an
     * end timer hides it and opens the round for clicks, whichever level start
     * scheduled them.
     */
    method Fire(t: Timer)
      requires Valid()
      modifies this
      ensures Valid()
      ensures t.event.ShowTile? ==> revealIndex == t.event.index && step == old(step)
      ensures t.event == EndReveal ==> revealIndex == -1 && step == Play
      ensures sequence == old(sequence) && userClicks == old(userClicks) && wrongIndex == old(wrongIndex)
      ensures level == old(level) && effectLevel == old(effectLevel) && epoch == old(epoch)
    {
      match t.event {
        case ShowTile(i) =>
          revealIndex := i;
        case EndReveal =>
          revealIndex := -1;
          step := Play;
      }
    }

    /**
     * A timer firing with a staleness check: a timer scheduled by an earlier level start
     * than the latest one is discarded and changes nothing.
     */
    method FireCurrent(t: Timer)
      requires Valid()
      modifies this
      ensures Valid()
      ensures t.tag != old(epoch) ==> unchanged(this)
      ensures t.tag == old(epoch) && t.event.ShowTile? ==> revealIndex == t.event.index && step == old(step)
      ensures t.tag == old(epoch) && t.event == EndReveal ==> revealIndex == -1 && step == Play
      ensures sequence == old(sequence) && userClicks == old(userClicks) && wrongIndex == old(wrongIndex)
      ensures level == old(level) && effectLevel == old(effectLevel) && epoch == old(epoch)
    {
      if t.tag == epoch {
        Fire(t);
      }
    }

    /** A click on cell `idx`: the round moves as `Click` says, nothing else changes. */
    method HandleClick(idx: int)
      requires Valid()
      modifies this
      ensures Valid()
      ensures Round() == Click(old(Round()), idx)
      ensures level == old(level) && revealIndex == old(revealIndex)
      ensures effectLevel == old(effectLevel) && epoch == old(epoch)
    {
      ClickKeepsInv(Round(), idx);
      if step != Play {
        return;
      }
      if idx in userClicks {
        return;
      }
      if idx in sequence {
        var newClicks := userClicks + [idx];
        if |newClicks| == |sequence| {
          step := Won;
        }
        userClicks := newClicks;
      } else {
        wrongIndex := Some(idx);
        step := Lost;
      }
    }

    /** Goes up one level, with no cap; the effect then starts the new level. */
    method NextLevel(draws: seq<int>) returns (timers: seq<Timer>)
      requires Valid()
      requires AllCells(draws) && |Dedup(draws)| >= TileCount(level + 1)
      modifies this
      ensures Valid()
      ensures level == old(level) + 1 && effectLevel == Some(level)
      ensures JustStarted(draws, timers) && epoch == old(epoch) + 1
    {
      level := level + 1;
      var t := LevelEffect(draws);
      timers := t.value;
    }

    /**
     * Starts over: at level 1 the level is started again directly, since setting the
     * level to 1 would not change it; at any other level the level becomes 1 and the
     * effect starts it. Either way exactly one level start happens.
     */
    method Retry(draws: seq<int>) returns (timers: seq<Timer>)
      requires Valid()
      requires AllCells(draws) && |Dedup(draws)| >= 1
      modifies this
      ensures Valid()
      ensures level == 1
      ensures JustStarted(draws, timers) && epoch == old(epoch) + 1
      ensures old(level) == 1 ==> effectLevel == old(effectLevel)
      ensures old(level) != 1 ==> effectLevel == Some(1)
    {
      if level == 1 {
        timers := StartLevel(draws);
      } else {
        level := 1;
        var t := LevelEffect(draws);
        timers := t.value;
      }
    }

    /** Cell `i` is highlighted: the reveal phase with the cursor on a tile that is `i`. */
    predicate IsRevealed(i: int)
      reads this
      ensures IsRevealed(i) ==> step == Reveal && i in sequence
      ensures revealIndex == -1 ==> !IsRevealed(i)
    {
      step == Reveal && 0 <= revealIndex < |sequence| && sequence[revealIndex] == i
    }

    /** Cell `i` has been clicked correctly. */
    predicate IsCorrectClick(i: int)
      reads this
      requires Valid()
      ensures IsCorrectClick(i) ==> i in sequence
    {
      i in userClicks
    }

    /** Cell `i` is the wrong click that lost the round. */
    predicate IsWrongClick(i: int)
      reads this
      requires Valid()
      ensures IsWrongClick(i) ==> step == Lost && i !in sequence && !IsCorrectClick(i)
    {
      step == Lost && wrongIndex == Some(i)
    }
  }
}
