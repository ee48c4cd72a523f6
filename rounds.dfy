/**
 * The part of a game page that clicking reads and writes: the phase, the sequence, the
 * correct clicks so far and the wrong click. `Click` is what one click does to it.
 */
module Rounds {
  import opened Wrappers
  import opened Sequences

  /** The phase of a level: tiles being revealed, awaiting clicks, won, lost. */
  datatype Step = Reveal | Play | Won | Lost

  datatype Round = Round(step: Step, sequence: seq<int>, userClicks: seq<int>, wrongIndex: Option<int>)

  /** Every tile of the sequence has been clicked. */
  predicate AllClicked(r: Round) {
    forall x :: x in r.sequence ==> x in r.userClicks
  }

  /**
   * What every reachable round satisfies: the correct clicks are distinct tiles of the
   * sequence, a won round has all of them, and a recorded wrong click is a cell outside
   * the sequence, present whenever the round is lost.
   */
  predicate RoundInv(r: Round) {
    && Distinct(r.sequence)
    && Distinct(r.userClicks)
    && (forall x :: x in r.userClicks ==> x in r.sequence)
    && (r.step == Won ==> |r.userClicks| == |r.sequence|)
    && (r.wrongIndex.Some? ==> r.wrongIndex.value !in r.sequence)
    && (r.step == Lost ==> r.wrongIndex.Some?)
  }

  /**
   * One click on cell `idx`: ignored outside the Play phase and on a tile already
   * clicked; a tile of the sequence is added to the clicks, winning when the clicks
   * are as many as the tiles; any other cell is recorded as the wrong click and loses.
   */
  function Click(r: Round, idx: int): (r': Round)
    ensures r'.sequence == r.sequence
    ensures r.step != Play || idx in r.userClicks ==> r' == r
    ensures r'.userClicks == r.userClicks || r'.userClicks == r.userClicks + [idx]
  {
    if r.step != Play then r
    else if idx in r.userClicks then r
    else if idx in r.sequence then
      var clicks := r.userClicks + [idx];
      r.(userClicks := clicks, step := if |clicks| == |r.sequence| then Won else r.step)
    else
      r.(wrongIndex := Some(idx), step := Lost)
  }

  /** The clicks `idxs`, one after the other. */
  function ClickAll(r: Round, idxs: seq<int>): Round
    decreases |idxs|
  {
    if idxs == [] then r else ClickAll(Click(r, idxs[0]), idxs[1..])
  }

  /** Clicking keeps the round invariant. */
  lemma ClickKeepsInv(r: Round, idx: int)
    requires RoundInv(r)
    ensures RoundInv(Click(r, idx))
  {
  }

  /**
   * A correct click on a tile not yet clicked appends it, and wins exactly when every
   * tile of the sequence has then been clicked.
   */
  lemma CorrectClickWinsIffAllClicked(r: Round, idx: int)
    requires RoundInv(r) && r.step == Play
    requires idx in r.sequence && idx !in r.userClicks
    ensures Click(r, idx).userClicks == r.userClicks + [idx]
    ensures Click(r, idx).wrongIndex == r.wrongIndex
    ensures Click(r, idx).step == Won <==> AllClicked(Click(r, idx))
    ensures Click(r, idx).step != Won ==> Click(r, idx).step == Play
  {
    var r' := Click(r, idx);
    ClickKeepsInv(r, idx);
    if r'.step == Won {
      CoversAll(r'.userClicks, r.sequence);
    } else if AllClicked(r') {
      DistinctWithin(r.sequence, r'.userClicks);
      DistinctWithin(r'.userClicks, r.sequence);
      assert false;
    }
  }

  /**
   * A click on a cell outside the sequence while playing loses at once, records the
   * cell, and keeps the clicks made so far.
   */
  lemma WrongClickLoses(r: Round, idx: int)
    requires r.step == Play && idx !in r.sequence
    requires forall x :: x in r.userClicks ==> x in r.sequence
    ensures Click(r, idx) == r.(step := Lost, wrongIndex := Some(idx))
  {
  }

  /** A round that is not in the Play phase ignores any number of clicks. */
  lemma {:induction false} OutOfPhaseIgnoresAll(r: Round, idxs: seq<int>)
    requires r.step != Play
    ensures ClickAll(r, idxs) == r
    decreases |idxs|
  {
    if idxs != [] {
      OutOfPhaseIgnoresAll(Click(r, idxs[0]), idxs[1..]);
    }
  }

  /**
   * Clicking the remaining tiles of the sequence, in any order and each once, wins
   * the round, and the clicks are then the earlier ones followed by these.
   */
  lemma {:induction false} RemainingClicksWin(r: Round, idxs: seq<int>)
    requires RoundInv(r) && r.step == Play
    requires idxs != [] && Distinct(idxs)
    requires forall x :: x in idxs ==> x in r.sequence && x !in r.userClicks
    requires |r.userClicks| + |idxs| == |r.sequence|
    ensures ClickAll(r, idxs).step == Won
    ensures ClickAll(r, idxs).userClicks == r.userClicks + idxs
    decreases |idxs|
  {
    var x := idxs[0];
    assert x in idxs;
    var r' := Click(r, x);
    assert r'.userClicks == r.userClicks + [x];
    ClickKeepsInv(r, x);
    if |idxs| == 1 {
      assert r'.step == Won;
      assert idxs == [x];
    } else {
      var rest := idxs[1..];
      assert r'.step == Play;
      forall y | y in rest ensures y in r.sequence && y !in r'.userClicks {
        var k :| 0 <= k < |rest| && rest[k] == y;
        assert idxs[k + 1] == y;
      }
      RemainingClicksWin(r', rest);
      assert r.userClicks + [x] + rest == r.userClicks + idxs;
    }
  }

  /**
   * Starting from no clicks, clicking every tile of the sequence once, in any order,
   * wins, and the clicked tiles are then exactly the tiles of the sequence.
   */
  lemma ClickingEveryTileWins(r: Round, idxs: seq<int>)
    requires RoundInv(r) && r.step == Play && r.userClicks == []
    requires r.sequence != []
    requires Distinct(idxs) && |idxs| == |r.sequence|
    requires forall x :: x in idxs ==> x in r.sequence
    ensures ClickAll(r, idxs).step == Won
    ensures ClickAll(r, idxs).userClicks == idxs
    ensures forall x :: x in r.sequence <==> x in ClickAll(r, idxs).userClicks
  {
    RemainingClicksWin(r, idxs);
    CoversAll(idxs, r.sequence);
  }
}
