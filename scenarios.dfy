/**
 * Runs of a game page built from its operations, with the timers fired in the order of
 * their due times. Times in the comments are milliseconds since the page was mounted.
 */
module Scenarios {
  import opened Wrappers
  import opened Reveal
  import opened Rounds
  import opened Sequences
  import opened Session

  /**
   * Level 1 on "easy": one tile, revealed from 0 ms; the round opens at 1700 ms, and
   * clicking that tile wins.
   */
  method FirstLevelWon() returns (g: GameSession)
    ensures fresh(g) && g.Valid() && g.level == 1 && g.effectLevel == Some(1)
    ensures g.sequence == [7] && g.userClicks == [7] && g.step == Won
  {
    g := new GameSession("easy", "numbers");
    var mounted := g.LevelEffect([7]);
    var t := mounted.value;
    EndRevealComesLast(1, 1500, 1);
    g.Fire(t[0]);        // 0 ms: tile 7 highlighted
    g.Fire(t[1]);        // 1700 ms: round open
    assert g.step == Play && g.sequence == [7] && g.userClicks == [];
    g.HandleClick(7);    // the only tile
  }

  /** After level 1 is won, the next level reveals two distinct tiles. */
  method SecondLevelStarted() returns (g: GameSession)
    ensures g.level == 2 && g.sequence == [3, 9] && g.step == Reveal && g.userClicks == []
  {
    assert Dedup([3, 3, 9]) == [3, 9] by {
      assert [3, 3, 9][..2] == [3, 3];
      assert [3, 3][..1] == [3];
    }
    g := FirstLevelWon();
    var next := g.NextLevel([3, 3, 9]);
    assert g.sequence == Dedup([3, 3, 9])[..2];
  }

  /**
   * As the page schedules its timers: a restart 100 ms into the first reveal leaves
   * the first reveal's end timer pending. At 1700 ms it opens the new round early; a
   * wrong click at 1750 ms loses it; at 1800 ms the new reveal's own end timer sets
   * the phase back to Play, so a lost round accepts clicks again.
   */
  method StaleEndReopensLostRound() returns (g: GameSession)
    ensures g.level == 1 && g.sequence == [7]
    ensures g.wrongIndex == Some(3) && g.step == Play
  {
    g := new GameSession("easy", "numbers");
    var mounted := g.LevelEffect([7]);
    var first := mounted.value;
    EndRevealComesLast(1, 1500, 1);
    g.Fire(first[0]);           // 0 ms
    var second := g.Retry([7]); // 100 ms: second reveal runs until 1800 ms
    EndRevealComesLast(1, 1500, 2);
    g.Fire(second[0]);          // 100 ms
    g.Fire(first[1]);           // 1700 ms: end timer of the superseded reveal
    g.HandleClick(3);           // 1750 ms: wrong cell
    assert g.step == Lost;
    g.Fire(second[1]);          // 1800 ms
  }

  /**
   * As the page schedules its timers, the same leftover end timer also reopens a won
   * round: after a restart 100 ms into the first reveal, the first reveal's end timer
   * opens the round at 1700 ms, clicking the tile wins at 1750 ms, and at 1800 ms the new
   * reveal's own end timer sets the phase back to Play with every tile already clicked.
   */
  method StaleEndReopensWonRound() returns (g: GameSession)
    ensures g.level == 1 && g.sequence == [7] && g.userClicks == [7]
    ensures g.step == Play
  {
    g := new GameSession("easy", "numbers");
    var mounted := g.LevelEffect([7]);
    var first := mounted.value;
    EndRevealComesLast(1, 1500, 1);
    g.Fire(first[0]);           // 0 ms
    var second := g.Retry([7]); // 100 ms: second reveal runs until 1800 ms
    EndRevealComesLast(1, 1500, 2);
    g.Fire(second[0]);          // 100 ms
    g.Fire(first[1]);           // 1700 ms: end timer of the superseded reveal
    assert g.step == Play && g.sequence == [7] && g.userClicks == [];
    g.HandleClick(7);           // 1750 ms: the only tile
    assert g.step == Won;
    g.Fire(second[1]);          // 1800 ms
  }

  /**
   * The same run with stale timers discarded: the first reveal's end timer is dropped,
   * the click at 1750 ms falls in the reveal and is ignored, and the round opens at
   * 1800 ms untouched.
   */
  method StaleEndDiscarded() returns (g: GameSession)
    ensures g.level == 1 && g.sequence == [7]
    ensures g.wrongIndex == None && g.userClicks == [] && g.step == Play
  {
    g := new GameSession("easy", "numbers");
    var mounted := g.LevelEffect([7]);
    var first := mounted.value;
    EndRevealComesLast(1, 1500, 1);
    g.FireCurrent(first[0]);    // 0 ms
    var second := g.Retry([7]); // 100 ms
    EndRevealComesLast(1, 1500, 2);
    g.FireCurrent(second[0]);   // 100 ms
    g.FireCurrent(first[1]);    // 1700 ms: stale, discarded
    assert g.step == Reveal;
    g.HandleClick(3);           // 1750 ms: ignored during the reveal
    g.FireCurrent(second[1]);   // 1800 ms
  }
}
