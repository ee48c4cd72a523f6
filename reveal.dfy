/**
 * The reveal timeline that starting a level schedules: one timer per tile moving the
 * reveal cursor, then one timer that ends the reveal. Timers are data, not a clock.
 */
module Reveal {

  /** Extra pause, in milliseconds, between the last tile's slot and the end of the reveal. */
  const EndPause: int := 200

  /** What a timer does when it fires. */
  datatype Event =
    | ShowTile(index: nat)  // move the reveal cursor to this position of the sequence
    | EndReveal             // hide the cursor and open the round for clicks

  /**
   * A scheduled timer: its offset in milliseconds from the start of the level, the
   * number of the level start that scheduled it, and its event.
   */
  datatype Timer = Timer(at: int, tag: nat, event: Event)

  /** The timers scheduled for a sequence of `n` tiles with `delay` between tiles. */
  function Schedule(n: nat, delay: int, tag: nat): seq<Timer>
  {
    seq(n, (i: nat) => Timer(delay * i, tag, ShowTile(i))) + [Timer(delay * n + EndPause, tag, EndReveal)]
  }

  /**
   * The timeline has one cursor timer per tile, at `delay * i` for tile `i`, and exactly
   * one end timer, which is the last and strictly later than every cursor timer.
   */
  lemma EndRevealComesLast(n: nat, delay: int, tag: nat)
    requires delay >= 0
    ensures |Schedule(n, delay, tag)| == n + 1
    ensures forall i :: 0 <= i < n ==> Schedule(n, delay, tag)[i] == Timer(delay * i, tag, ShowTile(i))
    ensures Schedule(n, delay, tag)[n] == Timer(delay * n + EndPause, tag, EndReveal)
    ensures forall i :: 0 <= i < n ==> Schedule(n, delay, tag)[i].at < Schedule(n, delay, tag)[n].at
    ensures forall i :: 0 <= i <= n ==> (Schedule(n, delay, tag)[i].event == EndReveal <==> i == n)
  {
  }

  /** Every cursor timer points inside the sequence it was scheduled for. */
  lemma CursorWithinSequence(n: nat, delay: int, tag: nat, t: Timer)
    requires t in Schedule(n, delay, tag)
    ensures t.tag == tag
    ensures t.event.ShowTile? ==> t.event.index < n
  {
  }

  /** With a positive delay the timers are due in strictly increasing order. */
  lemma ScheduleIncreasing(n: nat, delay: int, tag: nat)
    requires delay > 0
    ensures forall j, k :: 0 <= j < k <= n ==> Schedule(n, delay, tag)[j].at < Schedule(n, delay, tag)[k].at
  {
  }

  /**
   * Schedules the reveal of a sequence of `n` tiles: a cursor timer per tile, in order,
   * then the end timer.
   */
  method ScheduleReveal(n: nat, delay: int, tag: nat) returns (timers: seq<Timer>)
    ensures timers == Schedule(n, delay, tag)
  {
    timers := [];
    for i := 0 to n
      invariant timers == seq(i, (k: nat) => Timer(delay * k, tag, ShowTile(k)))
    {
      timers := timers + [Timer(delay * i, tag, ShowTile(i))];
    }
    timers := timers + [Timer(delay * n + EndPause, tag, EndReveal)];
  }
}
