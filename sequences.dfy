/**
 * The sequence generator: draws random cells and keeps each cell the first time it is
 * drawn, until the sequence has the requested length. The random draws are an input.
 */
module Sequences {
  import opened Grid

  /** No value occurs twice in `s`. */
  predicate Distinct(s: seq<int>) {
    forall j, k :: 0 <= j < k < |s| ==> s[j] != s[k]
  }

  /** The set of values in `s`. */
  function Elems(s: seq<int>): set<int> {
    set x | x in s
  }

  /** `a` is an initial segment of `b`. */
  predicate IsPrefix(a: seq<int>, b: seq<int>) {
    |a| <= |b| && b[..|a|] == a
  }

  /**
   * The values of `draws` in the order of their first occurrence: what the generator
   * collects when it reads `draws` from left to right and skips every value already used.
   */
  function Dedup(draws: seq<int>): seq<int>
  {
    if draws == [] then []
    else
      var kept := Dedup(draws[..|draws| - 1]);
      if draws[|draws| - 1] in kept then kept else kept + [draws[|draws| - 1]]
  }

  /** Dedup keeps exactly the values of its input, once each. */
  lemma {:induction false} DedupSpec(draws: seq<int>)
    ensures Distinct(Dedup(draws))
    ensures forall x :: x in Dedup(draws) <==> x in draws
  {
    if draws != [] {
      var init := draws[..|draws| - 1];
      DedupSpec(init);
      assert draws == init + [draws[|draws| - 1]];
    }
  }

  /** Reading more draws only extends what was collected from fewer. */
  lemma {:induction false} DedupPrefix(draws: seq<int>, k: nat)
    requires k <= |draws|
    ensures IsPrefix(Dedup(draws[..k]), Dedup(draws))
    decreases |draws| - k
  {
    if k < |draws| {
      var init := draws[..|draws| - 1];
      assert init[..k] == draws[..k];
      DedupPrefix(init, k);
    } else {
      assert draws[..k] == draws;
    }
  }

  /** `s` without any occurrence of `v`. */
  function Without(s: seq<int>, v: int): seq<int>
  {
    if s == [] then [] else (if s[0] == v then [] else [s[0]]) + Without(s[1..], v)
  }

  lemma {:induction false} WithoutSpec(s: seq<int>, v: int)
    ensures forall x :: x in Without(s, v) <==> x in s && x != v
    ensures |Without(s, v)| <= |s|
    ensures v in s ==> |Without(s, v)| < |s|
  {
    if s != [] {
      WithoutSpec(s[1..], v);
      assert s == [s[0]] + s[1..];
    }
  }

  /**
   * Pigeonhole: a duplicate-free sequence whose values all occur in `t` is no longer
   * than `t`.
   */
  lemma {:induction false} DistinctWithin(u: seq<int>, t: seq<int>)
    requires Distinct(u)
    requires forall x :: x in u ==> x in t
    ensures |u| <= |t|
  {
    if u != [] {
      var init, last := u[..|u| - 1], u[|u| - 1];
      assert last in u;
      WithoutSpec(t, last);
      forall x | x in init ensures x in Without(t, last) {
        var k :| 0 <= k < |init| && init[k] == x;
        assert u[k] == x;
      }
      DistinctWithin(init, Without(t, last));
    }
  }

  /**
   * A duplicate-free sequence that takes its values from `t` and is as long as `t`
   * holds every value of `t`.
   */
  lemma CoversAll(u: seq<int>, t: seq<int>)
    requires Distinct(u)
    requires forall x :: x in u ==> x in t
    requires |u| >= |t|
    ensures forall x :: x in t ==> x in u
  {
    forall x | x in t ensures x in u {
      if x !in u {
        WithoutSpec(t, x);
        DistinctWithin(u, Without(t, x));
      }
    }
  }

  /** The cells of the grid, in order. */
  function AllCellIndices(): (cells: seq<int>)
    ensures |cells| == CellCount
    ensures forall x :: IsCell(x) ==> x in cells
  {
    var cells := seq(CellCount, i => i);
    assert forall x :: IsCell(x) ==> cells[x] == x;
    cells
  }

  /**
   * Draws taken from the grid hold at most CellCount different cells, so the generator
   * can only finish for a requested length of at most CellCount.
   */
  lemma DedupBound(draws: seq<int>)
    requires AllCells(draws)
    ensures |Dedup(draws)| <= CellCount
  {
    var d := Dedup(draws);
    DedupSpec(draws);
    forall x | x in d ensures x in AllCellIndices() {
      var k :| 0 <= k < |draws| && draws[k] == x;
    }
    DistinctWithin(d, AllCellIndices());
  }

  /**
   * Collects `len` distinct cells from the random `draws`, skipping draws already used.
   * `draws` stands for the successive values of `Math.floor(Math.random() * 25)`; the
   * requirement that they hold `len` distinct values replaces the source's reliance on
   * randomness for the loop to finish.
   */
  method GenerateSequence(len: nat, draws: seq<int>) returns (s: seq<int>)
    requires AllCells(draws)
    requires |Dedup(draws)| >= len
    ensures s == Dedup(draws)[..len]
    ensures |s| == len && len <= CellCount
    ensures Distinct(s) && AllCells(s)
  {
    s := [];
    var used: set<int> := {};
    var k := 0;
    while |s| < len
      invariant 0 <= k <= |draws|
      invariant s == Dedup(draws[..k])
      invariant used == Elems(s)
      invariant |s| <= len
      invariant |s| < len ==> k < |draws|
      decreases |draws| - k
    {
      var idx := draws[k];
      assert draws[..k + 1][..k] == draws[..k];
      if idx !in used {
        used := used + {idx};
        s := s + [idx];
      }
      k := k + 1;
      if k == |draws| {
        assert draws[..k] == draws;
      }
    }
    DedupPrefix(draws, k);
    DedupSpec(draws);
    DedupBound(draws);
    forall i | 0 <= i < |s| ensures IsCell(s[i]) {
      assert s[i] in Dedup(draws);
      var j :| 0 <= j < |draws| && draws[j] == s[i];
    }
  }
}
