/** The fixed configuration of a game page: the grid, the tile cap and the reveal delays. */
module Grid {

  /** Side of the square grid. */
  const GridSize: int := 5

  /** Number of cells; cells are numbered 0 .. CellCount - 1. */
  const CellCount: int := GridSize * GridSize

  /** Largest number of tiles a level ever reveals. */
  const MaxTiles: int := 10

  /** A cell index of the grid. */
  predicate IsCell(i: int) {
    0 <= i < CellCount
  }

  /** Every element of `s` is a cell of the grid. */
  predicate AllCells(s: seq<int>) {
    forall k :: 0 <= k < |s| ==> IsCell(s[k])
  }

  /** Number of tiles revealed at a level: the smaller of the level and MaxTiles. */
  function TileCount(level: int): (n: int)
    ensures n <= level && n <= MaxTiles
    ensures n == level || n == MaxTiles
  {
    if level < MaxTiles then level else MaxTiles
  }

  /** Tile counts never shrink as the level grows, and stay at MaxTiles from level 10 on. */
  lemma TileCountMonotone(a: int, b: int)
    requires a <= b
    ensures TileCount(a) <= TileCount(b)
    ensures MaxTiles <= a ==> TileCount(a) == TileCount(b) == MaxTiles
  {
  }

  /** Delay in milliseconds between two revealed tiles, per difficulty. */
  const RevealTimings: map<string, int> := map["easy" := 1500, "medium" := 1000, "hard" := 250]

  /**
   * The delay used by a page: the table entry for the difficulty, falling back on the
   * "easy" entry when the difficulty is not in the table (or its entry is zero, which
   * JavaScript's `||` treats as missing).
   */
  function RevealDelay(difficulty: string): (d: int)
    ensures d > 0
    ensures difficulty in RevealTimings ==> d == RevealTimings[difficulty]
    ensures difficulty !in RevealTimings ==> d == RevealTimings["easy"] == 1500
    ensures d == 1500 || d == 1000 || d == 250
  {
    var entry := if difficulty in RevealTimings then RevealTimings[difficulty] else 0;
    if entry != 0 then entry else RevealTimings["easy"]
  }
}
