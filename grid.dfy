/**
 * Row-major flattening of a grid of string cells, the specification of
 * DataTable.flatten.
 */
module Grid {

  /** The cells of `grid`, row after row, each row left to right. */
  function Concat(grid: seq<seq<string>>): seq<string>
  {
    if grid == [] then []
    else Concat(grid[..|grid| - 1]) + grid[|grid| - 1]
  }

  /** The number of cells in `grid`: the sum of its row lengths. */
  function CellCount(grid: seq<seq<string>>): nat
  {
    if grid == [] then 0
    else CellCount(grid[..|grid| - 1]) + |grid[|grid| - 1]|
  }

  /**
   * Cell `j` of row `i` of `grid` sits in `flat` right after the cells of
   * all rows above row `i`.
   */
  predicate CellInPlace(flat: seq<string>, grid: seq<seq<string>>, i: nat, j: nat)
    requires i < |grid|
  {
    j < |grid[i]| && CellCount(grid[..i]) + j < |flat| && flat[CellCount(grid[..i]) + j] == grid[i][j]
  }

  /** Flattening keeps every cell: the result is as long as all rows together. */
  lemma {:induction false} ConcatLength(grid: seq<seq<string>>)
    ensures |Concat(grid)| == CellCount(grid)
  {
    if grid != [] {
      ConcatLength(grid[..|grid| - 1]);
    }
  }

  /** Flattening two blocks of rows is flattening each and joining the results. */
  lemma {:induction false} ConcatAppend(upper: seq<seq<string>>, lower: seq<seq<string>>)
    ensures Concat(upper + lower) == Concat(upper) + Concat(lower)
  {
    if lower == [] {
      assert upper + lower == upper;
    } else {
      var n := |lower| - 1;
      assert (upper + lower)[..|upper + lower| - 1] == upper + lower[..n];
      ConcatAppend(upper, lower[..n]);
    }
  }

  /**
   * Cell `j` of row `i` lands at position CellCount(grid[..i]) + j of the
   * flattening: all cells of the rows above it come first.
   */
  lemma {:induction false} ConcatAt(grid: seq<seq<string>>, i: nat, j: nat)
    requires i < |grid| && j < |grid[i]|
    ensures CellCount(grid[..i]) + j < |Concat(grid)|
    ensures Concat(grid)[CellCount(grid[..i]) + j] == grid[i][j]
  {
    var n := |grid| - 1;
    var upper := grid[..n];
    ConcatLength(upper);
    if i == n {
      assert grid[..i] == upper;
    } else {
      assert upper[..i] == grid[..i];
      ConcatAt(upper, i, j);
    }
  }

  /**
   * Conversely, every position of the flattening holds a cell of the grid:
   * some row `i` and column `j` with CellCount(grid[..i]) + j == k.
   */
  lemma {:induction false} ConcatFrom(grid: seq<seq<string>>, k: nat)
    requires k < |Concat(grid)|
    ensures exists i: nat, j: nat :: i < |grid| && j < |grid[i]| &&
              k == CellCount(grid[..i]) + j && Concat(grid)[k] == grid[i][j]
  {
    var n := |grid| - 1;
    var upper := grid[..n];
    ConcatLength(upper);
    if k < |Concat(upper)| {
      ConcatFrom(upper, k);
      var i: nat, j: nat :| i < |upper| && j < |upper[i]| &&
        k == CellCount(upper[..i]) + j && Concat(upper)[k] == upper[i][j];
      assert upper[..i] == grid[..i];
      assert Concat(grid)[k] == grid[i][j];
    } else {
      var j := k - |Concat(upper)|;
      assert grid[..n] == upper;
      assert Concat(grid)[k] == grid[n][j];
    }
  }
}
