/**
 * cucumber.api.DataTable: an immutable grid of string cells built from the
 * rows of a Gherkin data table, with read-only views over that grid.
 */
module CucumberApi {
  import opened JavaLists
  import opened Grid

  /** A row of a Gherkin data table as the parser hands it over. */
  datatype DataTableRow = DataTableRow(cells: seq<string>, line: int)

  /** A source row paired with the cells the table converted it to. */
  datatype DiffableRow = DiffableRow(row: DataTableRow, convertedRow: seq<string>)

  /**
   * The converter a table carries for conversion and diffing. Its behaviour
   * is not part of this model; a table only holds a reference to it.
   */
  class TableConverter {
    constructor () {}
  }

  class DataTable {
    const raw: seq<seq<string>>
    const gherkinRows: seq<DataTableRow>
    const tableConverter: TableConverter

    /** `raw` is the cell grid of `gherkinRows`, row for row. */
    predicate Valid()
    {
      |raw| == |gherkinRows| &&
      forall i :: 0 <= i < |raw| ==> raw[i] == gherkinRows[i].cells
    }

    /** Copies the cells of every Gherkin row, in order, into `raw`. */
    constructor (gherkinRows: seq<DataTableRow>, tableConverter: TableConverter)
      ensures this.gherkinRows == gherkinRows && this.tableConverter == tableConverter
      ensures Valid()
    {
      this.gherkinRows := gherkinRows;
      this.tableConverter := tableConverter;
      var grid: seq<seq<string>> := [];
      for i := 0 to |gherkinRows|
        invariant |grid| == i
        invariant forall k :: 0 <= k < i ==> grid[k] == gherkinRows[k].cells
      {
        var list := gherkinRows[i].cells;
        grid := grid + [list];
      }
      this.raw := grid;
    }

    /** The table as a list of rows of cells: the cells of each Gherkin row. */
    function Raw(): (rows: seq<seq<string>>)
      requires Valid()
      ensures |rows| == |gherkinRows|
      ensures forall i :: 0 <= i < |rows| ==> rows[i] == gherkinRows[i].cells
    {
      raw
    }

    /** The header row; `get(0)` on an empty list throws. */
    function TopCells(): (r: Outcome<seq<string>>)
      requires Valid()
      ensures r.Returned? <==> |gherkinRows| > 0
      ensures r.Returned? ==> r.value == gherkinRows[0].cells
      ensures r.Thrown? ==> r.exception == IndexOutOfBounds(0)
    {
      if |raw| == 0 then Thrown(IndexOutOfBounds(0)) else Returned(raw[0])
    }

    /**
     * The rows from `firstRow` to the end, as `subList(firstRow, size)`:
     * a negative start is out of bounds, a start past the end is a range
     * whose from-index exceeds its to-index.
     */
    function Cells(firstRow: int): (r: Outcome<seq<seq<string>>>)
      ensures r.Returned? <==> 0 <= firstRow <= |raw|
      ensures firstRow < 0 ==> r == Thrown(IndexOutOfBounds(firstRow))
      ensures firstRow > |raw| ==> r == Thrown(IllegalArgument(firstRow, |raw|))
      ensures r.Returned? ==> |r.value| == |raw| - firstRow
      ensures r.Returned? ==> forall i :: 0 <= i < |r.value| ==> r.value[i] == raw[firstRow + i]
    {
      if firstRow < 0 then Thrown(IndexOutOfBounds(firstRow))
      else if firstRow > |raw| then Thrown(IllegalArgument(firstRow, |raw|))
      else Returned(raw[firstRow..])
    }

    /** The Gherkin rows the table was built from; their cells are `raw`. */
    function GetGherkinRows(): (rows: seq<DataTableRow>)
      requires Valid()
      ensures rows == gherkinRows
      ensures |rows| == |raw|
      ensures forall i :: 0 <= i < |rows| ==> rows[i].cells == raw[i]
    {
      gherkinRows
    }

    /** Pairs every Gherkin row with its row of `raw`, in order. */
    method DiffableRows() returns (result: seq<DiffableRow>)
      requires Valid()
      ensures |result| == |raw|
      ensures forall i :: 0 <= i < |result| ==>
                result[i].row == gherkinRows[i] && result[i].convertedRow == raw[i]
      ensures forall i :: 0 <= i < |result| ==> result[i].row.cells == result[i].convertedRow
    {
      result := [];
      var convertedRows := Raw();
      for i := 0 to |convertedRows|
        invariant |result| == i
        invariant forall k :: 0 <= k < i ==>
                    result[k] == DiffableRow(gherkinRows[k], raw[k])
      {
        result := result + [DiffableRow(GetGherkinRows()[i], convertedRows[i])];
      }
    }

    /**
     * Every cell of the table in row-major order: the rows concatenated,
     * as many cells as all rows hold, cell `j` of row `i` after the cells
     * of the rows above it.
     */
    method Flatten() returns (result: seq<string>)
      ensures result == Concat(raw)
      ensures |result| == CellCount(raw)
      ensures forall i: nat, j: nat :: i < |raw| && j < |raw[i]| ==> CellInPlace(result, raw, i, j)
    {
      result := [];
      for i := 0 to |raw|
        invariant result == Concat(raw[..i])
      {
        var row := raw[i];
        for j := 0 to |row|
          invariant result == Concat(raw[..i]) + row[..j]
        {
          result := result + [row[j]];
        }
        assert raw[..i + 1][..i] == raw[..i];
      }
      assert raw[..|raw|] == raw;
      ConcatLength(raw);
      forall i: nat, j: nat | i < |raw| && j < |raw[i]|
        ensures CellInPlace(result, raw, i, j)
      {
        ConcatAt(raw, i, j);
      }
    }

    /**
     * Java equality: the same object, or another DataTable with an equal
     * `raw` grid. The identity shortcut changes nothing: equality is
     * exactly equality of the grids.
     */
    function Equals(o: object?): (eq: bool)
      ensures eq <==> o is DataTable && (o as DataTable).raw == raw
    {
      this == o || (o is DataTable && raw == (o as DataTable).raw)
    }

    /**
     * List.hashCode of `raw`; the converter and the Gherkin rows play no
     * part. As java.util.List specifies, the empty list hashes to 1 and
     * each further row `r` takes the hash `h` of the rows before it to
     * `31 * h + r.hashCode()`.
     */
    function HashCode(): (h: int)
      ensures raw == [] ==> h == 1
      ensures raw != [] ==> h == 31 * GridHash(raw[..|raw| - 1]) + RowHash(raw[|raw| - 1])
    {
      if raw != [] then GridHashStep(raw); GridHash(raw) else GridHash(raw)
    }
  }

  /** `raw` agrees with `Cells(0)`, and `Cells(|raw|)` is empty. */
  lemma CellsBounds(t: DataTable)
    ensures t.Cells(0) == Returned(t.raw)
    ensures t.Cells(|t.raw|) == Returned([])
  {
  }

  /** The rows before `firstRow` followed by `Cells(firstRow)` give back the whole grid. */
  lemma CellsSplit(t: DataTable, firstRow: int)
    requires 0 <= firstRow <= |t.raw|
    ensures t.Cells(firstRow).Returned?
    ensures t.raw[..firstRow] + t.Cells(firstRow).value == t.raw
    ensures Concat(t.raw[..firstRow]) + Concat(t.Cells(firstRow).value) == Concat(t.raw)
  {
    assert t.raw[..firstRow] + t.raw[firstRow..] == t.raw;
    ConcatAppend(t.raw[..firstRow], t.raw[firstRow..]);
  }

  /** A non-empty table is its header row followed by `Cells(1)`. */
  lemma HeaderAndBody(t: DataTable)
    requires t.Valid() && t.TopCells().Returned?
    ensures t.Cells(1).Returned?
    ensures [t.TopCells().value] + t.Cells(1).value == t.raw
  {
  }

  /** Equality is reflexive, symmetric and transitive. */
  lemma EqualsIsEquivalence(a: DataTable, b: DataTable, c: DataTable)
    ensures a.Equals(a)
    ensures a.Equals(b) ==> b.Equals(a)
    ensures a.Equals(b) && b.Equals(c) ==> a.Equals(c)
  {
  }

  /** A DataTable never equals an object of another class. */
  lemma NotEqualToOthers(t: DataTable, o: object?)
    requires !(o is DataTable)
    ensures !t.Equals(o)
  {
  }

  /** A DataTable never equals null. */
  lemma NotEqualToNull(t: DataTable)
    ensures !t.Equals(null)
  {
  }

  /**
   * Two tables built from rows with the same cells are equal, whatever
   * their converters and whatever else their Gherkin rows carry.
   */
  lemma EqualWhenSameCells(a: DataTable, b: DataTable)
    requires a.Valid() && b.Valid()
    requires |a.gherkinRows| == |b.gherkinRows|
    requires forall i :: 0 <= i < |a.gherkinRows| ==> a.gherkinRows[i].cells == b.gherkinRows[i].cells
    ensures a.Equals(b)
  {
  }

  /** Equal tables have equal hash codes. */
  lemma HashCodeConsistent(a: DataTable, b: DataTable)
    requires a.Equals(b)
    ensures a.HashCode() == b.HashCode()
  {
  }
}
