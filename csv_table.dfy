/**
 * The frontend's CSV table element: rows are padded with empty cells up to the
 * longest row's length, and every row and cell carries an accessibility label
 * naming its 1-based position and value. The element tree is modelled as records.
 */
module CsvTable {
  import Text

  const TableAria: string := "table of CSV data"

  datatype Cell = Cell(value: string, aria: string)
  datatype Row = Row(aria: string, cells: seq<Cell>)
  datatype Table = Table(aria: string, rows: seq<Row>)

  /** The label of row `rowNum` (0-based). */
  function RowAria(rowNum: nat): string
  {
    "row " + Text.NatToString(rowNum + 1) + " of table"
  }

  /** The label of the cell in row `rowNum` and column `col` (both 0-based) holding `val`. */
  function CellAria(rowNum: nat, col: nat, val: string): string
  {
    "row " + Text.NatToString(rowNum + 1) + ", column " + Text.NatToString(col + 1) + " of table, value is " + val
  }

  /** The value shown in column `i` of a row: the row's own cell, or `""` beyond its end. */
  function CellValue(rowData: seq<string>, i: nat): string
  {
    if i < |rowData| then rowData[i] else ""
  }

  /** The length of the longest row, 0 for a table without rows. */
  function Width(tableData: seq<seq<string>>): nat
  {
    if |tableData| == 0 then 0
    else
      var w := Width(tableData[..|tableData| - 1]);
      var n := |tableData[|tableData| - 1]|;
      if n > w then n else w
  }

  /** `Width` is the maximum row length: no row is longer, and some row reaches it unless it is 0. */
  lemma {:induction false} WidthIsMaximum(tableData: seq<seq<string>>)
    ensures forall r :: 0 <= r < |tableData| ==> |tableData[r]| <= Width(tableData)
    ensures Width(tableData) > 0 ==> exists r :: 0 <= r < |tableData| && |tableData[r]| == Width(tableData)
  {
    if |tableData| > 0 {
      var init := tableData[..|tableData| - 1];
      WidthIsMaximum(init);
      forall r | 0 <= r < |init| ensures init[r] == tableData[r] { }
    }
  }

  /** The `forEach` that finds `maxCol`, the length of the longest row. */
  method MaxCol(tableData: seq<seq<string>>) returns (maxCol: nat)
    ensures maxCol == Width(tableData)
    ensures forall r :: 0 <= r < |tableData| ==> |tableData[r]| <= maxCol
    ensures maxCol > 0 ==> exists r :: 0 <= r < |tableData| && |tableData[r]| == maxCol
  {
    maxCol := 0;
    var k := 0;
    while k < |tableData|
      invariant 0 <= k <= |tableData|
      invariant maxCol == Width(tableData[..k])
    {
      assert tableData[..k + 1][..k] == tableData[..k];
      if |tableData[k]| > maxCol {
        maxCol := |tableData[k]|;
      }
      k := k + 1;
    }
    assert tableData[..k] == tableData;
    WidthIsMaximum(tableData);
  }

  /**
   * `row` is row `rowNum` of a table `width` cells wide built from `rowData`: its label,
   * then one labelled cell per column holding the row's own value or `""` beyond its end.
   */
  predicate Rendered(row: Row, rowData: seq<string>, rowNum: nat, width: nat)
  {
    && row.aria == RowAria(rowNum)
    && |row.cells| == width
    && forall c :: 0 <= c < width ==>
      row.cells[c] == Cell(CellValue(rowData, c), CellAria(rowNum, c, CellValue(rowData, c)))
  }

  /** The `for` loop that builds one row of `maxCol` labelled cells, padding with `""`. */
  method RenderRow(rowData: seq<string>, rowNum: nat, maxCol: nat) returns (row: Row)
    ensures Rendered(row, rowData, rowNum, maxCol)
  {
    var currRow: seq<Cell> := [];
    var rowAria := "row " + Text.NatToString(rowNum + 1) + " of table";
    for i := 0 to maxCol
      invariant |currRow| == i
      invariant forall j :: 0 <= j < i ==>
        currRow[j] == Cell(CellValue(rowData, j), CellAria(rowNum, j, CellValue(rowData, j)))
    {
      var val := if i < |rowData| then rowData[i] else "";
      var cellAria := "row " + Text.NatToString(rowNum + 1) + ", column " + Text.NatToString(i + 1)
        + " of table, value is " + val;
      currRow := currRow + [Cell(val, cellAria)];
    }
    row := Row(rowAria, currRow);
  }

  /**
   * `CSVTable`: one rendered row per input row, in order, each exactly as wide as the
   * longest row; a row's own cells come first and empty cells fill the rest.
   */
  method Render(tableData: seq<seq<string>>) returns (table: Table)
    ensures table.aria == TableAria
    ensures |table.rows| == |tableData|
    ensures forall r :: 0 <= r < |tableData| ==> Rendered(table.rows[r], tableData[r], r, Width(tableData))
  {
    var maxCol := MaxCol(tableData);
    var rows: seq<Row> := [];
    for rowNum := 0 to |tableData|
      invariant |rows| == rowNum
      invariant forall r :: 0 <= r < rowNum ==> Rendered(rows[r], tableData[r], r, maxCol)
    {
      var row := RenderRow(tableData[rowNum], rowNum, maxCol);
      rows := rows + [row];
    }
    table := Table(TableAria, rows);
  }

  /** Padding keeps a row's own cells as a prefix and only ever adds empty ones. */
  lemma PaddingKeepsRow(tableData: seq<seq<string>>, r: nat)
    requires r < |tableData|
    ensures forall c :: 0 <= c < |tableData[r]| ==> CellValue(tableData[r], c) == tableData[r][c]
    ensures forall c :: |tableData[r]| <= c < Width(tableData) ==> CellValue(tableData[r], c) == ""
    ensures |tableData[r]| <= Width(tableData)
  {
    WidthIsMaximum(tableData);
  }
}
