/**
 * pandas DataFrames as the post-processing steps use them: rows of named
 * cells. A record frame (built from a list of dicts) knows its set of
 * columns; a spreadsheet read from disk also knows their order.
 */
module Frames {
  import opened Common

  /** A cell: text, an integer, or missing (NaN/None). */
  datatype Cell = Text(s: string) | Int(n: int) | Missing

  type Row = map<string, Cell>

  /** `row.get(col)`: a column the row lacks reads as missing. */
  function Get(r: Row, col: string): Cell
  {
    if col in r then r[col] else Missing
  }

  /** `str(cell)`: a missing cell prints as "nan". */
  function CellText(c: Cell): string
  {
    match c
    case Text(s) => s
    case Int(n) => IntToString(n)
    case Missing => "nan"
  }

  /** `cell.fillna("").str.strip() == ""`: missing, or text that is blank (an integer cell is never blank). */
  predicate Blank(c: Cell)
  {
    c.Missing? || (c.Text? && Strip(c.s) == "")
  }

  /** A frame of records: its columns and its rows. */
  datatype Frame = Frame(columns: set<string>, rows: seq<Row>)

  /** `pd.DataFrame(records)`: the columns are every key some record has. */
  function FromRecords(recs: seq<Row>): Frame
  {
    Frame(UnionOf(recs, (r: Row) => r.Keys), recs)
  }

  /** A spreadsheet read with `dtype=str`: its header in order, and its rows. */
  datatype Sheet = Sheet(header: seq<string>, rows: seq<Row>)
}
