/** An abstract spreadsheet workbook, standing in for the openpyxl objects
    the loaders and the file-kind classifier read. Parsing cell text into a
    timestamp or an amount is foreign code; each cell carries the outcome of
    those parsers instead. */
module Sheets {
  import opened Wrappers

  /** A cell's Python value: `None`, a `str`, or any other value (number,
      datetime, bool) together with its `str(...)` rendering. */
  datatype CellValue = Blank | Str(s: string) | Other(rendered: string)

  /** A cell with what `_parse_datetime`, `_parse_date` (timestamps as
      integers, `None` when unparsable) and `_to_float` (`None` when it
      raises) make of its text. The parsers' empty-cell cases are not
      carried here: the loaders apply them on top. */
  datatype Cell = Cell(value: CellValue, asTime: Option<int>, asDate: Option<int>, asAmount: Option<real>)

  /** What `ws.cell(r, c)` yields where nothing was ever written. */
  const EmptyCell: Cell := Cell(Blank, None, None, Some(0.0))

  /** A worksheet as its rows of cells; rows may differ in length. */
  datatype Sheet = Sheet(rows: seq<seq<Cell>>)

  /** `ws.max_row` */
  function MaxRow(ws: Sheet): nat
  {
    |ws.rows|
  }

  /** `ws.max_column`: the length of the longest row. */
  function MaxColumn(ws: Sheet): (n: nat)
    ensures forall r :: 0 <= r < |ws.rows| ==> |ws.rows[r]| <= n
    decreases |ws.rows|
  {
    if |ws.rows| == 0 then 0
    else
      var rest := MaxColumn(Sheet(ws.rows[1..]));
      if |ws.rows[0]| > rest then |ws.rows[0]| else rest
  }

  /** `ws.cell(r, c)` with 1-based row and column. */
  function CellAt(ws: Sheet, r: int, c: int): Cell
  {
    if 1 <= r <= |ws.rows| && 1 <= c <= |ws.rows[r - 1]| then ws.rows[r - 1][c - 1] else EmptyCell
  }

  /** `[ws.cell(r, c).value for c in range(1, width + 1)]` */
  function HeaderRow(ws: Sheet, r: int, width: nat): (h: seq<CellValue>)
    ensures |h| == width
    ensures forall c :: 1 <= c <= width ==> h[c - 1] == CellAt(ws, r, c).value
  {
    seq(width, i requires 0 <= i < width => CellAt(ws, r, i + 1).value)
  }

  function Min(a: nat, b: nat): nat
  {
    if a <= b then a else b
  }

  /** A workbook: sheet names in tab order and the sheets by name. openpyxl
      always has at least one sheet and a sheet for every listed name. */
  datatype Workbook = Workbook(sheetNames: seq<string>, sheets: map<string, Sheet>)
  {
    ghost predicate WellFormed()
    {
      |sheetNames| > 0 && forall n :: n in sheets <==> n in sheetNames
    }

    /** `wb[wb.sheetnames[0]]` */
    function FirstSheet(): Sheet
      requires WellFormed()
    {
      sheets[sheetNames[0]]
    }
  }
}
