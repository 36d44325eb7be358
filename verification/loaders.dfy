/** The xlsx loaders of cash_recon/parse.py over an abstract workbook: which
    sheet is read, how header names resolve to columns, which required
    columns are reported missing, and which rows are skipped. */
module Loaders {
  import opened Wrappers
  import opened Sheets
  import opened Headers
  import opened Models
  import Text

  /** The `ValueError`s the loaders raise, by cause. */
  datatype LoadError =
    | MissingOrderIdColumn
    | MissingRequiredColumns(names: seq<string>)
    | SheetNotFound(name: string)
    | NotANumber(row: int, column: int)

  /** What one sheet row contributes: nothing, a record, or an exception. */
  datatype RowOutcome<T> = Skip | Emit(row: T) | Fail(error: LoadError)

  /** `_to_str(ws.cell(r, c).value)` */
  function TextAt(ws: Sheet, r: int, c: int): string
  {
    ToStr(CellAt(ws, r, c).value)
  }

  /** The text `_to_float` falls back to when `float(...)` raises: the
      cell's text without thousands separators and the currency sign. */
  function AmountText(v: CellValue): string
  {
    Text.ReplaceChar(Text.ReplaceChar(ToStr(v), ',', ""), '元', "")
  }

  /** `_to_float(ws.cell(r, c).value)` as an option: `None`, `""` and text
      that is nothing but blanks, separators and the currency sign read as
      0.0; any other cell gives its own parse, `None` where it raises. */
  function AmountAt(ws: Sheet, r: int, c: int): (a: Option<real>)
    ensures CellAt(ws, r, c).value.Blank? ==> a == Some(0.0)
    ensures CellAt(ws, r, c).value == Str("") ==> a == Some(0.0)
    ensures a.None? ==> CellAt(ws, r, c).asAmount.None? && ToStr(CellAt(ws, r, c).value) != ""
  {
    if AmountText(CellAt(ws, r, c).value) == "" then Some(0.0) else CellAt(ws, r, c).asAmount
  }

  /** `_parse_datetime(ws.cell(r, c).value)`: a cell with no text has no
      timestamp. */
  function TimeAt(ws: Sheet, r: int, c: int): (t: Option<int>)
    ensures ToStr(CellAt(ws, r, c).value) == "" ==> t.None?
    ensures t.Some? ==> t == CellAt(ws, r, c).asTime
  {
    if ToStr(CellAt(ws, r, c).value) == "" then None else CellAt(ws, r, c).asTime
  }

  /** `_parse_date(ws.cell(r, c).value)`: a cell with no text has no date. */
  function DateAt(ws: Sheet, r: int, c: int): (t: Option<int>)
    ensures ToStr(CellAt(ws, r, c).value) == "" ==> t.None?
    ensures t.Some? ==> t == CellAt(ws, r, c).asDate
  {
    if ToStr(CellAt(ws, r, c).value) == "" then None else CellAt(ws, r, c).asDate
  }

  /** `_to_float` raises on cell (r, c). */
  predicate Unparsable(ws: Sheet, r: int, c: int)
  {
    AmountAt(ws, r, c).None?
  }

  /** `_to_float(ws.cell(r, c).value)` */
  function Amount(ws: Sheet, r: int, c: int): (res: Result<real, LoadError>)
    ensures res.Failure? <==> Unparsable(ws, r, c)
    ensures res.Failure? ==> res.error == NotANumber(r, c)
    ensures res.Success? ==> Some(res.value) == AmountAt(ws, r, c)
  {
    match AmountAt(ws, r, c)
    case None => Failure(NotANumber(r, c))
    case Some(x) => Success(x)
  }

  /** The loop `for r in range(from, last + 1)` of every loader: rows are
      parsed in order, records collected, and the first exception aborts. */
  function RowsFrom<T>(from: int, last: int, parse: int -> RowOutcome<T>): Result<seq<T>, LoadError>
    decreases last + 1 - from
  {
    if from > last then Success([])
    else
      match parse(from)
      case Fail(e) => Failure(e)
      case Skip => RowsFrom(from + 1, last, parse)
      case Emit(x) =>
        var rest := RowsFrom(from + 1, last, parse);
        if rest.Failure? then rest else Success([x] + rest.value)
  }

  /** What the loop yields: success iff no row raises, else the first
      raising row's error; on success, exactly the emitted records. */
  lemma {:induction false} RowsFromFacts<T(!new)>(from: int, last: int, parse: int -> RowOutcome<T>)
    ensures var res := RowsFrom(from, last, parse);
            && (res.Success? <==> forall r :: from <= r <= last ==> !parse(r).Fail?)
            && (res.Failure? ==>
                  exists r :: && from <= r <= last && parse(r) == Fail(res.error)
                              && forall q :: from <= q < r ==> !parse(q).Fail?)
            && (res.Success? ==>
                  forall x :: x in res.value <==> exists r :: from <= r <= last && parse(r) == Emit(x))
    decreases last + 1 - from
  {
    if from <= last {
      RowsFromFacts(from + 1, last, parse);
    }
  }

  /** The loader loop with its meaning. */
  function LoadRows<T(!new)>(from: int, last: int, parse: int -> RowOutcome<T>): (res: Result<seq<T>, LoadError>)
    ensures res.Success? <==> forall r :: from <= r <= last ==> !parse(r).Fail?
    ensures res.Failure? ==>
              exists r :: && from <= r <= last && parse(r) == Fail(res.error)
                          && forall q :: from <= q < r ==> !parse(q).Fail?
    ensures res.Success? ==>
              forall x :: x in res.value <==> exists r :: from <= r <= last && parse(r) == Emit(x)
  {
    RowsFromFacts(from, last, parse);
    RowsFrom(from, last, parse)
  }

  /** Two consecutive row ranges: the first one's exception wins, then the
      second's; otherwise their records in row order. */
  function Then<T>(a: Result<seq<T>, LoadError>, b: Result<seq<T>, LoadError>): Result<seq<T>, LoadError>
  {
    if a.Failure? then a else if b.Failure? then b else Success(a.value + b.value)
  }

  /** Loading a row range is loading its two halves one after the other:
      records keep the sheet's row order. */
  lemma {:induction false} LoadRowsSplit<T(!new)>(from: int, mid: int, last: int, parse: int -> RowOutcome<T>)
    requires from <= mid <= last + 1
    ensures LoadRows(from, last, parse) == Then(LoadRows(from, mid - 1, parse), LoadRows(mid, last, parse))
  {
    RowsFromSplit(from, mid, last, parse);
  }

  lemma {:induction false} RowsFromSplit<T>(from: int, mid: int, last: int, parse: int -> RowOutcome<T>)
    requires from <= mid <= last + 1
    ensures RowsFrom(from, last, parse) == Then(RowsFrom(from, mid - 1, parse), RowsFrom(mid, last, parse))
    decreases mid - from
  {
    if from < mid {
      RowsFromSplit(from + 1, mid, last, parse);
      match parse(from)
      case Fail(e) =>
      case Skip =>
      case Emit(x) =>
        var left := RowsFrom(from + 1, mid - 1, parse);
        var right := RowsFrom(mid, last, parse);
        if left.Success? && right.Success? {
          assert [x] + (left.value + right.value) == ([x] + left.value) + right.value;
        }
    } else {
      var right := RowsFrom(mid, last, parse);
      if right.Success? {
        assert [] + right.value == right.value;
      }
    }
  }

  /** Required column groups: the name reported when missing, and the
      header names accepted for it, in preference order. */
  type ColumnGroups = seq<(string, seq<string>)>

  /** Each group's column, in group order. */
  function Resolve(header: seq<CellValue>, groups: ColumnGroups): (cols: seq<(string, Option<int>)>)
    ensures |cols| == |groups|
    ensures forall i :: 0 <= i < |groups| ==>
              && cols[i].0 == groups[i].0
              && (cols[i].1.Some? <==> HasColumn(header, groups[i].1))
              && (cols[i].1.Some? ==> ColumnMatches(header, groups[i].1, cols[i].1.value))
  {
    seq(|groups|, i requires 0 <= i < |groups| => (groups[i].0, Column(header, groups[i].1)))
  }

  /** The missing-column check: every group resolved, or an error naming
      exactly the groups the header lacks, in declared order. */
  function RequireColumns(header: seq<CellValue>, groups: ColumnGroups): (res: Result<seq<int>, LoadError>)
    ensures res.Success? <==> forall i :: 0 <= i < |groups| ==> HasColumn(header, groups[i].1)
    ensures res.Success? ==>
              && |res.value| == |groups|
              && forall i :: 0 <= i < |groups| ==> ColumnMatches(header, groups[i].1, res.value[i])
    ensures res.Failure? ==>
              && res.error.MissingRequiredColumns?
              && res.error.names != []
              && forall n :: n in res.error.names <==>
                   exists i :: 0 <= i < |groups| && groups[i].0 == n && !HasColumn(header, groups[i].1)
    ensures res.Failure? ==> res.error.names == MissingColumns(Resolve(header, groups))
  {
    var found := Resolve(header, groups);
    var missing := MissingColumns(found);
    MissingNamesOfResolve(header, groups);
    if missing != [] then Failure(MissingRequiredColumns(missing))
    else Success(seq(|found|, i requires 0 <= i < |found| => found[i].1.value))
  }

  lemma MissingNamesOfResolve(header: seq<CellValue>, groups: ColumnGroups)
    ensures forall n :: n in MissingColumns(Resolve(header, groups)) <==>
              exists i :: 0 <= i < |groups| && groups[i].0 == n && !HasColumn(header, groups[i].1)
  {
    var found := Resolve(header, groups);
    var missing := MissingColumns(found);
    forall n
      ensures n in missing <==> exists i :: 0 <= i < |groups| && groups[i].0 == n && !HasColumn(header, groups[i].1)
    {
      if n in missing {
        var i :| 0 <= i < |found| && found[i].0 == n && found[i].1.None?;
        assert groups[i].0 == n && !HasColumn(header, groups[i].1);
      }
      if exists i :: 0 <= i < |groups| && groups[i].0 == n && !HasColumn(header, groups[i].1) {
        var i :| 0 <= i < |groups| && groups[i].0 == n && !HasColumn(header, groups[i].1);
        assert found[i].0 == n && found[i].1.None?;
      }
    }
  }

  /** `wb[sheet_name] if sheet_name and sheet_name in wb.sheetnames else
      wb[wb.sheetnames[0]]`: a named sheet when it exists, else the first. */
  function ChosenSheet(wb: Workbook, name: Option<string>): (ws: Sheet)
    requires wb.WellFormed()
    ensures name.Some? && name.value != "" && name.value in wb.sheetNames ==> ws == wb.sheets[name.value]
    ensures (name.None? || name.value == "" || name.value !in wb.sheetNames) ==> ws == wb.FirstSheet()
  {
    if name.Some? && name.value != "" && name.value in wb.sheetNames then wb.sheets[name.value]
    else wb.FirstSheet()
  }

  // ---------------------------------------------------------------------
  // Hotcake orders report

  /** Column numbers of the order fields. */
  datatype OrderColumns = OrderColumns(
    orderId: int, serviceStart: int, store: int, designer: int, service: int,
    status: int, checkinTime: int, memberName: int, phone: int, billId: int,
    billAmount: int)

  /** A row the orders loop does not skip: an order id and a parsable
      service start. */
  predicate OrderRowKept(ws: Sheet, cols: OrderColumns, r: int)
  {
    TextAt(ws, r, cols.orderId) != "" && TimeAt(ws, r, cols.serviceStart).Some?
  }

  /** One iteration of `_load_hotcake_orders_with_columns`. */
  function ParseOrderRow(ws: Sheet, cols: OrderColumns, codeCol: Option<int>, r: int): (out: RowOutcome<OrdersRow>)
    ensures out.Skip? <==> !OrderRowKept(ws, cols, r)
    ensures out.Fail? <==> OrderRowKept(ws, cols, r) && Unparsable(ws, r, cols.billAmount)
    ensures out.Fail? ==> out.error == NotANumber(r, cols.billAmount)
    ensures out.Emit? ==>
              && out.row.orderId == TextAt(ws, r, cols.orderId)
              && Some(out.row.serviceStart) == TimeAt(ws, r, cols.serviceStart)
              && out.row.checkinTime == TimeAt(ws, r, cols.checkinTime)
              && Some(out.row.billAmount) == AmountAt(ws, r, cols.billAmount)
              && out.row.orderCode == (if codeCol.Some? then TextAt(ws, r, codeCol.value) else "")
              && out.row.store == TextAt(ws, r, cols.store)
              && out.row.designer == TextAt(ws, r, cols.designer)
              && out.row.service == TextAt(ws, r, cols.service)
              && out.row.orderStatus == TextAt(ws, r, cols.status)
              && out.row.billId == TextAt(ws, r, cols.billId)
              && out.row.memberName == TextAt(ws, r, cols.memberName)
              && out.row.phone == TextAt(ws, r, cols.phone)
  {
    var orderId := TextAt(ws, r, cols.orderId);
    if orderId == "" then Skip
    else match TimeAt(ws, r, cols.serviceStart)
      case None => Skip
      case Some(start) =>
        match Amount(ws, r, cols.billAmount)
        case Failure(e) => Fail(e)
        case Success(amount) =>
          Emit(OrdersRow(
            orderId := orderId,
            orderCode := if codeCol.Some? then TextAt(ws, r, codeCol.value) else "",
            serviceStart := start,
            store := TextAt(ws, r, cols.store),
            designer := TextAt(ws, r, cols.designer),
            service := TextAt(ws, r, cols.service),
            orderStatus := TextAt(ws, r, cols.status),
            checkinTime := TimeAt(ws, r, cols.checkinTime),
            billId := TextAt(ws, r, cols.billId),
            billAmount := amount,
            memberName := TextAt(ws, r, cols.memberName),
            phone := TextAt(ws, r, cols.phone)))
  }

  function OrderRowParser(ws: Sheet, cols: OrderColumns, codeCol: Option<int>): int -> RowOutcome<OrdersRow>
  {
    (r: int) => ParseOrderRow(ws, cols, codeCol, r)
  }

  /** `_load_hotcake_orders_with_columns`: data rows from row 2 on. Every
      record comes from a kept row and every kept row gives a record; the
      load fails exactly when a kept row has an unparsable bill amount. */
  function LoadOrdersWithColumns(ws: Sheet, cols: OrderColumns, codeCol: Option<int>): (res: Result<seq<OrdersRow>, LoadError>)
    ensures res.Failure? <==>
              exists r :: 2 <= r <= MaxRow(ws) && OrderRowKept(ws, cols, r) && Unparsable(ws, r, cols.billAmount)
    ensures res.Failure? ==> res.error.NotANumber?
    ensures res.Success? ==>
              forall o :: o in res.value ==>
                exists r :: && 2 <= r <= MaxRow(ws) && OrderRowKept(ws, cols, r)
                            && o.orderId == TextAt(ws, r, cols.orderId)
                            && Some(o.serviceStart) == TimeAt(ws, r, cols.serviceStart)
    ensures res.Success? ==>
              forall r :: 2 <= r <= MaxRow(ws) && OrderRowKept(ws, cols, r) ==>
                exists o :: o in res.value && o.orderId == TextAt(ws, r, cols.orderId)
    ensures res.Success? && codeCol.None? ==> forall o :: o in res.value ==> o.orderCode == ""
  {
    var parse := OrderRowParser(ws, cols, codeCol);
    var res := LoadRows(2, MaxRow(ws), parse);
    OrdersLoadFailure(ws, cols, codeCol, res);
    if res.Success? then
      OrdersRowsFromKeptRows(ws, cols, codeCol, res);
      res
    else res
  }

  lemma OrdersLoadFailure(ws: Sheet, cols: OrderColumns, codeCol: Option<int>, res: Result<seq<OrdersRow>, LoadError>)
    requires res == LoadRows(2, MaxRow(ws), OrderRowParser(ws, cols, codeCol))
    ensures res.Failure? <==>
              exists r :: 2 <= r <= MaxRow(ws) && OrderRowKept(ws, cols, r) && Unparsable(ws, r, cols.billAmount)
    ensures res.Failure? ==> res.error.NotANumber?
  {
    var parse := OrderRowParser(ws, cols, codeCol);
    if res.Failure? {
      var r :| 2 <= r <= MaxRow(ws) && parse(r) == Fail(res.error);
      assert parse(r) == ParseOrderRow(ws, cols, codeCol, r);
      assert OrderRowKept(ws, cols, r) && Unparsable(ws, r, cols.billAmount);
    } else {
      forall r | 2 <= r <= MaxRow(ws)
        ensures !(OrderRowKept(ws, cols, r) && Unparsable(ws, r, cols.billAmount))
      {
        assert parse(r) == ParseOrderRow(ws, cols, codeCol, r);
        assert !parse(r).Fail?;
      }
    }
  }

  lemma OrdersRowsFromKeptRows(ws: Sheet, cols: OrderColumns, codeCol: Option<int>, res: Result<seq<OrdersRow>, LoadError>)
    requires res == LoadRows(2, MaxRow(ws), OrderRowParser(ws, cols, codeCol))
    requires res.Success?
    ensures forall o :: o in res.value ==>
              exists r :: && 2 <= r <= MaxRow(ws) && OrderRowKept(ws, cols, r)
                          && o.orderId == TextAt(ws, r, cols.orderId)
                          && Some(o.serviceStart) == TimeAt(ws, r, cols.serviceStart)
    ensures forall r :: 2 <= r <= MaxRow(ws) && OrderRowKept(ws, cols, r) ==>
              exists o :: o in res.value && o.orderId == TextAt(ws, r, cols.orderId)
    ensures codeCol.None? ==> forall o :: o in res.value ==> o.orderCode == ""
  {
    var parse := OrderRowParser(ws, cols, codeCol);
    forall o | o in res.value
      ensures exists r :: && 2 <= r <= MaxRow(ws) && OrderRowKept(ws, cols, r)
                          && o.orderId == TextAt(ws, r, cols.orderId)
                          && Some(o.serviceStart) == TimeAt(ws, r, cols.serviceStart)
      ensures codeCol.None? ==> o.orderCode == ""
    {
      var r :| 2 <= r <= MaxRow(ws) && parse(r) == Emit(o);
      assert parse(r) == ParseOrderRow(ws, cols, codeCol, r);
    }
    forall r | 2 <= r <= MaxRow(ws) && OrderRowKept(ws, cols, r)
      ensures exists o :: o in res.value && o.orderId == TextAt(ws, r, cols.orderId)
    {
      assert parse(r) == ParseOrderRow(ws, cols, codeCol, r);
      assert parse(r).row in res.value;
    }
  }

  /** `load_hotcake_orders_xlsx_with_mapping`: the caller's columns on the
      chosen sheet. */
  function LoadOrdersWithMapping(wb: Workbook, sheetName: Option<string>, cols: OrderColumns, codeCol: Option<int>): (res: Result<seq<OrdersRow>, LoadError>)
    requires wb.WellFormed()
    ensures res.Failure? ==> res.error.NotANumber?
    ensures res.Success? ==> forall o :: o in res.value ==> o.orderId != ""
    ensures res.Success? && codeCol.None? ==> forall o :: o in res.value ==> o.orderCode == ""
  {
    LoadOrdersWithColumns(ChosenSheet(wb, sheetName), cols, codeCol)
  }

  const OrdersSheetName := "訂單報表"
  const OrderIdName := "訂單編號"

  /** The order fields' column groups, in the order their absence is
      reported. The check-in candidates list "報到/取消時間" three times:
      the source's list does so, and a repeat changes no lookup. */
  const OrderGroups: ColumnGroups := [
    ("日期時間", ["日期時間", "服務日期時間", "服務開始時間", "開始時間"]),
    ("分店", ["分店", "門市", "店別"]),
    ("設計師", ["設計師", "師傅", "服務人員"]),
    ("服務", ["服務", "服務項目", "項目"]),
    ("訂單狀態", ["訂單狀態", "狀態"]),
    ("報到/取消 時間", ["報到/取消時間", "報到取消時間", "報到/取消時間", "報到/取消時間"]),
    ("會員姓名", ["會員姓名", "姓名"]),
    ("手機號碼", ["手機號碼", "電話號碼", "手機", "電話"]),
    ("帳單編號", ["帳單編號"]),
    ("帳單金額", ["帳單金額", "結帳金額", "帳單總額"])
  ]

  /** The orders report sheet when present, else the first sheet. */
  function OrdersSheet(wb: Workbook): (ws: Sheet)
    requires wb.WellFormed()
    ensures OrdersSheetName in wb.sheetNames ==> ws == wb.sheets[OrdersSheetName]
    ensures OrdersSheetName !in wb.sheetNames ==> ws == wb.FirstSheet()
  {
    if OrdersSheetName in wb.sheetNames then wb.sheets[OrdersSheetName] else wb.FirstSheet()
  }

  /** Row 1 of a sheet, as wide as the sheet. */
  function TopHeader(ws: Sheet): seq<CellValue>
  {
    HeaderRow(ws, 1, MaxColumn(ws))
  }

  /** The column resolution of `load_hotcake_orders_xlsx`: an order-id
      column first, then every other required column; the order-code column
      is the second order-number column, if any. */
  function OrderColumnsOf(header: seq<CellValue>): (res: Result<(OrderColumns, Option<int>), LoadError>)
    ensures res == Failure(MissingOrderIdColumn) <==> !HasColumn(header, [OrderIdName])
    ensures (res.Failure? && res.error.MissingRequiredColumns?) <==>
              && HasColumn(header, [OrderIdName])
              && exists i :: 0 <= i < |OrderGroups| && !HasColumn(header, OrderGroups[i].1)
    ensures res.Failure? ==> res.error.MissingOrderIdColumn? || res.error.MissingRequiredColumns?
    ensures res.Failure? && res.error.MissingRequiredColumns? ==>
              forall n :: n in res.error.names <==>
                exists i :: 0 <= i < |OrderGroups| && OrderGroups[i].0 == n && !HasColumn(header, OrderGroups[i].1)
    ensures res.Failure? && res.error.MissingRequiredColumns? ==>
              res.error.names == MissingColumns(Resolve(header, OrderGroups))
    ensures res.Success? ==>
              && ColumnMatches(header, [OrderIdName], res.value.0.orderId)
              && (res.value.1.None? <==> CountKey(HeaderKeys(header), Key(OrderIdName)) < 2)
  {
    assert |OrderGroups| == 10;
    ResolveOrderColumns(header, OrderIdName, OrderGroups)
  }

  /** `OrderColumnsOf` for any order-id name and any ten column groups. */
  function ResolveOrderColumns(header: seq<CellValue>, idName: string, groups: ColumnGroups): (res: Result<(OrderColumns, Option<int>), LoadError>)
    requires |groups| == 10
    ensures res == Failure(MissingOrderIdColumn) <==> !HasColumn(header, [idName])
    ensures (res.Failure? && res.error.MissingRequiredColumns?) <==>
              && HasColumn(header, [idName])
              && exists i :: 0 <= i < |groups| && !HasColumn(header, groups[i].1)
    ensures res.Failure? ==> res.error.MissingOrderIdColumn? || res.error.MissingRequiredColumns?
    ensures res.Failure? && res.error.MissingRequiredColumns? ==>
              forall n :: n in res.error.names <==>
                exists i :: 0 <= i < |groups| && groups[i].0 == n && !HasColumn(header, groups[i].1)
    ensures res.Failure? && res.error.MissingRequiredColumns? ==>
              res.error.names == MissingColumns(Resolve(header, groups))
    ensures res.Success? ==>
              && ColumnMatches(header, [idName], res.value.0.orderId)
              && (res.value.1.None? <==> CountKey(HeaderKeys(header), Key(idName)) < 2)
  {
    var idCol := Column(header, [idName]);
    if idCol.None? then Failure(MissingOrderIdColumn)
    else
      var required := RequireColumns(header, groups);
      if required.Failure? then Failure(required.error)
      else
        var cs := required.value;
        Success((OrderColumns(idCol.value, cs[0], cs[1], cs[2], cs[3], cs[4], cs[5], cs[6], cs[7], cs[8], cs[9]),
                 OrderCodeColumn(header, idName)))
  }

  /** `load_hotcake_orders_xlsx`: the orders report sheet (else the first),
      its row-1 header resolved, then the rows; without a second
      order-number column every order code is blank. */
  function LoadOrders(wb: Workbook): (res: Result<seq<OrdersRow>, LoadError>)
    requires wb.WellFormed()
    ensures res == Failure(MissingOrderIdColumn) <==> !HasColumn(TopHeader(OrdersSheet(wb)), [OrderIdName])
    ensures (res.Failure? && res.error.MissingRequiredColumns?) <==>
              && HasColumn(TopHeader(OrdersSheet(wb)), [OrderIdName])
              && exists i :: 0 <= i < |OrderGroups| && !HasColumn(TopHeader(OrdersSheet(wb)), OrderGroups[i].1)
    ensures res.Success? ==> forall o :: o in res.value ==> o.orderId != ""
    ensures res.Success? && CountKey(HeaderKeys(TopHeader(OrdersSheet(wb))), Key(OrderIdName)) < 2 ==>
              forall o :: o in res.value ==> o.orderCode == ""
  {
    var ws := OrdersSheet(wb);
    match OrderColumnsOf(TopHeader(ws))
    case Failure(e) => Failure(e)
    case Success((cols, codeCol)) => LoadOrdersWithColumns(ws, cols, codeCol)
  }

  // ---------------------------------------------------------------------
  // Hotcake bills workbook

  /** Column numbers of the bill fields; the card and LINE Pay columns are
      optional. */
  datatype BillColumns = BillColumns(
    billId: int, settlementTime: int, attributedDate: int, store: int,
    designer: int, item: int, cash: int, creditCard: Option<int>,
    linepay: Option<int>, billAmount: int)

  /** A row the bills loop does not skip: a bill id, a parsable settlement
      time and a parsable attribution date. */
  predicate BillRowKept(ws: Sheet, cols: BillColumns, r: int)
  {
    && TextAt(ws, r, cols.billId) != ""
    && TimeAt(ws, r, cols.settlementTime).Some?
    && DateAt(ws, r, cols.attributedDate).Some?
  }

  /** Some amount cell of the row that is read raises in `_to_float`. */
  predicate BillAmountsUnparsable(ws: Sheet, cols: BillColumns, r: int)
  {
    || Unparsable(ws, r, cols.cash)
    || (cols.creditCard.Some? && Unparsable(ws, r, cols.creditCard.value))
    || (cols.linepay.Some? && Unparsable(ws, r, cols.linepay.value))
    || Unparsable(ws, r, cols.billAmount)
  }

  /** An optional amount column: `0.0` when there is none. */
  function OptionalAmount(ws: Sheet, r: int, col: Option<int>): (res: Result<real, LoadError>)
    ensures col.None? ==> res == Success(0.0)
    ensures col.Some? ==> res == Amount(ws, r, col.value)
  {
    if col.None? then Success(0.0) else Amount(ws, r, col.value)
  }

  /** One iteration of the bills loop (both the header-driven and the
      mapping-driven one). */
  function ParseBillRow(ws: Sheet, cols: BillColumns, r: int): (out: RowOutcome<BillRow>)
    ensures out.Skip? <==> !BillRowKept(ws, cols, r)
    ensures out.Fail? <==> BillRowKept(ws, cols, r) && BillAmountsUnparsable(ws, cols, r)
    ensures out.Fail? ==> out.error.NotANumber?
    ensures out.Emit? ==>
              && out.row.billId == TextAt(ws, r, cols.billId)
              && Some(out.row.settlementTime) == TimeAt(ws, r, cols.settlementTime)
              && Some(out.row.attributedDate) == DateAt(ws, r, cols.attributedDate)
              && Some(out.row.cash) == AmountAt(ws, r, cols.cash)
              && out.row.store == TextAt(ws, r, cols.store)
              && out.row.designer == TextAt(ws, r, cols.designer)
              && out.row.item == TextAt(ws, r, cols.item)
              && Some(out.row.billAmount) == AmountAt(ws, r, cols.billAmount)
              && (cols.creditCard.None? ==> out.row.creditCard == 0.0)
              && (cols.creditCard.Some? ==> Some(out.row.creditCard) == AmountAt(ws, r, cols.creditCard.value))
              && (cols.linepay.None? ==> out.row.linepay == 0.0)
              && (cols.linepay.Some? ==> Some(out.row.linepay) == AmountAt(ws, r, cols.linepay.value))
  {
    var billId := TextAt(ws, r, cols.billId);
    if billId == "" then Skip
    else match (TimeAt(ws, r, cols.settlementTime), DateAt(ws, r, cols.attributedDate))
      case (None, _) => Skip
      case (_, None) => Skip
      case (Some(settled), Some(attributed)) =>
        match Amount(ws, r, cols.cash)
        case Failure(e) => Fail(e)
        case Success(cash) =>
          match OptionalAmount(ws, r, cols.creditCard)
          case Failure(e) => Fail(e)
          case Success(card) =>
            match OptionalAmount(ws, r, cols.linepay)
            case Failure(e) => Fail(e)
            case Success(linepay) =>
              match Amount(ws, r, cols.billAmount)
              case Failure(e) => Fail(e)
              case Success(amount) =>
                Emit(BillRow(
                  billId := billId,
                  settlementTime := settled,
                  attributedDate := attributed,
                  store := TextAt(ws, r, cols.store),
                  designer := TextAt(ws, r, cols.designer),
                  item := TextAt(ws, r, cols.item),
                  cash := cash,
                  creditCard := card,
                  linepay := linepay,
                  billAmount := amount))
  }

  function BillRowParser(ws: Sheet, cols: BillColumns): int -> RowOutcome<BillRow>
  {
    (r: int) => ParseBillRow(ws, cols, r)
  }

  /** The bills loop from row 2 on: it fails exactly when a kept row has an
      unparsable amount; otherwise every record comes from a kept row, every
      kept row gives one, and an absent optional column reads as zero. */
  function LoadBillRows(ws: Sheet, cols: BillColumns): (res: Result<seq<BillRow>, LoadError>)
    ensures res.Failure? <==>
              exists r :: 2 <= r <= MaxRow(ws) && BillRowKept(ws, cols, r) && BillAmountsUnparsable(ws, cols, r)
    ensures res.Failure? ==> res.error.NotANumber?
    ensures res.Success? ==>
              forall b :: b in res.value ==>
                && b.billId != ""
                && (cols.creditCard.None? ==> b.creditCard == 0.0)
                && (cols.linepay.None? ==> b.linepay == 0.0)
                && exists r :: 2 <= r <= MaxRow(ws) && BillRowKept(ws, cols, r) && b.billId == TextAt(ws, r, cols.billId)
    ensures res.Success? ==>
              forall r :: 2 <= r <= MaxRow(ws) && BillRowKept(ws, cols, r) ==>
                exists b :: b in res.value && b.billId == TextAt(ws, r, cols.billId)
  {
    var res := LoadRows(2, MaxRow(ws), BillRowParser(ws, cols));
    BillsLoadFailure(ws, cols, res);
    if res.Success? then
      BillsFromKeptRows(ws, cols, res);
      res
    else res
  }

  lemma BillsLoadFailure(ws: Sheet, cols: BillColumns, res: Result<seq<BillRow>, LoadError>)
    requires res == LoadRows(2, MaxRow(ws), BillRowParser(ws, cols))
    ensures res.Failure? <==>
              exists r :: 2 <= r <= MaxRow(ws) && BillRowKept(ws, cols, r) && BillAmountsUnparsable(ws, cols, r)
    ensures res.Failure? ==> res.error.NotANumber?
  {
    var parse := BillRowParser(ws, cols);
    if res.Failure? {
      var r :| 2 <= r <= MaxRow(ws) && parse(r) == Fail(res.error);
      assert parse(r) == ParseBillRow(ws, cols, r);
    } else {
      forall r | 2 <= r <= MaxRow(ws)
        ensures !(BillRowKept(ws, cols, r) && BillAmountsUnparsable(ws, cols, r))
      {
        assert parse(r) == ParseBillRow(ws, cols, r);
        assert !parse(r).Fail?;
      }
    }
  }

  lemma BillsFromKeptRows(ws: Sheet, cols: BillColumns, res: Result<seq<BillRow>, LoadError>)
    requires res == LoadRows(2, MaxRow(ws), BillRowParser(ws, cols))
    requires res.Success?
    ensures forall b :: b in res.value ==>
              && b.billId != ""
              && (cols.creditCard.None? ==> b.creditCard == 0.0)
              && (cols.linepay.None? ==> b.linepay == 0.0)
              && exists r :: 2 <= r <= MaxRow(ws) && BillRowKept(ws, cols, r) && b.billId == TextAt(ws, r, cols.billId)
    ensures forall r :: 2 <= r <= MaxRow(ws) && BillRowKept(ws, cols, r) ==>
              exists b :: b in res.value && b.billId == TextAt(ws, r, cols.billId)
  {
    var parse := BillRowParser(ws, cols);
    forall b | b in res.value
      ensures && b.billId != ""
              && (cols.creditCard.None? ==> b.creditCard == 0.0)
              && (cols.linepay.None? ==> b.linepay == 0.0)
              && exists r :: 2 <= r <= MaxRow(ws) && BillRowKept(ws, cols, r) && b.billId == TextAt(ws, r, cols.billId)
    {
      var r :| 2 <= r <= MaxRow(ws) && parse(r) == Emit(b);
      assert parse(r) == ParseBillRow(ws, cols, r);
    }
    forall r | 2 <= r <= MaxRow(ws) && BillRowKept(ws, cols, r)
      ensures exists b :: b in res.value && b.billId == TextAt(ws, r, cols.billId)
    {
      assert parse(r) == ParseBillRow(ws, cols, r);
      assert parse(r).row in res.value;
    }
  }

  /** The bill fields' column groups, in the order their absence is
      reported. */
  const BillGroups: ColumnGroups := [
    ("帳單編號", ["帳單編號"]),
    ("結帳操作時間", ["結帳操作時間", "結帳時間", "操作時間"]),
    ("計算歸屬日", ["計算歸屬日", "歸屬日"]),
    ("分店", ["分店", "門市", "店別"]),
    ("設計師", ["設計師", "師傅", "服務人員"]),
    ("項目", ["項目", "服務項目", "商品名稱"]),
    ("現金", ["現金", "現金支付", "現金收款"]),
    ("結帳金額", ["結帳金額", "帳單金額", "應收金額"])
  ]

  const CreditCardNames: seq<string> := ["信用卡", "刷卡"]
  const LinepayNames: seq<string> := ["Linepay", "Line Pay", "LinePay", "LINEPAY", "LINE PAY", "linepay", "line pay"]

  /** The column resolution of `_load_hotcake_bill_sheet`: every required
      column, and the optional card and LINE Pay columns when present. */
  function BillColumnsOf(header: seq<CellValue>): (res: Result<BillColumns, LoadError>)
    ensures res.Success? <==> forall i :: 0 <= i < |BillGroups| ==> HasColumn(header, BillGroups[i].1)
    ensures res.Failure? ==>
              && res.error.MissingRequiredColumns?
              && forall n :: n in res.error.names <==>
                   exists i :: 0 <= i < |BillGroups| && BillGroups[i].0 == n && !HasColumn(header, BillGroups[i].1)
    ensures res.Failure? ==> res.error.names == MissingColumns(Resolve(header, BillGroups))
    ensures res.Success? ==>
              && (res.value.creditCard.Some? <==> HasColumn(header, CreditCardNames))
              && (res.value.linepay.Some? <==> HasColumn(header, LinepayNames))
              && ColumnMatches(header, ["帳單編號"], res.value.billId)
  {
    var required := RequireColumns(header, BillGroups);
    if required.Failure? then Failure(required.error)
    else
      var cs := required.value;
      Success(BillColumns(cs[0], cs[1], cs[2], cs[3], cs[4], cs[5], cs[6],
                          Column(header, CreditCardNames), Column(header, LinepayNames), cs[7]))
  }

  /** `_load_hotcake_bill_sheet`: row-1 header, then the rows. A sheet
      without a card (LINE Pay) column loads every card (LINE Pay) amount
      as zero. */
  function LoadBillSheet(ws: Sheet): (res: Result<seq<BillRow>, LoadError>)
    ensures (res.Failure? && res.error.MissingRequiredColumns?) <==>
              exists i :: 0 <= i < |BillGroups| && !HasColumn(TopHeader(ws), BillGroups[i].1)
    ensures res.Success? ==> forall b :: b in res.value ==> b.billId != ""
    ensures res.Success? && !HasColumn(TopHeader(ws), CreditCardNames) ==>
              forall b :: b in res.value ==> b.creditCard == 0.0
    ensures res.Success? && !HasColumn(TopHeader(ws), LinepayNames) ==>
              forall b :: b in res.value ==> b.linepay == 0.0
  {
    match BillColumnsOf(TopHeader(ws))
    case Failure(e) => Failure(e)
    case Success(cols) => LoadBillRows(ws, cols)
  }

  /** `mapping.get(key)` used as a condition: an absent key and column 0
      both mean "no such column". */
  function Truthy(col: Option<int>): (r: Option<int>)
    ensures r.Some? <==> col.Some? && col.value != 0
    ensures r.Some? ==> r == col
  {
    if col.Some? && col.value != 0 then col else None
  }

  /** `_load_with_mapping` inside `load_hotcake_bills_xlsx_with_mapping`. */
  function LoadBillSheetWithMapping(ws: Sheet, mapping: BillColumns): (res: Result<seq<BillRow>, LoadError>)
    ensures res.Failure? ==> res.error.NotANumber?
    ensures res.Success? ==> forall b :: b in res.value ==> b.billId != ""
    ensures res.Success? && Truthy(mapping.creditCard).None? ==> forall b :: b in res.value ==> b.creditCard == 0.0
    ensures res.Success? && Truthy(mapping.linepay).None? ==> forall b :: b in res.value ==> b.linepay == 0.0
  {
    LoadBillRows(ws, mapping.(creditCard := Truthy(mapping.creditCard), linepay := Truthy(mapping.linepay)))
  }

  /** `load_hotcake_bills_xlsx_with_mapping`: both named sheets must exist
      (the service sheet is checked first); each loads with the same
      mapping. */
  function LoadBillsWithMapping(wb: Workbook, serviceSheet: string, topupSheet: string, mapping: BillColumns): (res: Result<HotcakeBills, LoadError>)
    requires wb.WellFormed()
    ensures serviceSheet !in wb.sheetNames ==> res == Failure(SheetNotFound(serviceSheet))
    ensures serviceSheet in wb.sheetNames && topupSheet !in wb.sheetNames ==> res == Failure(SheetNotFound(topupSheet))
    ensures res.Failure? && res.error.SheetNotFound? ==> serviceSheet !in wb.sheetNames || topupSheet !in wb.sheetNames
    ensures res.Success? ==>
              && Success(res.value.service) == LoadBillSheetWithMapping(wb.sheets[serviceSheet], mapping)
              && Success(res.value.topup) == LoadBillSheetWithMapping(wb.sheets[topupSheet], mapping)
  {
    if serviceSheet !in wb.sheetNames then Failure(SheetNotFound(serviceSheet))
    else if topupSheet !in wb.sheetNames then Failure(SheetNotFound(topupSheet))
    else
      var service := LoadBillSheetWithMapping(wb.sheets[serviceSheet], mapping);
      if service.Failure? then Failure(service.error)
      else
        var topup := LoadBillSheetWithMapping(wb.sheets[topupSheet], mapping);
        if topup.Failure? then Failure(topup.error)
        else Success(HotcakeBills(service.value, topup.value))
  }

  const ServiceSheetName := "服務"
  const TopupSheetName := "儲值金"

  /** `load_hotcake_bills_xlsx`: the service and stored-value sheets must
      both exist (service checked first); each loads by its own header. */
  function LoadBills(wb: Workbook): (res: Result<HotcakeBills, LoadError>)
    requires wb.WellFormed()
    ensures ServiceSheetName !in wb.sheetNames ==> res == Failure(SheetNotFound(ServiceSheetName))
    ensures ServiceSheetName in wb.sheetNames && TopupSheetName !in wb.sheetNames ==> res == Failure(SheetNotFound(TopupSheetName))
    ensures res.Failure? && res.error.SheetNotFound? ==>
              ServiceSheetName !in wb.sheetNames || TopupSheetName !in wb.sheetNames
    ensures res.Success? ==>
              && Success(res.value.service) == LoadBillSheet(wb.sheets[ServiceSheetName])
              && Success(res.value.topup) == LoadBillSheet(wb.sheets[TopupSheetName])
  {
    if ServiceSheetName !in wb.sheetNames then Failure(SheetNotFound(ServiceSheetName))
    else if TopupSheetName !in wb.sheetNames then Failure(SheetNotFound(TopupSheetName))
    else
      match LoadBillSheet(wb.sheets[ServiceSheetName])
      case Failure(e) => Failure(e)
      case Success(service) =>
        match LoadBillSheet(wb.sheets[TopupSheetName])
        case Failure(e) => Failure(e)
        case Success(topup) => Success(HotcakeBills(service, topup))
  }

  // ---------------------------------------------------------------------
  // POS order history

  /** Column numbers of the POS order fields. */
  datatype PosColumns = PosColumns(
    productName: int, createdTime: int, terminalName: int, orderAmount: int,
    cashPaid: int, payStatus: int, orderStatus: int, payMethod: int)

  /** A row the POS loop does not skip: a product name and a parsable
      creation time. */
  predicate PosRowKept(ws: Sheet, cols: PosColumns, r: int)
  {
    TextAt(ws, r, cols.productName) != "" && TimeAt(ws, r, cols.createdTime).Some?
  }

  predicate PosAmountsUnparsable(ws: Sheet, cols: PosColumns, r: int)
  {
    Unparsable(ws, r, cols.orderAmount) || Unparsable(ws, r, cols.cashPaid)
  }

  /** One iteration of either POS loop. */
  function ParsePosRow(ws: Sheet, cols: PosColumns, r: int): (out: RowOutcome<PosRow>)
    ensures out.Skip? <==> !PosRowKept(ws, cols, r)
    ensures out.Fail? <==> PosRowKept(ws, cols, r) && PosAmountsUnparsable(ws, cols, r)
    ensures out.Fail? ==> out.error.NotANumber?
    ensures out.Emit? ==>
              && out.row.productName == TextAt(ws, r, cols.productName)
              && Some(out.row.createdTime) == TimeAt(ws, r, cols.createdTime)
              && Some(out.row.cashPaid) == AmountAt(ws, r, cols.cashPaid)
              && out.row.terminalName == TextAt(ws, r, cols.terminalName)
              && Some(out.row.orderAmount) == AmountAt(ws, r, cols.orderAmount)
              && out.row.payStatus == TextAt(ws, r, cols.payStatus)
              && out.row.orderStatus == TextAt(ws, r, cols.orderStatus)
              && out.row.payMethod == TextAt(ws, r, cols.payMethod)
  {
    var product := TextAt(ws, r, cols.productName);
    if product == "" then Skip
    else match TimeAt(ws, r, cols.createdTime)
      case None => Skip
      case Some(created) =>
        match Amount(ws, r, cols.orderAmount)
        case Failure(e) => Fail(e)
        case Success(amount) =>
          match Amount(ws, r, cols.cashPaid)
          case Failure(e) => Fail(e)
          case Success(cash) =>
            Emit(PosRow(
              productName := product,
              createdTime := created,
              terminalName := TextAt(ws, r, cols.terminalName),
              orderAmount := amount,
              cashPaid := cash,
              payStatus := TextAt(ws, r, cols.payStatus),
              orderStatus := TextAt(ws, r, cols.orderStatus),
              payMethod := TextAt(ws, r, cols.payMethod)))
  }

  function PosRowParser(ws: Sheet, cols: PosColumns): int -> RowOutcome<PosRow>
  {
    (r: int) => ParsePosRow(ws, cols, r)
  }

  /** The POS loop over the rows below the header row: it fails exactly
      when a kept row has an unparsable amount; otherwise every record
      comes from a kept row and every kept row gives one. */
  function LoadPosRows(ws: Sheet, headerRow: int, cols: PosColumns): (res: Result<seq<PosRow>, LoadError>)
    ensures res.Failure? <==>
              exists r :: headerRow < r <= MaxRow(ws) && PosRowKept(ws, cols, r) && PosAmountsUnparsable(ws, cols, r)
    ensures res.Failure? ==> res.error.NotANumber?
    ensures res.Success? ==>
              forall p :: p in res.value ==>
                exists r :: && headerRow < r <= MaxRow(ws) && PosRowKept(ws, cols, r)
                            && p.productName == TextAt(ws, r, cols.productName)
                            && Some(p.createdTime) == TimeAt(ws, r, cols.createdTime)
    ensures res.Success? ==>
              forall r :: headerRow < r <= MaxRow(ws) && PosRowKept(ws, cols, r) ==>
                exists p :: p in res.value && p.productName == TextAt(ws, r, cols.productName)
  {
    var res := LoadRows(headerRow + 1, MaxRow(ws), PosRowParser(ws, cols));
    PosLoadFailure(ws, headerRow, cols, res);
    if res.Success? then
      PosFromKeptRows(ws, headerRow, cols, res);
      res
    else res
  }

  lemma PosLoadFailure(ws: Sheet, headerRow: int, cols: PosColumns, res: Result<seq<PosRow>, LoadError>)
    requires res == LoadRows(headerRow + 1, MaxRow(ws), PosRowParser(ws, cols))
    ensures res.Failure? <==>
              exists r :: headerRow < r <= MaxRow(ws) && PosRowKept(ws, cols, r) && PosAmountsUnparsable(ws, cols, r)
    ensures res.Failure? ==> res.error.NotANumber?
  {
    var parse := PosRowParser(ws, cols);
    if res.Failure? {
      var r :| headerRow + 1 <= r <= MaxRow(ws) && parse(r) == Fail(res.error);
      assert parse(r) == ParsePosRow(ws, cols, r);
    } else {
      forall r | headerRow < r <= MaxRow(ws)
        ensures !(PosRowKept(ws, cols, r) && PosAmountsUnparsable(ws, cols, r))
      {
        assert parse(r) == ParsePosRow(ws, cols, r);
        assert !parse(r).Fail?;
      }
    }
  }

  lemma PosFromKeptRows(ws: Sheet, headerRow: int, cols: PosColumns, res: Result<seq<PosRow>, LoadError>)
    requires res == LoadRows(headerRow + 1, MaxRow(ws), PosRowParser(ws, cols))
    requires res.Success?
    ensures forall p :: p in res.value ==>
              exists r :: && headerRow < r <= MaxRow(ws) && PosRowKept(ws, cols, r)
                          && p.productName == TextAt(ws, r, cols.productName)
                          && Some(p.createdTime) == TimeAt(ws, r, cols.createdTime)
    ensures forall r :: headerRow < r <= MaxRow(ws) && PosRowKept(ws, cols, r) ==>
              exists p :: p in res.value && p.productName == TextAt(ws, r, cols.productName)
  {
    var parse := PosRowParser(ws, cols);
    forall p | p in res.value
      ensures exists r :: && headerRow < r <= MaxRow(ws) && PosRowKept(ws, cols, r)
                          && p.productName == TextAt(ws, r, cols.productName)
                          && Some(p.createdTime) == TimeAt(ws, r, cols.createdTime)
    {
      var r :| headerRow + 1 <= r <= MaxRow(ws) && parse(r) == Emit(p);
      assert parse(r) == ParsePosRow(ws, cols, r);
    }
    forall r | headerRow < r <= MaxRow(ws) && PosRowKept(ws, cols, r)
      ensures exists p :: p in res.value && p.productName == TextAt(ws, r, cols.productName)
    {
      assert parse(r) == ParsePosRow(ws, cols, r);
      assert parse(r).row in res.value;
    }
  }

  /** `load_pos_history_orders_xlsx_with_mapping`: the caller's columns on
      the chosen sheet, data from the row after the caller's header row. */
  function LoadPosWithMapping(wb: Workbook, sheetName: Option<string>, headerRow: int, cols: PosColumns): (res: Result<seq<PosRow>, LoadError>)
    requires wb.WellFormed()
    ensures res.Failure? ==> res.error.NotANumber?
    ensures res.Success? ==>
              forall p :: p in res.value ==>
                exists r :: && headerRow < r <= MaxRow(ChosenSheet(wb, sheetName))
                            && p.productName == TextAt(ChosenSheet(wb, sheetName), r, cols.productName)
                            && p.productName != ""
  {
    LoadPosRows(ChosenSheet(wb, sheetName), headerRow, cols)
  }

  /** The POS export puts summaries above its header, on row 3. */
  const PosHeaderRow := 3

  /** The POS fields' column groups, in the order their absence is
      reported. */
  const PosGroups: ColumnGroups := [
    ("商品名稱", ["商品名稱", "品項", "項目"]),
    ("建立時間", ["建立時間", "建立日期時間", "時間"]),
    ("機台名稱", ["機台名稱", "門市", "店別"]),
    ("訂單金額", ["訂單金額", "應收金額", "金額"]),
    ("現金支付", ["現金支付", "現金"]),
    ("付款狀態", ["付款狀態", "支付狀態"]),
    ("訂單狀態", ["訂單狀態", "狀態"]),
    ("付款方式", ["付款方式", "支付方式"])
  ]

  function PosColumnsOf(header: seq<CellValue>): (res: Result<PosColumns, LoadError>)
    ensures res.Success? <==> forall i :: 0 <= i < |PosGroups| ==> HasColumn(header, PosGroups[i].1)
    ensures res.Failure? ==>
              && res.error.MissingRequiredColumns?
              && forall n :: n in res.error.names <==>
                   exists i :: 0 <= i < |PosGroups| && PosGroups[i].0 == n && !HasColumn(header, PosGroups[i].1)
    ensures res.Failure? ==> res.error.names == MissingColumns(Resolve(header, PosGroups))
    ensures res.Success? ==> ColumnMatches(header, PosGroups[4].1, res.value.cashPaid)
  {
    var required := RequireColumns(header, PosGroups);
    if required.Failure? then Failure(required.error)
    else
      var cs := required.value;
      Success(PosColumns(cs[0], cs[1], cs[2], cs[3], cs[4], cs[5], cs[6], cs[7]))
  }

  /** `load_pos_history_orders_xlsx`: the first sheet, header on row 3,
      data from row 4. */
  function LoadPos(wb: Workbook): (res: Result<seq<PosRow>, LoadError>)
    requires wb.WellFormed()
    ensures (res.Failure? && res.error.MissingRequiredColumns?) <==>
              exists i :: 0 <= i < |PosGroups| &&
                !HasColumn(HeaderRow(wb.FirstSheet(), PosHeaderRow, MaxColumn(wb.FirstSheet())), PosGroups[i].1)
    ensures res.Success? ==> forall p :: p in res.value ==> p.productName != ""
    ensures res.Success? && MaxRow(wb.FirstSheet()) <= PosHeaderRow ==> res.value == []
  {
    var ws := wb.FirstSheet();
    match PosColumnsOf(HeaderRow(ws, PosHeaderRow, MaxColumn(ws)))
    case Failure(e) => Failure(e)
    case Success(cols) => LoadPosRows(ws, PosHeaderRow, cols)
  }

  // ---------------------------------------------------------------------
  // Card-machine transactions

  /** Column numbers of the card-machine fields. */
  datatype CardColumns = CardColumns(
    orderId: int, store: int, deviceName: int, amount: int, paidAmount: int,
    transactionTime: int, payMethod: int)

  predicate CardAmountsUnparsable(ws: Sheet, cols: CardColumns, r: int)
  {
    Unparsable(ws, r, cols.amount) || Unparsable(ws, r, cols.paidAmount)
  }

  /** A row the card loop emits: an order id, both amounts parsable, and a
      parsable transaction time. */
  predicate CardRowKept(ws: Sheet, cols: CardColumns, r: int)
  {
    && TextAt(ws, r, cols.orderId) != ""
    && !CardAmountsUnparsable(ws, cols, r)
    && TimeAt(ws, r, cols.transactionTime).Some?
  }

  /** One iteration of the card loop. Unlike the other loops, the amounts
      are read BEFORE the time is checked, so a row with an order id and a
      bad amount raises even when its time is unparsable. */
  function ParseCardRow(ws: Sheet, cols: CardColumns, r: int): (out: RowOutcome<CardMachineRow>)
    ensures out.Fail? <==> TextAt(ws, r, cols.orderId) != "" && CardAmountsUnparsable(ws, cols, r)
    ensures out.Emit? <==> CardRowKept(ws, cols, r)
    ensures out.Fail? ==> out.error.NotANumber?
    ensures out.Emit? ==>
              && out.row.orderId == TextAt(ws, r, cols.orderId)
              && Some(out.row.transactionTime) == TimeAt(ws, r, cols.transactionTime)
              && Some(out.row.paidAmount) == AmountAt(ws, r, cols.paidAmount)
              && Some(out.row.amount) == AmountAt(ws, r, cols.amount)
              && out.row.store == TextAt(ws, r, cols.store)
              && out.row.deviceName == TextAt(ws, r, cols.deviceName)
              && out.row.payMethod == TextAt(ws, r, cols.payMethod)
  {
    var orderId := TextAt(ws, r, cols.orderId);
    if orderId == "" then Skip
    else
      match Amount(ws, r, cols.amount)
      case Failure(e) => Fail(e)
      case Success(amount) =>
        match Amount(ws, r, cols.paidAmount)
        case Failure(e) => Fail(e)
        case Success(paid) =>
          match TimeAt(ws, r, cols.transactionTime)
          case None => Skip
          case Some(t) =>
            Emit(CardMachineRow(
              orderId := orderId,
              store := TextAt(ws, r, cols.store),
              deviceName := TextAt(ws, r, cols.deviceName),
              amount := amount,
              paidAmount := paid,
              transactionTime := t,
              payMethod := TextAt(ws, r, cols.payMethod)))
  }

  function CardRowParser(ws: Sheet, cols: CardColumns): int -> RowOutcome<CardMachineRow>
  {
    (r: int) => ParseCardRow(ws, cols, r)
  }

  /** The card loop below the header row: it fails exactly when a row with
      an order id has an unparsable amount, whatever its time; otherwise
      the records are exactly the kept rows'. */
  function LoadCardRows(ws: Sheet, headerRow: int, cols: CardColumns): (res: Result<seq<CardMachineRow>, LoadError>)
    ensures res.Failure? <==>
              exists r :: headerRow < r <= MaxRow(ws) && TextAt(ws, r, cols.orderId) != "" && CardAmountsUnparsable(ws, cols, r)
    ensures res.Failure? ==> res.error.NotANumber?
    ensures res.Success? ==>
              forall c :: c in res.value ==>
                exists r :: && headerRow < r <= MaxRow(ws) && CardRowKept(ws, cols, r)
                            && c.orderId == TextAt(ws, r, cols.orderId)
    ensures res.Success? ==>
              forall r :: headerRow < r <= MaxRow(ws) && CardRowKept(ws, cols, r) ==>
                exists c :: c in res.value && c.orderId == TextAt(ws, r, cols.orderId)
  {
    var res := LoadRows(headerRow + 1, MaxRow(ws), CardRowParser(ws, cols));
    CardLoadFailure(ws, headerRow, cols, res);
    if res.Success? then
      CardsFromKeptRows(ws, headerRow, cols, res);
      res
    else res
  }

  lemma CardLoadFailure(ws: Sheet, headerRow: int, cols: CardColumns, res: Result<seq<CardMachineRow>, LoadError>)
    requires res == LoadRows(headerRow + 1, MaxRow(ws), CardRowParser(ws, cols))
    ensures res.Failure? <==>
              exists r :: headerRow < r <= MaxRow(ws) && TextAt(ws, r, cols.orderId) != "" && CardAmountsUnparsable(ws, cols, r)
    ensures res.Failure? ==> res.error.NotANumber?
  {
    var parse := CardRowParser(ws, cols);
    if res.Failure? {
      var r :| headerRow + 1 <= r <= MaxRow(ws) && parse(r) == Fail(res.error);
      assert parse(r) == ParseCardRow(ws, cols, r);
    } else {
      forall r | headerRow < r <= MaxRow(ws)
        ensures !(TextAt(ws, r, cols.orderId) != "" && CardAmountsUnparsable(ws, cols, r))
      {
        assert parse(r) == ParseCardRow(ws, cols, r);
        assert !parse(r).Fail?;
      }
    }
  }

  lemma CardsFromKeptRows(ws: Sheet, headerRow: int, cols: CardColumns, res: Result<seq<CardMachineRow>, LoadError>)
    requires res == LoadRows(headerRow + 1, MaxRow(ws), CardRowParser(ws, cols))
    requires res.Success?
    ensures forall c :: c in res.value ==>
              exists r :: && headerRow < r <= MaxRow(ws) && CardRowKept(ws, cols, r)
                          && c.orderId == TextAt(ws, r, cols.orderId)
    ensures forall r :: headerRow < r <= MaxRow(ws) && CardRowKept(ws, cols, r) ==>
              exists c :: c in res.value && c.orderId == TextAt(ws, r, cols.orderId)
  {
    var parse := CardRowParser(ws, cols);
    forall c | c in res.value
      ensures exists r :: && headerRow < r <= MaxRow(ws) && CardRowKept(ws, cols, r)
                          && c.orderId == TextAt(ws, r, cols.orderId)
    {
      var r :| headerRow + 1 <= r <= MaxRow(ws) && parse(r) == Emit(c);
      assert parse(r) == ParseCardRow(ws, cols, r);
    }
    forall r | headerRow < r <= MaxRow(ws) && CardRowKept(ws, cols, r)
      ensures exists c :: c in res.value && c.orderId == TextAt(ws, r, cols.orderId)
    {
      assert parse(r) == ParseCardRow(ws, cols, r);
      assert parse(r).row in res.value;
    }
  }

  /** The card export's header is on row 2. */
  const CardHeaderRow := 2

  /** The card-machine fields' column groups, in the order their absence is
      reported. */
  const CardGroups: ColumnGroups := [
    ("訂單編號", ["訂單編號"]),
    ("店鋪名稱", ["店鋪名稱", "分店", "門市", "店別"]),
    ("設備名稱", ["設備名稱", "機台名稱"]),
    ("交易金額", ["交易金額", "金額"]),
    ("實付金額", ["實付金額"]),
    ("交易時間", ["交易時間", "時間"]),
    ("支付方式", ["支付方式", "付款方式"])
  ]

  function CardColumnsOf(header: seq<CellValue>): (res: Result<CardColumns, LoadError>)
    ensures res.Success? <==> forall i :: 0 <= i < |CardGroups| ==> HasColumn(header, CardGroups[i].1)
    ensures res.Failure? ==>
              && res.error.MissingRequiredColumns?
              && forall n :: n in res.error.names <==>
                   exists i :: 0 <= i < |CardGroups| && CardGroups[i].0 == n && !HasColumn(header, CardGroups[i].1)
    ensures res.Failure? ==> res.error.names == MissingColumns(Resolve(header, CardGroups))
    ensures res.Success? ==> ColumnMatches(header, CardGroups[0].1, res.value.orderId)
  {
    var required := RequireColumns(header, CardGroups);
    if required.Failure? then Failure(required.error)
    else
      var cs := required.value;
      Success(CardColumns(cs[0], cs[1], cs[2], cs[3], cs[4], cs[5], cs[6]))
  }

  /** `load_card_machine_xlsx`: the first sheet, header on row 2, data from
      row 3. */
  function LoadCards(wb: Workbook): (res: Result<seq<CardMachineRow>, LoadError>)
    requires wb.WellFormed()
    ensures (res.Failure? && res.error.MissingRequiredColumns?) <==>
              exists i :: 0 <= i < |CardGroups| &&
                !HasColumn(HeaderRow(wb.FirstSheet(), CardHeaderRow, MaxColumn(wb.FirstSheet())), CardGroups[i].1)
    ensures res.Success? ==> forall c :: c in res.value ==> c.orderId != ""
    ensures res.Success? && MaxRow(wb.FirstSheet()) <= CardHeaderRow ==> res.value == []
  {
    var ws := wb.FirstSheet();
    match CardColumnsOf(HeaderRow(ws, CardHeaderRow, MaxColumn(ws)))
    case Failure(e) => Failure(e)
    case Success(cols) => LoadCardRows(ws, CardHeaderRow, cols)
  }
}
