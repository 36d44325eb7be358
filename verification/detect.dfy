/** The file-kind classifier of cash_recon/detect.py over an abstract
    workbook: five header rules tried in a fixed order, the first that holds
    deciding the kind and the sheet to read. */
module Detect {
  import opened Wrappers
  import opened Sheets
  import opened Headers

  datatype Kind = HotcakeBills | HotcakeOrders | PosOrders | Unknown

  datatype Detection = Detection(kind: Kind, reason: string, sheet: Option<string>)

  const ServiceSheet := "服務"
  const TopupSheet := "儲值金"
  const OrdersSheet := "訂單報表"
  const PosTitle := "歷史訂單"

  // The candidate header names each rule looks for.
  const BillIdNames: seq<string> := ["帳單編號"]
  const SettlementNames: seq<string> := ["結帳操作時間", "結帳時間"]
  const OrderIdNames: seq<string> := ["訂單編號"]
  const ServiceStartNames: seq<string> := ["日期時間", "服務日期時間", "服務開始時間", "開始時間"]
  /** The fallback orders rule accepts only two of the four start-time names. */
  const FallbackStartNames: seq<string> := ["日期時間", "服務開始時間"]
  const ProductNames: seq<string> := ["商品名稱"]
  const CreatedNames: seq<string> := ["建立時間"]
  const CashPaidNames: seq<string> := ["現金支付"]

  /** `[ws.cell(r, c).value for c in range(1, min(ws.max_column, limit) + 1)]` */
  function HeaderUpTo(ws: Sheet, r: int, limit: nat): (h: seq<CellValue>)
    ensures |h| == Min(MaxColumn(ws), limit)
    ensures forall c :: 1 <= c <= |h| ==> h[c - 1] == CellAt(ws, r, c).value
  {
    HeaderRow(ws, r, Min(MaxColumn(ws), limit))
  }

  /** `t` occurs in `s` as a contiguous run (Python's `t in s`). */
  predicate Contains(s: string, t: string)
    decreases |s|
  {
    |t| <= |s| && (s[..|t|] == t || (|s| > 0 && Contains(s[1..], t)))
  }

  /** `t` occurs in `s` starting at index `i`. */
  ghost predicate OccursAt(s: string, t: string, i: int)
  {
    0 <= i && i + |t| <= |s| && s[i..i + |t|] == t
  }

  /** `Contains` holds exactly when `t` occurs somewhere in `s`. */
  lemma {:induction false} ContainsAt(s: string, t: string)
    ensures Contains(s, t) <==> exists i :: OccursAt(s, t, i)
    decreases |s|
  {
    if |t| <= |s| && |s| > 0 {
      ContainsAt(s[1..], t);
      if exists i :: OccursAt(s, t, i) {
        var i :| OccursAt(s, t, i);
        if i > 0 {
          assert s[1..][i - 1..i - 1 + |t|] == t;
          assert OccursAt(s[1..], t, i - 1);
        }
      }
      if Contains(s[1..], t) {
        var i :| OccursAt(s[1..], t, i);
        assert s[i + 1..i + 1 + |t|] == t;
        assert OccursAt(s, t, i + 1);
      }
      if s[..|t|] == t {
        assert OccursAt(s, t, 0);
      }
    } else if |t| <= |s| {
      assert OccursAt(s, t, 0) <==> s[..|t|] == t;
    }
  }

  /** Bills rule: both bill sheets, and the service sheet's first 80 header
      cells name a bill id and a settlement time. */
  predicate BillsRule(wb: Workbook)
    requires wb.WellFormed()
  {
    && ServiceSheet in wb.sheetNames && TopupSheet in wb.sheetNames
    && var h := HeaderUpTo(wb.sheets[ServiceSheet], 1, 80);
       Column(h, BillIdNames).Some? && Column(h, SettlementNames).Some?
  }

  /** Both bill sheets exist, and among the first 80 cells of the service
      sheet's row 1 one normalises to a bill-id name and one to a
      settlement-time name. */
  lemma BillsRuleMeaning(wb: Workbook)
    requires wb.WellFormed()
    ensures BillsRule(wb) <==>
              && ServiceSheet in wb.sheetNames && TopupSheet in wb.sheetNames
              && NamesOne(HeaderUpTo(wb.sheets[ServiceSheet], 1, 80), BillIdNames)
              && NamesOne(HeaderUpTo(wb.sheets[ServiceSheet], 1, 80), SettlementNames)
  {
    if ServiceSheet in wb.sheetNames {
      var h := HeaderUpTo(wb.sheets[ServiceSheet], 1, 80);
      HasColumnNamesOne(h, BillIdNames);
      HasColumnNamesOne(h, SettlementNames);
    }
  }

  /** Orders-report rule: the orders sheet, whose first 120 header cells
      name an order id and a service start. */
  predicate OrdersReportRule(wb: Workbook)
    requires wb.WellFormed()
  {
    && OrdersSheet in wb.sheetNames
    && var h := HeaderUpTo(wb.sheets[OrdersSheet], 1, 120);
       Column(h, OrderIdNames).Some? && Column(h, ServiceStartNames).Some?
  }

  /** The orders sheet exists, and among the first 120 cells of its row 1
      one normalises to an order-id name and one to a start-time name. */
  lemma OrdersReportRuleMeaning(wb: Workbook)
    requires wb.WellFormed()
    ensures OrdersReportRule(wb) <==>
              && OrdersSheet in wb.sheetNames
              && NamesOne(HeaderUpTo(wb.sheets[OrdersSheet], 1, 120), OrderIdNames)
              && NamesOne(HeaderUpTo(wb.sheets[OrdersSheet], 1, 120), ServiceStartNames)
  {
    if OrdersSheet in wb.sheetNames {
      var h := HeaderUpTo(wb.sheets[OrdersSheet], 1, 120);
      HasColumnNamesOne(h, OrderIdNames);
      HasColumnNamesOne(h, ServiceStartNames);
    }
  }

  /** The three POS columns on row 3 of the first sheet. */
  predicate PosHeader(wb: Workbook)
    requires wb.WellFormed()
  {
    var h := HeaderUpTo(wb.FirstSheet(), 3, 120);
    Column(h, ProductNames).Some? && Column(h, CreatedNames).Some? && Column(h, CashPaidNames).Some?
  }

  /** Among the first 120 cells of row 3 of the first sheet, one normalises
      to each of the product, creation-time and cash-paid names. */
  lemma PosHeaderMeaning(wb: Workbook)
    requires wb.WellFormed()
    ensures PosHeader(wb) <==>
              && NamesOne(HeaderUpTo(wb.FirstSheet(), 3, 120), ProductNames)
              && NamesOne(HeaderUpTo(wb.FirstSheet(), 3, 120), CreatedNames)
              && NamesOne(HeaderUpTo(wb.FirstSheet(), 3, 120), CashPaidNames)
  {
    var h := HeaderUpTo(wb.FirstSheet(), 3, 120);
    HasColumnNamesOne(h, ProductNames);
    HasColumnNamesOne(h, CreatedNames);
    HasColumnNamesOne(h, CashPaidNames);
  }

  /** POS-title rule: cell A1 of the first sheet is text mentioning the
      order history, and row 3 carries the POS columns. */
  predicate PosTitleRule(wb: Workbook)
    requires wb.WellFormed()
  {
    && CellAt(wb.FirstSheet(), 1, 1).value.Str?
    && Contains(CellAt(wb.FirstSheet(), 1, 1).value.s, PosTitle)
    && PosHeader(wb)
  }

  /** Cell A1 of the first sheet is text in which the order-history title
      occurs at some position, and the POS header rule holds. */
  lemma PosTitleRuleMeaning(wb: Workbook)
    requires wb.WellFormed()
    ensures PosTitleRule(wb) <==>
              && CellAt(wb.FirstSheet(), 1, 1).value.Str?
              && (exists i :: OccursAt(CellAt(wb.FirstSheet(), 1, 1).value.s, PosTitle, i))
              && PosHeader(wb)
  {
    if CellAt(wb.FirstSheet(), 1, 1).value.Str? {
      ContainsAt(CellAt(wb.FirstSheet(), 1, 1).value.s, PosTitle);
    }
  }

  /** Fallback orders rule: row 1 of the first sheet names an order id and
      one of only two service-start names. */
  predicate OrdersFirstSheetRule(wb: Workbook)
    requires wb.WellFormed()
  {
    var h := HeaderUpTo(wb.FirstSheet(), 1, 120);
    Column(h, OrderIdNames).Some? && Column(h, FallbackStartNames).Some?
  }

  /** Among the first 120 cells of row 1 of the first sheet, one normalises
      to an order-id name and one to one of the two fallback start names. */
  lemma OrdersFirstSheetRuleMeaning(wb: Workbook)
    requires wb.WellFormed()
    ensures OrdersFirstSheetRule(wb) <==>
              && NamesOne(HeaderUpTo(wb.FirstSheet(), 1, 120), OrderIdNames)
              && NamesOne(HeaderUpTo(wb.FirstSheet(), 1, 120), FallbackStartNames)
  {
    var h := HeaderUpTo(wb.FirstSheet(), 1, 120);
    HasColumnNamesOne(h, OrderIdNames);
    HasColumnNamesOne(h, FallbackStartNames);
  }

  /** Which of the five rules hold for a workbook. */
  datatype Verdicts = Verdicts(
    bills: bool, ordersReport: bool, posTitle: bool, ordersFirstSheet: bool, posHeader: bool)

  function VerdictsOf(wb: Workbook): (v: Verdicts)
    requires wb.WellFormed()
  {
    Verdicts(BillsRule(wb), OrdersReportRule(wb), PosTitleRule(wb), OrdersFirstSheetRule(wb), PosHeader(wb))
  }

  const UnknownReason := "無法判斷報表類型（可能是格式更新或非支援報表）"

  /** The if-chain of `detect_xlsx_kind` once the workbook is open: the
      first rule that holds decides; `first` names the first sheet. */
  function Decide(v: Verdicts, first: string): (d: Detection)
    ensures d.kind == HotcakeBills <==> v.bills
    ensures d.kind == Unknown <==> !v.bills && !v.ordersReport && !v.posTitle && !v.ordersFirstSheet && !v.posHeader
    ensures d.kind == Unknown <==> d.sheet.None?
    ensures d.sheet.Some? ==> d.sheet.value == if v.bills then ServiceSheet else if v.ordersReport then OrdersSheet else first
    ensures v.ordersReport && !v.bills ==> d.kind == HotcakeOrders && d.sheet == Some(OrdersSheet)
    ensures v.posTitle && !v.bills && !v.ordersReport ==> d.kind == PosOrders && d.sheet == Some(first)
    ensures v.ordersFirstSheet && !v.bills && !v.ordersReport && !v.posTitle ==>
              d.kind == HotcakeOrders && d.sheet == Some(first)
    ensures v.posHeader && !v.bills && !v.ordersReport && !v.ordersFirstSheet ==> d.kind == PosOrders && d.sheet == Some(first)
  {
    if v.bills then Detection(HotcakeBills, "包含「服務/儲值金」分頁且表頭符合帳單紀錄", Some(ServiceSheet))
    else if v.ordersReport then Detection(HotcakeOrders, "包含「訂單報表」分頁且表頭符合訂單/預約報表", Some(OrdersSheet))
    else if v.posTitle then Detection(PosOrders, "表頭/格式符合收銀機歷史訂單", Some(first))
    else if v.ordersFirstSheet then Detection(HotcakeOrders, "首分頁表頭符合 Hotcake 訂單/預約報表", Some(first))
    else if v.posHeader then Detection(PosOrders, "首分頁第 3 列表頭符合收銀機歷史訂單", Some(first))
    else Detection(Unknown, UnknownReason, None)
  }

  /** The rules in the order they are tried, each with the detection it
      yields. */
  function Rules(v: Verdicts, first: string): seq<(bool, Detection)>
  {
    [ (v.bills, Detection(HotcakeBills, "包含「服務/儲值金」分頁且表頭符合帳單紀錄", Some(ServiceSheet))),
      (v.ordersReport, Detection(HotcakeOrders, "包含「訂單報表」分頁且表頭符合訂單/預約報表", Some(OrdersSheet))),
      (v.posTitle, Detection(PosOrders, "表頭/格式符合收銀機歷史訂單", Some(first))),
      (v.ordersFirstSheet, Detection(HotcakeOrders, "首分頁表頭符合 Hotcake 訂單/預約報表", Some(first))),
      (v.posHeader, Detection(PosOrders, "首分頁第 3 列表頭符合收銀機歷史訂單", Some(first))) ]
  }

  /** The detection of the first rule that holds, if any. */
  function FirstMatch(rules: seq<(bool, Detection)>): (d: Option<Detection>)
    ensures d.None? <==> forall i :: 0 <= i < |rules| ==> !rules[i].0
    ensures d.Some? ==>
              exists i :: 0 <= i < |rules| && rules[i].0 && rules[i].1 == d.value && forall j :: 0 <= j < i ==> !rules[j].0
    decreases |rules|
  {
    if |rules| == 0 then None
    else if rules[0].0 then Some(rules[0].1)
    else
      var d := FirstMatch(rules[1..]);
      assert forall i :: 1 <= i < |rules| ==> rules[i] == rules[1..][i - 1];
      d
  }

  /** The if-chain is the first-matching-rule reading of the rule table. */
  lemma DecideIsFirstMatch(v: Verdicts, first: string)
    ensures Decide(v, first) ==
              match FirstMatch(Rules(v, first))
              case Some(d) => d
              case None => Detection(Unknown, UnknownReason, None)
  {
    var rules := Rules(v, first);
    var m := FirstMatch(rules);
    if v.bills {
      assert m == Some(rules[0].1);
    } else if v.ordersReport {
      assert m == Some(rules[1].1);
    } else if v.posTitle {
      assert m == Some(rules[2].1);
    } else if v.ordersFirstSheet {
      assert m == Some(rules[3].1);
    } else if v.posHeader {
      assert m == Some(rules[4].1);
    } else {
      assert forall i :: 0 <= i < |rules| ==> !rules[i].0;
    }
  }

  /** `detect_xlsx_kind`. The workbook is the outcome of opening the file:
      a failure carries the exception text and classifies as unknown. */
  function DetectKind(source: Result<Workbook, string>): (d: Detection)
    requires source.Success? ==> source.value.WellFormed()
    ensures source.Failure? ==> d.kind == Unknown && d.sheet.None?
    ensures d.sheet.Some? ==> source.Success? && d.sheet.value in source.value.sheetNames
    ensures source.Success? ==> (d.kind == HotcakeBills <==> BillsRule(source.value))
    ensures source.Success? && d.kind == HotcakeBills ==> d.sheet == Some(ServiceSheet)
    ensures source.Success? ==>
              (d.kind == Unknown <==>
                 && !BillsRule(source.value) && !OrdersReportRule(source.value)
                 && !OrdersFirstSheetRule(source.value) && !PosHeader(source.value))
    ensures source.Success? && OrdersReportRule(source.value) && !BillsRule(source.value) ==>
              d.kind == HotcakeOrders && d.sheet == Some(OrdersSheet)
    ensures source.Success? && PosHeader(source.value) && !BillsRule(source.value)
              && !OrdersReportRule(source.value) && !OrdersFirstSheetRule(source.value) ==>
              d.kind == PosOrders && d.sheet == Some(source.value.sheetNames[0])
  {
    match source
    case Failure(e) => Detection(Unknown, "無法讀取 xlsx: " + e, None)
    case Success(wb) =>
      var v := VerdictsOf(wb);
      assert v.bills ==> ServiceSheet in wb.sheetNames;
      assert v.ordersReport ==> OrdersSheet in wb.sheetNames;
      assert v.posTitle ==> v.posHeader;
      Decide(v, wb.sheetNames[0])
  }

  /** The two middle rules of the chain: with neither bill sheets nor an
      orders sheet matching, a POS title selects POS and otherwise the
      fallback orders rule selects orders, both on the first sheet. */
  lemma DetectKindFirstSheetCases(wb: Workbook)
    requires wb.WellFormed()
    ensures PosTitleRule(wb) && !BillsRule(wb) && !OrdersReportRule(wb) ==>
              DetectKind(Success(wb)) == Detection(PosOrders, "表頭/格式符合收銀機歷史訂單", Some(wb.sheetNames[0]))
    ensures OrdersFirstSheetRule(wb) && !BillsRule(wb) && !OrdersReportRule(wb) && !PosTitleRule(wb) ==>
              DetectKind(Success(wb)) == Detection(HotcakeOrders, "首分頁表頭符合 Hotcake 訂單/預約報表", Some(wb.sheetNames[0]))
  {
  }
}
