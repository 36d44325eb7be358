/** The record types of the reconciliation (cash_recon/models.py and the row
    classes of cash_recon/parse.py). Timestamps are integers on one time
    line (only `<=` is used on them); money is `real`. */
module Models {
  import opened Wrappers

  /** A reconciliation window; both bounds are inclusive. */
  datatype Period = Period(start: int, end: int)

  datatype CashTotals = CashTotals(
    hotcakeServiceCash: real,
    hotcakeTopupCash: real,
    hotcakeCashTotal: real,
    posCashTotal: Option<real>,
    posCashDiff: Option<real>)

  /** A checked-in booking that was never billed. */
  datatype MissingBillRow = MissingBillRow(
    store: string,
    orderId: string,
    orderCode: string,
    serviceStart: int,
    designer: string,
    service: string,
    orderStatus: string,
    checkinTime: Option<int>,
    memberName: string,
    phone: string)

  /** A bill as the report lists it. The source declares `ServiceBillRow`
      and `TopUpBillRow` as two records with the same eight fields; both are
      this one record here. */
  datatype ReportBillRow = ReportBillRow(
    store: string,
    billId: string,
    settlementTime: int,
    attributedDate: int,
    designer: string,
    item: string,
    cash: real,
    billAmount: real)

  type ServiceBillRow = ReportBillRow
  type TopUpBillRow = ReportBillRow

  /** A booking from the Hotcake orders report. */
  datatype OrdersRow = OrdersRow(
    orderId: string,
    orderCode: string,
    serviceStart: int,
    store: string,
    designer: string,
    service: string,
    orderStatus: string,
    checkinTime: Option<int>,
    billId: string,
    billAmount: real,
    memberName: string,
    phone: string)

  /** A row of a Hotcake bills sheet (service or stored-value top-up). */
  datatype BillRow = BillRow(
    billId: string,
    settlementTime: int,
    attributedDate: int,
    store: string,
    designer: string,
    item: string,
    cash: real,
    creditCard: real,
    linepay: real,
    billAmount: real)

  /** The two bill sheets as the loaders return them: lists of rows. */
  datatype HotcakeBills = HotcakeBills(service: seq<BillRow>, topup: seq<BillRow>)

  /** A row of the POS terminal's order history. */
  datatype PosRow = PosRow(
    productName: string,
    createdTime: int,
    terminalName: string,
    orderAmount: real,
    cashPaid: real,
    payStatus: string,
    orderStatus: string,
    payMethod: string)

  /** A row of the card-machine transaction export. */
  datatype CardMachineRow = CardMachineRow(
    orderId: string,
    store: string,
    deviceName: string,
    amount: real,
    paidAmount: real,
    transactionTime: int,
    payMethod: string)

  /** A bills sheet as the reconciliation engine reads it: a Python dict
      from bill id to row, with `ids` its keys in insertion order. The
      engine calls `.get(bill_id)` and `.values()` on what `HotcakeBills`
      declares to be lists; this is the container those calls need. */
  datatype BillTable = BillTable(ids: seq<string>, byId: map<string, BillRow>)
  {
    /** Keys are distinct and are exactly the map's keys: what `.values()`
        needs. */
    ghost predicate Keyed()
    {
      && (forall i, j :: 0 <= i < j < |ids| ==> ids[i] != ids[j])
      && (forall k :: k in byId <==> k in ids)
    }

    /** Keyed, and each row is filed under its own bill id: what a lookup by
        bill id needs to find that bill. */
    ghost predicate Valid()
    {
      && Keyed()
      && (forall k :: k in byId ==> byId[k].billId == k)
    }

    /** `.get(bill_id)` */
    function Get(id: string): Option<BillRow>
    {
      if id in byId then Some(byId[id]) else None
    }

    /** `.values()`, in insertion order. */
    function Values(): (vs: seq<BillRow>)
      requires Keyed()
      ensures |vs| == |ids|
      ensures forall i :: 0 <= i < |ids| ==> vs[i] == byId[ids[i]]
    {
      seq(|ids|, i requires 0 <= i < |ids| => byId[ids[i]])
    }
  }

  /** The engine's view of both bills sheets. */
  datatype BillTables = BillTables(service: BillTable, topup: BillTable)
}
