/** Worked runs of the reconciliation engine on small inputs: one booking
    with its bill and the matching POS sale, and one checked-in booking that
    was never billed. Times are minutes on one day's time line. */
module Scenarios {
  import opened Wrappers
  import opened Seqs
  import opened LexOrder
  import opened Models
  import opened Logic

  const Day := Period(0, 1439)

  /** Amy's 60-minute booking at 10:00, billed as B1. */
  const AmyBooking := OrdersRow(
    orderId := "O1", orderCode := "", serviceStart := 600, store := "Main",
    designer := "Amy", service := "剪髮 60分鐘", orderStatus := CheckedIn,
    checkinTime := Some(600), billId := "B1", billAmount := 1000.0,
    memberName := "", phone := "")

  /** Bill B1, settled at 10:30, all cash. */
  const AmyBill := BillRow(
    billId := "B1", settlementTime := 630, attributedDate := 0, store := "Main",
    designer := "Amy", item := "剪髮", cash := 1000.0, creditCard := 0.0,
    linepay := 0.0, billAmount := 1000.0)

  /** The POS sale rung up at 10:05. */
  const AmySale := PosRow(
    productName := "Amy,剪髮 60分鐘", createdTime := 605, terminalName := "T1",
    orderAmount := 1000.0, cashPaid := 1000.0, payStatus := "", orderStatus := "",
    payMethod := "現金")

  const AmyBills := BillTables(BillTable(["B1"], map["B1" := AmyBill]), BillTable([], map[]))

  /** The booking is billed, so nothing is missing; its bill's cash is the
      service cash, the sale's cash the POS total, and they agree. */
  lemma {:induction false} AmyReconciles()
    ensures var r := BuildCashRecon(Day, "Main", [AmyBooking], AmyBills, Some([AmySale]));
            && r.missingBills == []
            && r.totals.hotcakeServiceCash == 1000.0
            && r.totals.hotcakeTopupCash == 0.0
            && r.totals.posCashTotal == Some(1000.0)
            && r.totals.posCashDiff == Some(0.0)
  {
    var orders := [AmyBooking];
    var scoped := ScopeOrders(orders, "Main", Day);
    ScopeOrdersKeepsOrder([], AmyBooking, [], "Main", Day);
    assert [] + [AmyBooking] + [] == orders;
    assert scoped == [AmyBooking];
    MissingBillsSingleton(AmyBooking);
    var ids := BillIdsInScope(scoped);
    assert "B1" in ids;
    SortedUnique(ids, ["B1"]);
    assert ids == ["B1"];
    var service := ServiceRows(ids, AmyBills.service);
    assert service == [ToReportBillRow(AmyBill)];
    assert service[1..] == [];
    assert Sum(service[1..], RowCash) == 0.0;
    assert RowCash(service[0]) == 1000.0;
    assert CashSum(service) == 1000.0;
    var topup := TopUpRows(AmyBills.topup, "Main", Day);
    assert topup == [];
    PosCashTotalIsInPeriodSum([AmySale], Day);
    assert PosCashTotal([AmySale], Day) == 1000.0;
  }

  /** A checked-in booking without bill id or amount. */
  const Unbilled := AmyBooking.(orderId := "O2", billId := "", billAmount := 0.0)

  /** It is reported exactly once, and with no bill ids in scope there are
      no service rows. */
  lemma {:induction false} UnbilledIsReportedOnce()
    ensures var r := BuildCashRecon(Day, "Main", [Unbilled], AmyBills, None);
            && r.missingBills == [ToMissingBillRow(Unbilled)]
            && r.serviceBillRows == []
            && r.totals.posCashTotal.None?
  {
    var scoped := ScopeOrders([Unbilled], "Main", Day);
    ScopeOrdersKeepsOrder([], Unbilled, [], "Main", Day);
    assert [] + [Unbilled] + [] == [Unbilled];
    assert scoped == [Unbilled];
    MissingBillsSingleton(Unbilled);
    var ids := BillIdsInScope(scoped);
    assert forall id :: id !in ids;
    HeadIsMember(ids);
  }

  /** Bookings exactly at either end of the period are in scope; one a
      minute outside is not. */
  lemma {:induction false} PeriodBoundsAreInclusive(o: OrdersRow, period: Period)
    requires o.store == "Main" && period.start <= period.end
    ensures ScopeOrders([o.(serviceStart := period.start)], "Main", period) == [o.(serviceStart := period.start)]
    ensures ScopeOrders([o.(serviceStart := period.end)], "Main", period) == [o.(serviceStart := period.end)]
    ensures ScopeOrders([o.(serviceStart := period.end + 1)], "Main", period) == []
    ensures ScopeOrders([o.(serviceStart := period.start - 1)], "Main", period) == []
  {
    var ts := [period.start, period.end, period.end + 1, period.start - 1];
    forall t | t in ts
      ensures ScopeOrders([o.(serviceStart := t)], "Main", period)
           == if InPeriod(t, period) then [o.(serviceStart := t)] else []
    {
      var x := o.(serviceStart := t);
      ScopeOrdersKeepsOrder([], x, [], "Main", period);
      assert [] + [x] + [] == [x];
    }
  }
}
