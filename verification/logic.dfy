/** The reconciliation engine `build_cash_recon` (cash_recon/logic.py): it
    scopes bookings to a store and period, lists checked-in bookings that
    were never billed, selects the service bills those bookings reference
    and the top-up bills settled in the period, and totals the cash,
    optionally against the POS terminal's cash. */
module Logic {
  import opened Wrappers
  import opened Seqs
  import opened LexOrder
  import opened Models

  /** The order status Hotcake gives a checked-in booking. */
  const CheckedIn: string := "已報到"

  /** `_in_period`: both bounds are inclusive. */
  predicate InPeriod(t: int, period: Period)
  {
    period.start <= t <= period.end
  }

  datatype CashReconResult = CashReconResult(
    period: Period,
    store: string,
    missingBills: seq<MissingBillRow>,
    serviceBillRows: seq<ServiceBillRow>,
    topupBillRows: seq<TopUpBillRow>,
    totals: CashTotals)

  // ---------------------------------------------------------------------
  // Scoping

  /** A booking of `store` (exact string equality) starting in `period`. */
  function InScope(store: string, period: Period): OrdersRow -> bool
  {
    (o: OrdersRow) => o.store == store && InPeriod(o.serviceStart, period)
  }

  /** `scoped_orders`: the bookings of the store that start in the period,
      in input order. */
  function ScopeOrders(orders: seq<OrdersRow>, store: string, period: Period): (scoped: seq<OrdersRow>)
    ensures |scoped| <= |orders|
    ensures forall o :: o in scoped <==> o in orders && o.store == store && InPeriod(o.serviceStart, period)
  {
    Filter(orders, InScope(store, period))
  }

  /** Each booking is kept, at its own place, exactly when it is in scope. */
  lemma ScopeOrdersKeepsOrder(a: seq<OrdersRow>, o: OrdersRow, b: seq<OrdersRow>, store: string, period: Period)
    ensures ScopeOrders(a + [o] + b, store, period)
         == ScopeOrders(a, store, period)
          + (if o.store == store && InPeriod(o.serviceStart, period) then [o] else [])
          + ScopeOrders(b, store, period)
  {
    var p := InScope(store, period);
    FilterAppend(a + [o], b, p);
    FilterAppend(a, [o], p);
    FilterSingleton(o, p);
  }

  // ---------------------------------------------------------------------
  // Missing bills

  /** The missing-bill rule: checked in, no bill id, bill amount exactly 0. */
  predicate IsMissingBill(o: OrdersRow)
  {
    o.orderStatus == CheckedIn && o.billId == "" && o.billAmount == 0.0
  }

  /** The booking's fields a missing-bill report row carries. */
  function ToMissingBillRow(o: OrdersRow): MissingBillRow
  {
    MissingBillRow(
      store := o.store,
      orderId := o.orderId,
      orderCode := o.orderCode,
      serviceStart := o.serviceStart,
      designer := o.designer,
      service := o.service,
      orderStatus := o.orderStatus,
      checkinTime := o.checkinTime,
      memberName := o.memberName,
      phone := o.phone)
  }

  /** The missing-bill half of the loop over the scoped bookings. */
  function MissingBills(scoped: seq<OrdersRow>): (rows: seq<MissingBillRow>)
    ensures |rows| <= |scoped|
    ensures forall m :: m in rows ==> exists o :: o in scoped && IsMissingBill(o) && ToMissingBillRow(o) == m
    ensures forall o :: o in scoped && IsMissingBill(o) ==> ToMissingBillRow(o) in rows
  {
    if |scoped| == 0 then []
    else
      var o := scoped[0];
      (if IsMissingBill(o) then [ToMissingBillRow(o)] else []) + MissingBills(scoped[1..])
  }

  /** The loop emits one row per matching booking, in booking order: it is
      "filter by the rule, then project". */
  lemma {:induction false} MissingBillsIsFilterThenProject(scoped: seq<OrdersRow>)
    ensures MissingBills(scoped) == Map(Filter(scoped, IsMissingBill), ToMissingBillRow)
    decreases |scoped|
  {
    if |scoped| > 0 {
      MissingBillsIsFilterThenProject(scoped[1..]);
      var head := if IsMissingBill(scoped[0]) then [scoped[0]] else [];
      MapAppend(head, Filter(scoped[1..], IsMissingBill), ToMissingBillRow);
    }
  }

  lemma {:induction false} MissingBillsAppend(a: seq<OrdersRow>, b: seq<OrdersRow>)
    ensures MissingBills(a + b) == MissingBills(a) + MissingBills(b)
    decreases |a|
  {
    if |a| == 0 {
      assert a + b == b;
    } else {
      assert (a + b)[1..] == a[1..] + b;
      MissingBillsAppend(a[1..], b);
    }
  }

  // ---------------------------------------------------------------------
  // Bill ids of the scoped bookings

  /** The non-empty bill ids of the bookings, in booking order. */
  function NonEmptyBillIds(scoped: seq<OrdersRow>): (ids: seq<string>)
    ensures forall id :: id in ids <==> id != "" && exists o :: o in scoped && o.billId == id
  {
    if |scoped| == 0 then []
    else
      var rest := NonEmptyBillIds(scoped[1..]);
      assert forall o :: o in scoped <==> o == scoped[0] || o in scoped[1..];
      (if scoped[0].billId != "" then [scoped[0].billId] else []) + rest
  }

  /** `sorted(bill_ids_in_scope)`: the set of non-empty bill ids of the
      scoped bookings, ascending. */
  function BillIdsInScope(scoped: seq<OrdersRow>): (ids: seq<string>)
    ensures StrictlySorted(ids)
    ensures forall id :: id in ids <==> id != "" && exists o :: o in scoped && o.billId == id
  {
    SortDistinct(NonEmptyBillIds(scoped))
  }

  /** A booking that carries a bill id contributes it to the id set and is
      never reported as a missing bill; a reported booking has no bill id. */
  lemma BilledBookingsAreNotMissing(scoped: seq<OrdersRow>)
    ensures forall o :: o in scoped && o.billId != "" ==> o.billId in BillIdsInScope(scoped) && !IsMissingBill(o)
    ensures forall m :: m in MissingBills(scoped) ==> exists o :: o in scoped && o.billId == "" && ToMissingBillRow(o) == m
  {
  }

  // ---------------------------------------------------------------------
  // Service and top-up bills

  function ToReportBillRow(b: BillRow): ReportBillRow
  {
    ReportBillRow(
      store := b.store,
      billId := b.billId,
      settlementTime := b.settlementTime,
      attributedDate := b.attributedDate,
      designer := b.designer,
      item := b.item,
      cash := b.cash,
      billAmount := b.billAmount)
  }

  function RowBillId(r: ReportBillRow): string
  {
    r.billId
  }

  /** The service-bill loop: for each id in turn, the service bill filed
      under it, skipping ids the service sheet does not have. */
  function ServiceRows(ids: seq<string>, service: BillTable): (rows: seq<ServiceBillRow>)
    ensures |rows| <= |ids|
    ensures forall x :: x in rows <==> exists id :: id in ids && id in service.byId && x == ToReportBillRow(service.byId[id])
  {
    if |ids| == 0 then []
    else
      var rest := ServiceRows(ids[1..], service);
      assert forall id :: id in ids <==> id == ids[0] || id in ids[1..];
      match service.Get(ids[0])
      case None => rest
      case Some(r) => [ToReportBillRow(r)] + rest
  }

  function InTable(table: BillTable): string -> bool
  {
    (id: string) => id in table.byId
  }

  /** The listed rows' bill ids are the given ids that the sheet has, in the
      given order. */
  lemma {:induction false} ServiceRowIds(ids: seq<string>, service: BillTable)
    requires service.Valid()
    ensures Map(ServiceRows(ids, service), RowBillId) == Filter(ids, InTable(service))
    decreases |ids|
  {
    if |ids| > 0 {
      ServiceRowIds(ids[1..], service);
      var rest := ServiceRows(ids[1..], service);
      if ids[0] in service.byId {
        MapAppend([ToReportBillRow(service.byId[ids[0]])], rest, RowBillId);
      }
    }
  }

  /** A top-up bill of `store` settled in `period`. */
  function TopUpInScope(store: string, period: Period): BillRow -> bool
  {
    (b: BillRow) => b.store == store && InPeriod(b.settlementTime, period)
  }

  /** The top-up loop: the top-up bills of the store settled in the period,
      in sheet order; bookings play no part. */
  function TopUpRows(topup: BillTable, store: string, period: Period): (rows: seq<TopUpBillRow>)
    requires topup.Keyed()
    ensures |rows| <= |topup.ids|
  {
    Map(Filter(topup.Values(), TopUpInScope(store, period)), ToReportBillRow)
  }

  // ---------------------------------------------------------------------
  // Totals

  function RowCash(r: ReportBillRow): real
  {
    r.cash
  }

  /** `sum(r.cash for r in rows)` */
  function CashSum(rows: seq<ReportBillRow>): real
  {
    Sum(rows, RowCash)
  }

  function PosInPeriod(period: Period): PosRow -> bool
  {
    (p: PosRow) => InPeriod(p.createdTime, period)
  }

  function PosCash(p: PosRow): real
  {
    p.cashPaid
  }

  /** `sum(p.cash_paid for p in scoped_pos)`, POS rows scoped by creation
      time only. */
  function PosCashTotal(pos: seq<PosRow>, period: Period): real
  {
    Sum(Filter(pos, PosInPeriod(period)), PosCash)
  }

  /** Reference for the POS total: every row's cash counted when it was
      created in the period, whatever its terminal, status or method. */
  function PosCashInPeriod(pos: seq<PosRow>, period: Period): real
  {
    if |pos| == 0 then 0.0
    else (if period.start <= pos[0].createdTime <= period.end then pos[0].cashPaid else 0.0)
         + PosCashInPeriod(pos[1..], period)
  }

  lemma {:induction false} PosCashTotalIsInPeriodSum(pos: seq<PosRow>, period: Period)
    ensures PosCashTotal(pos, period) == PosCashInPeriod(pos, period)
    decreases |pos|
  {
    SumOfFilter(pos, PosInPeriod(period), PosCash);
    SumWhereIsInPeriodSum(pos, period);
  }

  lemma {:induction false} SumWhereIsInPeriodSum(pos: seq<PosRow>, period: Period)
    ensures SumWhere(pos, PosInPeriod(period), PosCash) == PosCashInPeriod(pos, period)
    decreases |pos|
  {
    if |pos| > 0 {
      SumWhereIsInPeriodSum(pos[1..], period);
    }
  }

  // ---------------------------------------------------------------------
  // The engine

  /** `build_cash_recon`. The top-up sheet must be a well-formed table for
      its `.values()` to exist. */
  function BuildCashRecon(
    period: Period,
    store: string,
    orders: seq<OrdersRow>,
    bills: BillTables,
    posOrders: Option<seq<PosRow>>): (r: CashReconResult)
    requires bills.topup.Keyed()
    ensures r.period == period && r.store == store
    ensures r.totals.hotcakeCashTotal == r.totals.hotcakeServiceCash + r.totals.hotcakeTopupCash
    ensures r.totals.hotcakeServiceCash == CashSum(r.serviceBillRows)
    ensures r.totals.hotcakeTopupCash == CashSum(r.topupBillRows)
    ensures r.totals.posCashTotal.Some? <==> posOrders.Some?
    ensures r.totals.posCashDiff.Some? <==> posOrders.Some?
    ensures posOrders.Some? ==>
              r.totals.posCashDiff.value == r.totals.posCashTotal.value - r.totals.hotcakeCashTotal
    ensures |r.missingBills| <= |orders|
  {
    var scoped := ScopeOrders(orders, store, period);
    var missing := MissingBills(scoped);
    var serviceRows := ServiceRows(BillIdsInScope(scoped), bills.service);
    var topupRows := TopUpRows(bills.topup, store, period);
    var serviceCash := CashSum(serviceRows);
    var topupCash := CashSum(topupRows);
    var hotcakeCash := serviceCash + topupCash;
    var posTotal := match posOrders
      case None => None
      case Some(pos) => Some(PosCashTotal(pos, period));
    var posDiff := match posTotal
      case None => None
      case Some(t) => Some(t - hotcakeCash);
    CashReconResult(
      period := period,
      store := store,
      missingBills := missing,
      serviceBillRows := serviceRows,
      topupBillRows := topupRows,
      totals := CashTotals(
        hotcakeServiceCash := serviceCash,
        hotcakeTopupCash := topupCash,
        hotcakeCashTotal := hotcakeCash,
        posCashTotal := posTotal,
        posCashDiff := posDiff))
  }

  lemma MissingBillsField(
    period: Period, store: string, orders: seq<OrdersRow>,
    bills: BillTables, posOrders: Option<seq<PosRow>>)
    requires bills.topup.Keyed()
    ensures BuildCashRecon(period, store, orders, bills, posOrders).missingBills
         == MissingBills(ScopeOrders(orders, store, period))
  {
  }

  /** Missing bills of a run: one row per in-scope booking that meets the
      rule, at that booking's place, carrying its fields. */
  lemma MissingBillsOfRun(
    period: Period, store: string, a: seq<OrdersRow>, o: OrdersRow, b: seq<OrdersRow>,
    bills: BillTables, posOrders: Option<seq<PosRow>>)
    requires bills.topup.Keyed()
    ensures BuildCashRecon(period, store, a + [o] + b, bills, posOrders).missingBills
         == BuildCashRecon(period, store, a, bills, posOrders).missingBills
          + (if o.store == store && InPeriod(o.serviceStart, period) && IsMissingBill(o)
             then [ToMissingBillRow(o)] else [])
          + BuildCashRecon(period, store, b, bills, posOrders).missingBills
  {
    MissingBillsField(period, store, a + [o] + b, bills, posOrders);
    MissingBillsField(period, store, a, bills, posOrders);
    MissingBillsField(period, store, b, bills, posOrders);
    ScopedMissingBillsKeepOrder(a, o, b, store, period);
  }

  lemma ScopedMissingBillsKeepOrder(a: seq<OrdersRow>, o: OrdersRow, b: seq<OrdersRow>, store: string, period: Period)
    ensures MissingBills(ScopeOrders(a + [o] + b, store, period))
         == MissingBills(ScopeOrders(a, store, period))
          + (if o.store == store && InPeriod(o.serviceStart, period) && IsMissingBill(o)
             then [ToMissingBillRow(o)] else [])
          + MissingBills(ScopeOrders(b, store, period))
  {
    ScopeOrdersKeepsOrder(a, o, b, store, period);
    var sa := ScopeOrders(a, store, period);
    var so := if o.store == store && InPeriod(o.serviceStart, period) then [o] else [];
    var sb := ScopeOrders(b, store, period);
    MissingBillsAppend(sa + so, sb);
    MissingBillsAppend(sa, so);
    MissingBillsSingleton(o);
    assert MissingBills(so) == if so == [] then [] else MissingBills([o]);
  }

  lemma MissingBillsSingleton(o: OrdersRow)
    ensures MissingBills([o]) == if IsMissingBill(o) then [ToMissingBillRow(o)] else []
  {
    assert [o][1..] == [];
  }

  /** A run over one booking lists it as a missing bill, once and with its
      fields, exactly when the booking is of the store, starts within the
      period bounds inclusive, is checked in, has no bill id and has a bill
      amount of exactly 0; otherwise it lists nothing. */
  lemma {:induction false} OneBookingMissing(
    period: Period, store: string, o: OrdersRow,
    bills: BillTables, posOrders: Option<seq<PosRow>>)
    requires bills.topup.Keyed()
    ensures BuildCashRecon(period, store, [o], bills, posOrders).missingBills
         == if && o.store == store && period.start <= o.serviceStart <= period.end
               && o.orderStatus == "已報到" && o.billId == "" && o.billAmount == 0.0
            then [ToMissingBillRow(o)] else []
  {
    MissingBillsField(period, store, [o], bills, posOrders);
    FilterSingleton(o, InScope(store, period));
    MissingBillsSingleton(o);
  }

  /** Service rows of a run: ascending by bill id without duplicates, one
      for each in-scope bill id the service sheet has, whatever that bill's
      own store or settlement time. */
  lemma ServiceRowsOfRun(
    period: Period, store: string, orders: seq<OrdersRow>,
    bills: BillTables, posOrders: Option<seq<PosRow>>)
    requires bills.service.Valid() && bills.topup.Keyed()
    ensures var rows := BuildCashRecon(period, store, orders, bills, posOrders).serviceBillRows;
            && StrictlySorted(Map(rows, RowBillId))
            && forall x :: x in rows <==>
                 && x.billId in bills.service.byId
                 && x == ToReportBillRow(bills.service.byId[x.billId])
                 && exists o :: && o in orders && o.store == store && InPeriod(o.serviceStart, period)
                                && o.billId != "" && o.billId == x.billId
  {
    var scoped := ScopeOrders(orders, store, period);
    var ids := BillIdsInScope(scoped);
    ServiceRowIds(ids, bills.service);
    FilterKeepsSorted(ids, InTable(bills.service));
  }

  /** The top-up rows are exactly the projections of the top-up bills of
      the store settled in the period. */
  lemma TopUpRowsMembers(t: BillTable, store: string, period: Period)
    requires t.Keyed()
    ensures forall x :: x in TopUpRows(t, store, period) <==>
              exists id :: && id in t.byId && t.byId[id].store == store
                           && InPeriod(t.byId[id].settlementTime, period)
                           && x == ToReportBillRow(t.byId[id])
  {
    var kept := Filter(t.Values(), TopUpInScope(store, period));
    var rows := Map(kept, ToReportBillRow);
    assert rows == TopUpRows(t, store, period);
    forall x ensures x in rows <==>
      exists id :: && id in t.byId && t.byId[id].store == store
                   && InPeriod(t.byId[id].settlementTime, period)
                   && x == ToReportBillRow(t.byId[id])
    {
      if x in rows {
        var i :| 0 <= i < |rows| && rows[i] == x;
        assert kept[i] in t.Values();
        var j :| 0 <= j < |t.ids| && t.Values()[j] == kept[i];
        assert t.ids[j] in t.byId;
      }
      if exists id :: && id in t.byId && t.byId[id].store == store
                      && InPeriod(t.byId[id].settlementTime, period)
                      && x == ToReportBillRow(t.byId[id]) {
        var id :| && id in t.byId && t.byId[id].store == store
                  && InPeriod(t.byId[id].settlementTime, period)
                  && x == ToReportBillRow(t.byId[id]);
        var j :| 0 <= j < |t.ids| && t.ids[j] == id;
        assert t.Values()[j] == t.byId[id];
        assert t.byId[id] in kept;
        var i :| 0 <= i < |kept| && kept[i] == t.byId[id];
        assert rows[i] == x;
      }
    }
  }

  /** Top-up rows of a run: exactly the top-up bills of the store settled in
      the period, whatever bookings are supplied. */
  lemma TopUpRowsOfRun(
    period: Period, store: string, orders: seq<OrdersRow>, otherOrders: seq<OrdersRow>,
    bills: BillTables, posOrders: Option<seq<PosRow>>)
    requires bills.topup.Keyed()
    ensures var rows := BuildCashRecon(period, store, orders, bills, posOrders).topupBillRows;
            && rows == BuildCashRecon(period, store, otherOrders, bills, posOrders).topupBillRows
            && forall x :: x in rows <==>
                 exists id :: && id in bills.topup.byId
                              && bills.topup.byId[id].store == store
                              && InPeriod(bills.topup.byId[id].settlementTime, period)
                              && x == ToReportBillRow(bills.topup.byId[id])
  {
    TopUpRowsMembers(bills.topup, store, period);
    assert BuildCashRecon(period, store, orders, bills, posOrders).topupBillRows
        == TopUpRows(bills.topup, store, period);
    assert BuildCashRecon(period, store, otherOrders, bills, posOrders).topupBillRows
        == TopUpRows(bills.topup, store, period);
  }

  /** The Hotcake cash total is the cash of every listed bill, service and
      top-up together. */
  lemma HotcakeTotalOfRun(
    period: Period, store: string, orders: seq<OrdersRow>,
    bills: BillTables, posOrders: Option<seq<PosRow>>)
    requires bills.topup.Keyed()
    ensures var r := BuildCashRecon(period, store, orders, bills, posOrders);
            r.totals.hotcakeCashTotal == CashSum(r.serviceBillRows + r.topupBillRows)
  {
    var r := BuildCashRecon(period, store, orders, bills, posOrders);
    SumAppend(r.serviceBillRows, r.topupBillRows, RowCash);
  }

  /** With POS data, the POS total counts every POS row created in the
      period, with no store filter, and the difference is POS minus
      Hotcake. */
  lemma PosTotalsOfRun(
    period: Period, store: string, orders: seq<OrdersRow>,
    bills: BillTables, pos: seq<PosRow>)
    requires bills.topup.Keyed()
    ensures var r := BuildCashRecon(period, store, orders, bills, Some(pos));
            && r.totals.posCashTotal == Some(PosCashInPeriod(pos, period))
            && r.totals.posCashDiff == Some(PosCashInPeriod(pos, period) - r.totals.hotcakeCashTotal)
  {
    PosCashTotalIsInPeriodSum(pos, period);
  }

  // ---------------------------------------------------------------------
  // The bills container

  /** `build_cash_recon` as the command line and the web page call it: with
      the loaders' `HotcakeBills`, whose sheets are Python lists. A list has
      neither `.get` nor `.values`, so the run stops with `AttributeError`
      at whichever of the two calls it reaches first. */
  function BuildCashReconOnLoadedBills(
    period: Period,
    store: string,
    orders: seq<OrdersRow>,
    bills: HotcakeBills,
    posOrders: Option<seq<PosRow>>): Result<CashReconResult, string>
  {
    var scoped := ScopeOrders(orders, store, period);
    if |BillIdsInScope(scoped)| > 0 then Failure("AttributeError: 'list' object has no attribute 'get'")
    else Failure("AttributeError: 'list' object has no attribute 'values'")
  }

  /** No input whatsoever gets a reconciliation out of the engine when it
      is handed the loaders' lists. */
  lemma LoadedBillsNeverReconcile(
    period: Period, store: string, orders: seq<OrdersRow>,
    bills: HotcakeBills, posOrders: Option<seq<PosRow>>)
    ensures BuildCashReconOnLoadedBills(period, store, orders, bills, posOrders).Failure?
  {
  }

  /** `{r.bill_id: r for r in rows}`: the dict the engine's calls need. Ids
      keep their first position; a repeated id keeps its last row. */
  function IndexBills(rows: seq<BillRow>): BillTable
    decreases |rows|
  {
    if |rows| == 0 then BillTable([], map[])
    else
      var t := IndexBills(rows[..|rows| - 1]);
      var r := rows[|rows| - 1];
      BillTable(if r.billId in t.byId then t.ids else t.ids + [r.billId], t.byId[r.billId := r])
  }

  lemma {:induction false} IndexBillsValid(rows: seq<BillRow>)
    ensures IndexBills(rows).Valid()
    ensures forall i :: 0 <= i < |rows| ==> rows[i].billId in IndexBills(rows).byId
    decreases |rows|
  {
    if |rows| > 0 {
      var n := |rows|;
      var pre := rows[..n - 1];
      IndexBillsValid(pre);
      var t := IndexBills(pre);
      var r := rows[n - 1];
      var t' := IndexBills(rows);
      assert t'.byId == t.byId[r.billId := r];
      forall k | k in t'.byId ensures t'.byId[k].billId == k {
        if k != r.billId {
          assert t'.byId[k] == t.byId[k];
        }
      }
      if r.billId !in t.byId {
        assert t'.ids == t.ids + [r.billId];
        assert r.billId !in t.ids;
        forall i, j | 0 <= i < j < |t'.ids| ensures t'.ids[i] != t'.ids[j] {
          if j == |t.ids| {
            assert t'.ids[i] == t.ids[i];
            assert t.ids[i] in t.ids;
          }
        }
      }
      forall i | 0 <= i < n ensures rows[i].billId in t'.byId {
        if i < n - 1 {
          assert rows[i] == pre[i];
        }
      }
    }
  }

  /** Each id of the index is filed with the LAST row carrying it. */
  lemma {:induction false} IndexBillsKeepsLastRow(rows: seq<BillRow>)
    ensures forall k :: k in IndexBills(rows).byId ==>
              exists i :: && 0 <= i < |rows| && rows[i] == IndexBills(rows).byId[k]
                          && forall j :: i < j < |rows| ==> rows[j].billId != k
    decreases |rows|
  {
    if |rows| > 0 {
      var n := |rows|;
      var pre := rows[..n - 1];
      IndexBillsKeepsLastRow(pre);
      var t := IndexBills(pre);
      var r := rows[n - 1];
      var t' := IndexBills(rows);
      assert t'.byId == t.byId[r.billId := r];
      forall k | k in t'.byId
        ensures exists i :: && 0 <= i < n && rows[i] == t'.byId[k]
                            && forall j :: i < j < n ==> rows[j].billId != k
      {
        if k == r.billId {
          assert rows[n - 1] == t'.byId[k];
        } else {
          var i :| && 0 <= i < n - 1 && pre[i] == t.byId[k]
                   && forall j :: i < j < n - 1 ==> pre[j].billId != k;
          assert rows[i] == t'.byId[k];
          forall j | i < j < n ensures rows[j].billId != k {
            if j < n - 1 {
              assert rows[j] == pre[j];
            }
          }
        }
      }
    }
  }

  /** The engine run on the loaders' lists once each sheet is indexed by
      bill id: every input now yields a reconciliation. */
  function BuildCashReconOnIndexedBills(
    period: Period,
    store: string,
    orders: seq<OrdersRow>,
    bills: HotcakeBills,
    posOrders: Option<seq<PosRow>>): (r: CashReconResult)
    ensures r.period == period && r.store == store
    ensures r.totals.hotcakeCashTotal == CashSum(r.serviceBillRows + r.topupBillRows)
  {
    IndexBillsValid(bills.topup);
    var tables := BillTables(IndexBills(bills.service), IndexBills(bills.topup));
    HotcakeTotalOfRun(period, store, orders, tables, posOrders);
    BuildCashRecon(period, store, orders, tables, posOrders)
  }

  /** Once indexed, a scoped booking's bill that the service sheet holds is
      always listed among the service rows. */
  lemma IndexedServiceBillsAreListed(
    period: Period, store: string, orders: seq<OrdersRow>,
    bills: HotcakeBills, posOrders: Option<seq<PosRow>>, o: OrdersRow, b: BillRow)
    requires o in orders && o.store == store && InPeriod(o.serviceStart, period) && o.billId != ""
    requires b in bills.service && b.billId == o.billId
    ensures exists x :: x in BuildCashReconOnIndexedBills(period, store, orders, bills, posOrders).serviceBillRows
                        && x.billId == o.billId
  {
    IndexBillsValid(bills.service);
    IndexBillsValid(bills.topup);
    var tables := BillTables(IndexBills(bills.service), IndexBills(bills.topup));
    ServiceRowsOfRun(period, store, orders, tables, posOrders);
    var k :| 0 <= k < |bills.service| && bills.service[k] == b;
    assert o.billId in tables.service.byId;
    var x := ToReportBillRow(tables.service.byId[o.billId]);
    assert x in BuildCashRecon(period, store, orders, tables, posOrders).serviceBillRows;
  }
}
