/** When a deals feed makes a fill apply twice: exactly when a deal completes an order that was filled before. */
module DealFills {
  import opened Common
  import opened Ledger
  import opened OrderSync
  import opened PositionSync
  import opened FillOnce

  /** The filled orders are the logged ones. */
  ghost predicate LogIsFilled(db: Db) {
    && (forall i :: i in db.fillLog ==> i < |db.orders|)
    && forall i: nat :: i < |db.orders| ==> (IsFilled(db.orders[i]) <==> i in db.fillLog)
  }

  /** The deal is new, names a local order, and with the committed deals covers its quantity. */
  predicate Completes(db: Db, seen: Committed, row: RemoteDeal) {
    var at := FindByFutuId(db.orders, row.orderId);
    NewDeal(db.orders, row, KnownDeals(seen.deals)) && DealtSum(seen.deals, at.value) + row.qty >= db.orders[at.value].qty
  }

  /** It completes an order whose fill was applied before. */
  predicate Refills(db: Db, seen: Committed, row: RemoteDeal) {
    Completes(db, seen, row) && IsFilled(db.orders[FindByFutuId(db.orders, row.orderId).value])
  }

  lemma RepeatsIff(ids: seq<nat>, i: nat)
    ensures NoRepeats(ids + [i]) <==> NoRepeats(ids) && i !in ids
  {
    var all := ids + [i];
    if NoRepeats(all) {
      forall j, k | 0 <= j < k < |ids| ensures ids[j] != ids[k] {
        assert all[j] != all[k];
      }
      forall j | 0 <= j < |ids| ensures ids[j] != i {
        assert all[j] != all[|ids|];
      }
    }
  }

  /** A deal is logged exactly when it completes its order, and that repeats an entry exactly when it refills. */
  lemma DealLogs(db: Db, seen: Committed, row: RemoteDeal)
    requires |seen.positions| <= |db.positions| && LogIsFilled(db)
    ensures var r := DealOne(db, seen, row);
      LogIsFilled(r) && (NoRepeats(r.fillLog) <==> NoRepeats(db.fillLog) && !Refills(db, seen, row))
  {
    hide FillPositions, DealtSum, KnownDeals, NoRepeats;
    if Completes(db, seen, row) {
      RepeatsIff(db.fillLog, FindByFutuId(db.orders, row.orderId).value);
    }
  }

  /** One of the first `n` deals refills its order. */
  ghost predicate RefillsUpTo(db: Db, seen: Committed, rows: seq<RemoteDeal>, n: nat)
    requires n <= |rows| && |seen.positions| <= |db.positions|
  {
    exists j :: 0 <= j < n && Refills(DealsUpTo(db, seen, rows, j), seen, rows[j])
  }

  lemma {:induction false} DealLoopLogs(db: Db, seen: Committed, rows: seq<RemoteDeal>, n: nat)
    requires n <= |rows| && |seen.positions| <= |db.positions| && LogIsFilled(db)
    ensures var r := DealsUpTo(db, seen, rows, n);
      LogIsFilled(r) && (NoRepeats(r.fillLog) <==> NoRepeats(db.fillLog) && !RefillsUpTo(db, seen, rows, n))
  {
    hide DealOne, Refills, NoRepeats, LogIsFilled;
    if n > 0 {
      DealLoopLogs(db, seen, rows, n - 1);
      DealLogs(DealsUpTo(db, seen, rows, n - 1), seen, rows[n - 1]);
      assert RefillsUpTo(db, seen, rows, n) <==>
        RefillsUpTo(db, seen, rows, n - 1) || Refills(DealsUpTo(db, seen, rows, n - 1), seen, rows[n - 1]);
    }
  }

  /** Where each fill is logged once, the log stays that of the filled orders, and repeats nothing new. */
  lemma OnceKeepsLog(db: Db, r: Db)
    requires LogIsFilled(db) && LogsEachFillOnce(db, r)
    ensures LogIsFilled(r) && (NoRepeats(r.fillLog) <==> NoRepeats(db.fillLog))
  {
    var fills := NewFills(db, r);
    assert r.fillLog == db.fillLog + fills;
    forall i | i in fills ensures i !in db.fillLog {
      assert Fills(db.orders[i], r.orders[i]);
    }
    if NoRepeats(db.fillLog) {
      RepeatFree(db.fillLog, fills);
    }
    if NoRepeats(r.fillLog) {
      forall j, k | 0 <= j < k < |db.fillLog| ensures db.fillLog[j] != db.fillLog[k] {
        assert r.fillLog[j] != r.fillLog[k];
      }
    }
  }

  /** A committed order sync in which a deal completes an order that was filled before it. */
  ghost predicate RefillsIn(db: Db, s: Sync, cfg: Config) {
    s.OfOrders? && SyncOrders(db, s.orders, cfg.entryTimeout).Got?
    && RefillsUpTo(SyncUpTo(db, s.orders.orders.rows, s.orders, cfg.entryTimeout, |db.orders|),
                   Committed(db.positions, db.deals), DealRows(s.orders.deals), |DealRows(s.orders.deals)|)
  }

  lemma OneSyncLogs(db: Db, s: Sync, cfg: Config)
    requires LogIsFilled(db)
    ensures var r := AfterSync(db, s, cfg);
      LogIsFilled(r) && (NoRepeats(r.fillLog) <==> NoRepeats(db.fillLog) && !RefillsIn(db, s, cfg))
  {
    hide LogIsFilled, NoRepeats, LogsEachFillOnce, SyncUpTo, DealsUpTo, RefillsUpTo, SyncPositions;
    match s
    case OfOrders(a) => {
      if SyncOrders(db, a, cfg.entryTimeout).Got? {
        var mid := SyncUpTo(db, a.orders.rows, a, cfg.entryTimeout, |db.orders|);
        OrderLoopLogs(db, a.orders.rows, a, cfg.entryTimeout, |db.orders|);
        OnceKeepsLog(db, mid);
        DealLoopLogs(mid, Committed(db.positions, db.deals), DealRows(a.deals), |DealRows(a.deals)|);
      }
    }
    case OfPositions(a) => {
      SyncLogs(db, s, cfg);
      OnceKeepsLog(db, AfterSync(db, s, cfg));
    }
  }

  /**
   Over any run of syncs, deals included, no order's fill is applied twice exactly when no deal ever
   completes an order that was filled before it.
   */
  lemma {:induction false} FilledOnceIff(db: Db, ss: seq<Sync>, cfg: Config)
    requires LogIsFilled(db) && NoRepeats(db.fillLog)
    ensures LogIsFilled(AfterSyncs(db, ss, cfg))
    ensures NoRepeats(AfterSyncs(db, ss, cfg).fillLog) <==> forall k :: 0 <= k < |ss| ==> !RefillsIn(AfterSyncs(db, ss[..k], cfg), ss[k], cfg)
  {
    hide LogIsFilled, NoRepeats, AfterSync, RefillsIn;
    if ss != [] {
      var n := |ss| - 1;
      var init := ss[..n];
      FilledOnceIff(db, init, cfg);
      OneSyncLogs(AfterSyncs(db, init, cfg), ss[n], cfg);
      assert forall k :: 0 <= k < n ==> init[..k] == ss[..k] && init[k] == ss[k];
    }
  }

  // -------------------------------------------- one sale, taken twice

  /** Twenty shares, and a pending exit of ten of them. */
  const HOLDS_TWENTY := HELD.(shares := 20, availableShares := 20)
  const SELLS_TEN := HELD_TABLES.(positions := [HOLDS_TWENTY])

  /** One sync reports the exit filled, and its deal. */
  function FilledWithDeal(now: Time): Sync {
    OfOrders(OrderAnswers(Got([RemoteOrder("S1", "US.A", "FILLED_ALL", 10, 94.0)]), GotDeals([RemoteDeal("D1", "S1", 10, 94.0)]),
                          _ => CancelAccepted, _ => now))
  }

  /** The row of the order fills it, its deal fills it again: ten shares are sold and twenty taken. */
  lemma OrderRowAndDealTakeTwice(now: Time, cfg: Config)
    ensures var r := AfterSync(SELLS_TEN, FilledWithDeal(now), cfg);
      && r.fillLog == [0, 0] && Sold(r.orders, "US.A") == 10
      && |r.positions| == 1 && r.positions[0].shares == 0 && r.positions[0].status.Closed?
  {
    hide Sold, SyncOne, DealOne;
    var db, a := SELLS_TEN, FilledWithDeal(now).orders;
    var rows, deals, seen := a.orders.rows, DealRows(a.deals), Committed(SELLS_TEN.positions, []);
    var once := SyncOne(db, db.positions, 0, rows, a, cfg.entryTimeout);
    RowTakesTen(now, cfg);
    assert SyncUpTo(db, rows, a, cfg.entryTimeout, 0) == db;
    assert SyncUpTo(db, rows, a, cfg.entryTimeout, 1) == once;
    DealTakesAgain(once, seen, deals[0]);
    var twice := DealOne(once, seen, deals[0]);
    assert DealsUpTo(once, seen, deals, 0) == once;
    assert DealsUpTo(once, seen, deals, 1) == twice;
    assert AfterSync(db, FilledWithDeal(now), cfg) == twice;
  }

  lemma RowTakesTen(now: Time, cfg: Config)
    ensures var a := FilledWithDeal(now).orders;
      var r := SyncOne(SELLS_TEN, SELLS_TEN.positions, 0, a.orders.rows, a, cfg.entryTimeout);
      && r.fillLog == [0] && |r.orders| == 1 && |r.positions| == 1
      && r.orders[0] == PENDING_SELL.(status := r.orders[0].status, dealtQty := 10, dealtAvg := Some(94.0))
      && r.positions[0].symbol == "US.A" && r.positions[0].shares == 10
  {
    var rows := FilledWithDeal(now).orders.orders.rows;
    assert RowOf(rows, "S1") == Some(rows[0]) && NormalizeStatus("FILLED_ALL").Filled?;
    assert SELLS_TEN.positions[..0] == [];
    assert FindOpen(SELLS_TEN.positions, "US.A") == Some(0);
  }

  lemma DealTakesAgain(db: Db, seen: Committed, row: RemoteDeal)
    requires |db.orders| == 1 && |db.positions| == 1 && seen == Committed([HOLDS_TWENTY], [])
    requires row == RemoteDeal("D1", "S1", 10, 94.0)
    requires db.orders[0].futuId == "S1" && db.orders[0].symbol == "US.A" && db.orders[0].side.Sell? && db.orders[0].qty == 10
    requires db.positions[0].symbol == "US.A" && db.positions[0].shares == 10
    ensures var r := DealOne(db, seen, row);
      && r.fillLog == db.fillLog + [0] && Sold(r.orders, "US.A") == 10
      && |r.positions| == 1 && r.positions[0].shares == 0 && r.positions[0].status.Closed?
  {
    assert db.orders[..0] == [] && seen.positions[..0] == [];
    assert FindByFutuId(db.orders, "S1") == Some(0);
    assert FindOpen(seen.positions, "US.A") == Some(0);
    assert DealtSum([], 0) == 0 && KnownDeals([]) == {};
    var r := DealOne(db, seen, row);
    assert SoldUpTo(r.orders, "US.A", 0) == 0;
    assert SoldUpTo(r.orders, "US.A", 1) == 10;
  }
}
