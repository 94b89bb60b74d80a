/** A price that stops a linked, non-orphan position out will do so ever after. */
module StopRatchet {
  import opened Common
  import opened Ledger
  import opened OrderSync
  import opened PositionSync
  import opened PositionManager
  import opened Reconciler
  import opened SimLoop

  /** The positions the ratchet is about: opened by a plan or an order. */
  predicate Tracked(p: Position) {
    Linked(p) && !p.isOrphan
  }

  /** A price that stops the position out; management values no position at a price that is not positive. */
  predicate StopsOut(p: Position, price: real) {
    0.0 < price <= HardStopLevel(p)
  }

  /** The highest price that stops the position out, or zero. */
  function StopLine(p: Position): (line: real)
    ensures forall price :: StopsOut(p, price) <==> 0.0 < price <= line
  {
    MaxReal(HardStopLevel(p), 0.0)
  }

  /** A tracked row stays tracked, and its stop does not fall. */
  predicate RowRatchets(p: Position, q: Position) {
    q.symbol == p.symbol && (Tracked(p) ==> Tracked(q) && StopLine(p) <= StopLine(q))
  }

  ghost predicate Ratchets(ps: seq<Position>, qs: seq<Position>) {
    |ps| <= |qs| && forall k :: 0 <= k < |ps| ==> RowRatchets(ps[k], qs[k])
  }

  lemma RatchetsCompose(ps: seq<Position>, qs: seq<Position>, rs: seq<Position>)
    requires Ratchets(ps, qs) && Ratchets(qs, rs)
    ensures Ratchets(ps, rs)
  {
    forall k | 0 <= k < |ps| ensures RowRatchets(ps[k], rs[k]) {
      assert RowRatchets(ps[k], qs[k]) && RowRatchets(qs[k], rs[k]);
    }
  }

  // ---------------------------------------------------------- order sync

  lemma FillRatchets(db: Db, seen: seq<Position>, i: nat)
    requires i < |db.orders| && |seen| <= |db.positions|
    ensures Ratchets(db.positions, ApplyFill(db, seen, i).positions)
  {
    hide FindPosition, FindOpen, PlanOf, DealtOrOrdered, OpenedFromFill;
  }

  lemma SyncOneRatchets(db: Db, seen: seq<Position>, i: nat, rows: seq<RemoteOrder>, a: OrderAnswers, timeout: int)
    requires i < |db.orders| && |seen| <= |db.positions|
    ensures Ratchets(db.positions, SyncOne(db, seen, i, rows, a, timeout).positions)
  {
    hide ApplyFill;
    var o := db.orders[i];
    if Unresolved(o.status) {
      FillRatchets(db.(orders := db.orders[i := WithRow(o, RowOf(rows, o.futuId))]), seen, i);
    }
  }

  lemma {:induction false} OrderRowsRatchet(db: Db, rows: seq<RemoteOrder>, a: OrderAnswers, timeout: int, n: nat)
    requires n <= |db.orders|
    ensures Ratchets(db.positions, SyncUpTo(db, rows, a, timeout, n).positions)
  {
    hide SyncOne;
    if n > 0 {
      var prev := SyncUpTo(db, rows, a, timeout, n - 1);
      OrderRowsRatchet(db, rows, a, timeout, n - 1);
      SyncOneRatchets(prev, db.positions, n - 1, rows, a, timeout);
      RatchetsCompose(db.positions, prev.positions, SyncUpTo(db, rows, a, timeout, n).positions);
    }
  }

  lemma {:induction false} DealRatchets(db: Db, seen: Committed, row: RemoteDeal)
    requires |seen.positions| <= |db.positions|
    ensures Ratchets(db.positions, DealOne(db, seen, row).positions)
  {
    hide ApplyFill;
    if NewDeal(db.orders, row, KnownDeals(seen.deals)) {
      var i := FindByFutuId(db.orders, row.orderId).value;
      var o := WithDeal(db.orders[i], DealtSum(seen.deals, i) + row.qty, row.price);
      FillRatchets(db.(orders := db.orders[i := o], deals := db.deals + [Deal(i, row.qty, row.id)]), seen.positions, i);
    }
  }

  lemma {:induction false} DealRowsRatchet(db: Db, seen: Committed, rows: seq<RemoteDeal>, n: nat)
    requires n <= |rows| && |seen.positions| <= |db.positions|
    ensures Ratchets(db.positions, DealsUpTo(db, seen, rows, n).positions)
  {
    hide DealOne;
    if n > 0 {
      var prev := DealsUpTo(db, seen, rows, n - 1);
      DealRowsRatchet(db, seen, rows, n - 1);
      DealRatchets(prev, seen, rows[n - 1]);
      RatchetsCompose(db.positions, prev.positions, DealOne(prev, seen, rows[n - 1]).positions);
    }
  }

  lemma OrderSyncRatchets(db: Db, a: OrderAnswers, timeout: int)
    requires SyncOrders(db, a, timeout).Got?
    ensures Ratchets(db.positions, SyncOrders(db, a, timeout).rows.positions)
  {
    hide SyncUpTo, DealsUpTo, NewDealsClash, InsertsClash, Ratchets;
    var mid := SyncUpTo(db, a.orders.rows, a, timeout, |db.orders|);
    OrderRowsRatchet(db, a.orders.rows, a, timeout, |db.orders|);
    DealRowsRatchet(mid, Committed(db.positions, db.deals), DealRows(a.deals), |DealRows(a.deals)|);
    RatchetsCompose(db.positions, mid.positions, SyncOrders(db, a, timeout).rows.positions);
  }

  // -------------------------------------------------------- position sync

  lemma RowSyncRatchets(db: Db, row: RemotePosition, now: Time, cfg: Config)
    ensures Ratchets(db.positions, SyncRow(db, row, now, cfg).positions)
  {
    hide MatchingEntry;
  }

  lemma {:induction false} RemoteRowsRatchet(db: Db, rows: seq<RemotePosition>, now: Time, cfg: Config, n: nat)
    requires n <= |rows|
    ensures Ratchets(db.positions, SyncRowsUpTo(db, rows, now, cfg, n).positions)
  {
    hide SyncRow;
    if n > 0 {
      var prev := SyncRowsUpTo(db, rows, now, cfg, n - 1);
      RemoteRowsRatchet(db, rows, now, cfg, n - 1);
      RowSyncRatchets(prev, rows[n - 1], now, cfg);
      RatchetsCompose(db.positions, prev.positions, SyncRow(prev, rows[n - 1], now, cfg).positions);
    }
  }

  lemma PositionSyncRatchets(db: Db, a: PositionAnswers, cfg: Config)
    ensures Ratchets(db.positions, SyncPositions(db, a, cfg).positions)
  {
    hide SyncRowsUpTo, OneRowPerSymbol;
    if a.rows.Got? {
      var rows := a.rows.rows;
      var adopted := SyncRowsUpTo(db, rows, a.now, cfg, |rows|);
      RemoteRowsRatchet(db, rows, a.now, cfg, |rows|);
      PositionsAfterClose(adopted, Seen(rows), a.now, |adopted.positions|);
      RatchetsCompose(db.positions, adopted.positions, SyncPositions(db, a, cfg).positions);
    }
  }

  // -------------------------------------------------- position management

  /**
   The trailing update lowers the hard stop exactly when it runs, there was no trailing stop, and the
   new one is negative: an unset trailing stop counts as zero.
   */
  lemma TrailingLowersStopIff(p: Position, current: real, cfg: Config)
    ensures HardStopLevel(Trailed(p, current, cfg)) < HardStopLevel(p) <==>
      && PriceIntent(p, current, cfg).NoIntent? && p.currentR >= 1.5
      && OrElse(p.trailingStop, 0.0) == 0.0 && p.stopPrice < 0.0 && p.entryPrice + 0.5 * RiskPerShare(p) < 0.0
  {
    hide PriceIntent;
  }

  lemma ManagedRowRatchets(p: Position, current: real, cfg: Config)
    ensures RowRatchets(p, Trailed(Marked(p, current, cfg), current, cfg))
  {
    hide PriceIntent;
  }

  /**
   Managing a tracked position lowers its level exactly when the price, above the stop and short of the
   targets, is 1.5R ahead of an entry so far below zero that half an R above it still is negative.
   */
  lemma ManagingLowersStopIff(db: Db, k: nat, a: ManageAnswers, cfg: Config)
    requires k < |db.positions| && Tracked(db.positions[k])
    ensures var p := db.positions[k];
      var current := CurrentPrice(p, a.quote);
      HardStopLevel(ManageOne(db, k, a, cfg).positions[k]) < HardStopLevel(p) <==>
        && p.status.Open? && current > 0.0 && PriceIntent(p, current, cfg).NoIntent?
        && (current - p.entryPrice) / RiskPerShare(p) >= 1.5
        && OrElse(p.trailingStop, 0.0) == 0.0 && p.stopPrice < 0.0 && p.entryPrice + 0.5 * RiskPerShare(p) < 0.0
  {
    hide ExitSlot, ExitOrder, FinalIntent, CurrentPrice;
    var p, current := db.positions[k], CurrentPrice(db.positions[k], a.quote);
    var marked := Marked(p, current, cfg);
    assert PriceIntent(marked, current, cfg) == PriceIntent(p, current, cfg);
    TrailingLowersStopIff(marked, current, cfg);
  }

  lemma ManageOneRatchets(db: Db, k: nat, a: ManageAnswers, cfg: Config)
    requires k < |db.positions|
    ensures Ratchets(db.positions, ManageOne(db, k, a, cfg).positions)
  {
    hide ExitSlot, ExitOrder, FinalIntent, CurrentPrice, Marked, Trailed;
    var current := CurrentPrice(db.positions[k], a.quote);
    ManagedRowRatchets(db.positions[k], current, cfg);
  }

  lemma {:induction false} ManagingRatchets(db: Db, a: nat -> ManageAnswers, cfg: Config, n: nat)
    requires n <= |db.positions|
    ensures Ratchets(db.positions, ManageUpTo(db, a, cfg, n).positions)
  {
    hide ManageOne;
    if n > 0 {
      var prev := ManageUpTo(db, a, cfg, n - 1);
      ManagingRatchets(db, a, cfg, n - 1);
      ManageOneRatchets(prev, n - 1, a(n - 1), cfg);
      RatchetsCompose(db.positions, prev.positions, ManageOne(prev, n - 1, a(n - 1), cfg).positions);
    }
  }

  // ---------------------------------------------------- every interleaving

  /** Any step that moves positions, in any order. */
  datatype Step = OrderStep(orders: OrderAnswers) | PositionStep(positions: PositionAnswers) | ManageStep(manage: nat -> ManageAnswers)

  function AfterStep(db: Db, s: Step, cfg: Config): Db {
    match s
    case OrderStep(a) =>
      var r := SyncOrders(db, a, cfg.entryTimeout);
      if r.Got? then r.rows else db
    case PositionStep(a) => SyncPositions(db, a, cfg)
    case ManageStep(a) => ManageAll(db, a, cfg)
  }

  function AfterSteps(db: Db, steps: seq<Step>, cfg: Config): Db {
    if steps == [] then db else AfterStep(AfterSteps(db, steps[..|steps| - 1], cfg), steps[|steps| - 1], cfg)
  }

  lemma StepRatchets(db: Db, s: Step, cfg: Config)
    ensures Ratchets(db.positions, AfterStep(db, s, cfg).positions)
  {
    hide SyncOrders, SyncPositions;
    match s
    case OrderStep(a) =>
      if SyncOrders(db, a, cfg.entryTimeout).Got? {
        OrderSyncRatchets(db, a, cfg.entryTimeout);
      } else {
        assert AfterStep(db, s, cfg).positions == db.positions;
      }
    case PositionStep(a) => PositionSyncRatchets(db, a, cfg);
    case ManageStep(a) => ManagingRatchets(db, a, cfg, |db.positions|);
  }

  /** Over any interleaving of order sync, position sync and management the stop never falls, whatever the remote account reports. */
  lemma {:induction false} HardStopNeverFalls(db: Db, steps: seq<Step>, cfg: Config)
    ensures Ratchets(db.positions, AfterSteps(db, steps, cfg).positions)
  {
    hide AfterStep;
    if steps != [] {
      var prev := AfterSteps(db, steps[..|steps| - 1], cfg);
      HardStopNeverFalls(db, steps[..|steps| - 1], cfg);
      StepRatchets(prev, steps[|steps| - 1], cfg);
      RatchetsCompose(db.positions, prev.positions, AfterStep(prev, steps[|steps| - 1], cfg).positions);
    }
  }

  lemma {:induction false} IterationRatchets(db: Db, a: LoopAnswers, cfg: Config)
    ensures Ratchets(db.positions, Iterate(db, a, cfg).db.positions)
  {
    hide ManageUpTo, SyncPositions, Reconcile;
    if cfg.enableReal || SyncOrders(db, a.orders, cfg.entryTimeout).ReadError? {
      assert Iterate(db, a, cfg).db == db;
    } else {
      var ordered, synced, rec := SyncOrders(db, a.orders, cfg.entryTimeout).rows, SyncedDb(db, a, cfg), ReconciledDb(db, a, cfg);
      OrderSyncRatchets(db, a.orders, cfg.entryTimeout);
      PositionSyncRatchets(ordered, a.positions, cfg);
      RatchetsCompose(db.positions, ordered.positions, synced.positions);
      ManagingRatchets(rec, a.manage, cfg, |rec.positions|);
      RatchetsCompose(db.positions, rec.positions, ManagedDb(db, a, cfg).positions);
    }
  }

  /** The same over whole runs of the loop. */
  lemma {:induction false} HardStopNeverFallsInRuns(db: Db, run: seq<LoopAnswers>, cfg: Config)
    ensures Ratchets(db.positions, Run(db, run, cfg).positions)
  {
    hide Iterate;
    if run != [] {
      var prev := Run(db, run[..|run| - 1], cfg);
      HardStopNeverFallsInRuns(db, run[..|run| - 1], cfg);
      IterationRatchets(prev, run[|run| - 1], cfg);
      RatchetsCompose(db.positions, prev.positions, Iterate(prev, run[|run| - 1], cfg).db.positions);
    }
  }

  // ------------------------------------------- a level that falls below zero

  /** A submitted BUY and its plan. */
  const BOUGHT := Plan("US.A", Long, A, OrderSubmitted, None, None, 95.0, 110.0, 120.0, None, None, Approved, None, None, Some(0))
  const PENDING_BUY := Order(Some(0), "US.A", Buy, 10, 100.0, 100.0, 0, "B1", Submitted, EntryNote, 0, None, 0)
  const BUYING := Db([PENDING_BUY], [], [BOUGHT], [], [], None, [], [])

  /** The holding appears remotely, at a cost of -10; then the deal arrives; then the price is 5. */
  const HOLDING := RemotePosition("US.A", 10, -10.0, None, 5.0, 50.0)
  const ARRIVES := PositionStep(PositionAnswers(Got([HOLDING]), 0))
  const DEALT := OrderStep(OrderAnswers(Got([]), GotDeals([RemoteDeal("D1", "B1", 10, 100.0)]), _ => CancelRefused, _ => 0))
  const PRICED := ManageStep(_ => ManageAnswers(Some(Quote(5.0, 5.0)), ReadError, Refused, false, 0, 0, 0))

  lemma NegativeCostIsAdopted(cfg: Config)
    requires 0.0 < cfg.orphanStopPct < 1.0
    ensures var db := AfterStep(BUYING, ARRIVES, cfg);
      && |db.positions| == 1 && |db.orders| == 1 && db.plans == [BOUGHT.(status := InPosition)] && db.deals == []
      && db.positions[0] == Overwritten(FromRemote(HOLDING, Some(0), Some(0), cfg), HOLDING, 0, cfg)
      && db.orders[0] == InferFill(PENDING_BUY, HOLDING)
  {
    var os := BUYING.orders;
    assert os[..0] == [] && EntryCandidates(os, "US.A") == [0];
    assert MatchingEntry(os, "US.A", 10, -10.0, 0, cfg) == Some(0);
    var adopted := SyncRow(BUYING, HOLDING, 0, cfg);
    assert SyncRowsUpTo(BUYING, [HOLDING], 0, cfg, 0) == BUYING;
    assert SyncRowsUpTo(BUYING, [HOLDING], 0, cfg, 1) == adopted;
    assert CloseUpTo(adopted, Seen([HOLDING]), 0, 0) == adopted;
    assert SeenUpTo([HOLDING], 0) == {};
    assert "US.A" in Seen([HOLDING]);
    assert CloseUpTo(adopted, Seen([HOLDING]), 0, 1) == adopted;
  }

  /** The deal reopens the row, with the plan's targets in place of the negative one. */
  lemma DealSetsTargets(db: Db, p: Position, cfg: Config)
    requires db.orders == [InferFill(PENDING_BUY, HOLDING)] && db.positions == [p] && p.symbol == "US.A"
    requires db.plans == [BOUGHT.(status := InPosition)] && db.deals == []
    ensures AfterStep(db, DEALT, cfg).positions == [ReopenedByFill(p, 0, db.plans[0], 0)]
  {
    var a, deal := DEALT.orders, RemoteDeal("D1", "B1", 10, 100.0);
    var seen := Committed([p], []);
    assert db.orders[..0] == [] && db.positions[..0] == [];
    assert FindByFutuId(db.orders, "B1") == Some(0) && FindPosition([p], "US.A") == Some(0);
    assert SyncUpTo(db, [], a, cfg.entryTimeout, 0) == db;
    assert SyncUpTo(db, [], a, cfg.entryTimeout, 1) == db;
    assert DealsUpTo(db, seen, [deal], 0) == db;
    assert DealsUpTo(db, seen, [deal], 1) == DealOne(db, seen, deal);
    assert DealtSum([], 0) == 0;
  }

  lemma PriceDropsStop(db: Db, p: Position, cfg: Config)
    requires 0.0 < cfg.orphanStopPct < 1.0 && db.positions == [p] && Tracked(p) && p.status.Open?
    requires p.entryPrice == -10.0 && p.stopPrice == -10.0 * (1.0 - cfg.orphanStopPct) && p.trailingStop.None?
    requires p.target1 == Some(110.0) && p.target2 == Some(120.0)
    ensures var r := AfterStep(db, PRICED, cfg);
      |r.positions| == 1 && HardStopLevel(p) == 0.0 && HardStopLevel(r.positions[0]) < 0.0
  {
    assert ManageUpTo(db, PRICED.manage, cfg, 0) == db;
    assert CurrentPrice(p, Some(Quote(5.0, 5.0))) == 5.0;
    assert RiskPerShare(p) <= 1.0;
    ManagingLowersStopIff(db, 0, PRICED.manage(0), cfg);
  }

  /**
   The level itself can fall, from 0 to below, once the remote account reports a negative cost: the
   pending BUY is adopted at it, its deal puts the plan's targets in place, and the next price trails.
   */
  lemma NegativeCostDropsStop(cfg: Config)
    requires 0.0 < cfg.orphanStopPct < 1.0
    ensures var before, after := AfterSteps(BUYING, [ARRIVES, DEALT], cfg), AfterSteps(BUYING, [ARRIVES, DEALT, PRICED], cfg);
      && |before.positions| == 1 && |after.positions| == 1 && Tracked(before.positions[0])
      && HardStopLevel(before.positions[0]) == 0.0 && HardStopLevel(after.positions[0]) < 0.0
  {
    hide AfterStep;
    var one := AfterStep(BUYING, ARRIVES, cfg);
    NegativeCostIsAdopted(cfg);
    var p := one.positions[0];
    assert one.positions == [p] && one.orders == [InferFill(PENDING_BUY, HOLDING)];
    DealSetsTargets(one, p, cfg);
    var two := AfterStep(one, DEALT, cfg);
    PriceDropsStop(two, ReopenedByFill(p, 0, one.plans[0], 0), cfg);
    assert [ARRIVES][..0] == [] && [ARRIVES, DEALT][..1] == [ARRIVES] && [ARRIVES, DEALT, PRICED][..2] == [ARRIVES, DEALT];
    assert AfterSteps(BUYING, [], cfg) == BUYING;
    assert AfterSteps(BUYING, [ARRIVES], cfg) == one;
    assert AfterSteps(BUYING, [ARRIVES, DEALT], cfg) == two;
  }
}
