/** Remote positions overwrite the local ones: app/services/position_sync.py. */
module PositionSync {
  import opened Common
  import opened Ledger

  datatype PositionAnswers = PositionAnswers(rows: Read<seq<RemotePosition>>, now: Time)

  const DAY := 86400

  predicate IsHolding(row: RemotePosition) {
    row.qty > 0 && row.symbol != ""
  }

  /** The symbols the position loop has seen. */
  function Seen(rows: seq<RemotePosition>): set<Symbol> {
    SeenUpTo(rows, |rows|)
  }

  function SeenUpTo(rows: seq<RemotePosition>, n: nat): (seen: set<Symbol>)
    requires n <= |rows|
    ensures forall s :: s in seen <==> exists i :: 0 <= i < n && IsHolding(rows[i]) && rows[i].symbol == s
  {
    if n == 0 then {}
    else SeenUpTo(rows, n - 1) + if IsHolding(rows[n - 1]) then {rows[n - 1].symbol} else {}
  }

  // ----------------------------------------------- matching a pending entry

  predicate CouldBeEntry(o: Order, s: Symbol) {
    o.symbol == s && o.side.Buy? && (Working(o.status) || o.status.UnknownRemoteMissing?)
  }

  function EntryCandidates(os: seq<Order>, s: Symbol): (ids: seq<nat>)
    ensures forall i: nat :: i in ids <==> i < |os| && CouldBeEntry(os[i], s)
  {
    if os == [] then []
    else
      var n := |os| - 1;
      assert forall i :: 0 <= i < n ==> os[..n][i] == os[i];
      EntryCandidates(os[..n], s) + if CouldBeEntry(os[n], s) then [n] else []
  }

  function ReferencePrice(o: Order): real {
    OrElse(o.dealtAvg, if o.limitPrice != 0.0 then o.limitPrice else o.submittedPrice)
  }

  predicate QuantityMatches(o: Order, qty: int) {
    AbsInt(DealtOrOrdered(o) - qty) as real <= MaxReal(1.0, qty as real * 0.05)
  }

  predicate PriceKnown(o: Order, cost: real) {
    cost > 0.0 && ReferencePrice(o) != 0.0
  }

  predicate PriceMatches(o: Order, cost: real) {
    PriceKnown(o, cost) && AbsReal(ReferencePrice(o) - cost) / cost <= 0.03
  }

  predicate TimeMatches(o: Order, now: Time, cfg: Config) {
    o.submittedAt / DAY == now / DAY || o.submittedAt >= now - cfg.matchWindow
  }

  /** The one pending entry a remote holding may be bound to. */
  function MatchingEntry(os: seq<Order>, s: Symbol, qty: int, cost: real, now: Time, cfg: Config): (r: Option<nat>)
    ensures r.Some? ==> r.value < |os| && CouldBeEntry(os[r.value], s)
  {
    var ids := EntryCandidates(os, s);
    if |ids| != 1 then None
    else
      assert ids[0] in ids;
      var o := os[ids[0]];
      if QuantityMatches(o, qty) && TimeMatches(o, now, cfg) && (PriceKnown(o, cost) ==> PriceMatches(o, cost))
      then Some(ids[0]) else None
  }

  // ------------------------------------------------------- one remote row

  function RowPrice(row: RemotePosition): real
    requires row.qty > 0
  {
    if row.price <= 0.0 && row.marketValue > 0.0 then row.marketValue / row.qty as real else row.price
  }

  function FromRemote(row: RemotePosition, entry: Option<nat>, planId: Option<nat>, cfg: Config): Position {
    Position(
      row.symbol, Open, row.cost, row.cost * (1.0 - cfg.orphanStopPct), None,
      row.qty, 0, if entry.Some? then LocalAndFutuConfirmed else FutuDetected, entry.None?,
      planId, entry, None, Some(row.cost * (1.0 + cfg.orphanTakePct)), None, false,
      Some(cfg.orphanTakePct), Some(cfg.orphanStopPct), None, 0.0, 0.0, 0.0, None, NoExit, None, None, false)
  }

  /** The provenance of a row that was already there. */
  function Reconfirmed(p: Position): Position {
    if Linked(p) then p.(source := LocalAndFutuConfirmed)
    else p.(source := FutuDetected, isOrphan := true)
  }

  function OrphanLevels(p: Position, cfg: Config): Position {
    if !p.isOrphan then p
    else
      var take := OrElse(p.takePct, cfg.orphanTakePct);
      var stop := OrElse(p.stopPct, cfg.orphanStopPct);
      p.(takePct := Some(take), stopPct := Some(stop),
         stopPrice := p.entryPrice * (1.0 - stop), target1 := Some(p.entryPrice * (1.0 + take)))
  }

  /** The fields every remote row overwrites. */
  function Overwritten(p: Position, row: RemotePosition, now: Time, cfg: Config): (q: Position)
    requires IsHolding(row)
    ensures q.symbol == p.symbol && q.status.Open? && q.shares == row.qty && q.source == p.source
    ensures q.entryPrice == if row.cost != 0.0 then row.cost else p.entryPrice
  {
    var price := RowPrice(row);
    OrphanLevels(
      p.(status := Open,
         shares := row.qty,
         availableShares := MaxInt(if row.sellable.Some? then row.sellable.value else row.qty, 0),
         entryPrice := if row.cost != 0.0 then row.cost else p.entryPrice,
         currentPrice := if price != 0.0 then Some(price) else p.currentPrice,
         lastSynced := Some(now)),
      cfg)
  }

  function InferFill(o: Order, row: RemotePosition): Order
    requires row.qty > 0
  {
    o.(status := FilledInferred, dealtQty := row.qty, dealtAvg := Some(row.cost))
  }

  function EnterPlan(plans: seq<Plan>, planId: Option<nat>): (r: seq<Plan>)
    ensures |r| == |plans|
  {
    if planId.Some? && planId.value < |plans| then plans[planId.value := plans[planId.value].(status := InPosition)] else plans
  }

  function SyncRow(db: Db, row: RemotePosition, now: Time, cfg: Config): (r: Db)
    ensures |r.orders| == |db.orders| && |r.plans| == |db.plans| && |db.positions| <= |r.positions|
    ensures r.deals == db.deals && r.issues == db.issues && r.gate == db.gate && r.buyLog == db.buyLog
  {
    if !IsHolding(row) then db
    else
      var at := FindPosition(db.positions, row.symbol);
      if at.Some? then
        db.(positions := db.positions[at.value := Overwritten(Reconfirmed(db.positions[at.value]), row, now, cfg)])
      else
        var entry := MatchingEntry(db.orders, row.symbol, row.qty, row.cost, now, cfg);
        if entry.None? then
          db.(positions := db.positions + [Overwritten(FromRemote(row, None, None, cfg), row, now, cfg)])
        else
          var o := db.orders[entry.value];
          db.(positions := db.positions + [Overwritten(FromRemote(row, entry, o.planId, cfg), row, now, cfg)],
              orders := db.orders[entry.value := InferFill(o, row)], fillLog := db.fillLog + [entry.value],
              plans := EnterPlan(db.plans, o.planId))
  }

  function SyncRowsUpTo(db: Db, rows: seq<RemotePosition>, now: Time, cfg: Config, n: nat): (r: Db)
    requires n <= |rows|
    ensures |r.orders| == |db.orders| && |r.plans| == |db.plans| && |db.positions| <= |r.positions|
    ensures r.deals == db.deals && r.issues == db.issues && r.gate == db.gate && r.buyLog == db.buyLog
  {
    if n == 0 then db else SyncRow(SyncRowsUpTo(db, rows, now, cfg, n - 1), rows[n - 1], now, cfg)
  }

  // ------------------------------------------------ positions gone remotely

  predicate IsFilledSell(o: Order, s: Symbol) {
    o.symbol == s && o.side.Sell? && (o.status.Filled? || o.status.FilledInferred?)
  }

  /** The newest filled SELL of a symbol: latest submission, then highest id. */
  function FilledSell(os: seq<Order>, s: Symbol): (r: Option<nat>)
    ensures r.Some? ==> r.value < |os| && IsFilledSell(os[r.value], s)
  {
    if os == [] then None
    else
      var n := |os| - 1;
      var best := FilledSell(os[..n], s);
      if IsFilledSell(os[n], s) && (best.None? || os[best.value].submittedAt <= os[n].submittedAt)
      then Some(n) else best
  }

  predicate RemoteBacked(p: Position) {
    p.source.FutuDetected? || p.source.LocalAndFutuConfirmed?
  }

  predicate Gone(p: Position, seen: set<Symbol>) {
    p.status.Open? && p.symbol !in seen && RemoteBacked(p)
  }

  function ClosedLocally(p: Position, os: seq<Order>, now: Time): (q: Position)
    ensures q.symbol == p.symbol && !q.status.Open?
    ensures q.planId == p.planId && q.entryOrderId == p.entryOrderId && q.isOrphan == p.isOrphan
    ensures q.stopPrice == p.stopPrice && q.trailingStop == p.trailingStop
  {
    var sell := FilledSell(os, p.symbol);
    var mark := if p.exitMark.NoExit? then Vanished else p.exitMark;
    if sell.Some? then
      var o := os[sell.value];
      var exit := OrElse(o.dealtAvg, o.limitPrice);
      p.(status := Closed, exitOrderId := sell, exitPrice := Some(exit),
         realizedPnl := Some((exit - p.entryPrice) * DealtOrOrdered(o) as real),
         closeVerified := true, shares := 0, availableShares := 0, exitMark := mark, lastSynced := Some(now))
    else
      p.(status := ClosedUnverified, exitPrice := None, realizedPnl := None, closeVerified := false,
         exitMark := mark, availableShares := 0, lastSynced := Some(now))
  }

  function AfterCheck(p: Position, os: seq<Order>, seen: set<Symbol>, now: Time): Position {
    if Gone(p, seen) then ClosedLocally(p, os, now) else p
  }

  function CoolPlan(plans: seq<Plan>, planId: Option<nat>): (r: seq<Plan>)
    ensures |r| == |plans|
  {
    if planId.Some? && planId.value < |plans| && plans[planId.value].status.InPosition?
    then plans[planId.value := plans[planId.value].(status := CoolingDown)] else plans
  }

  function CloseOne(db: Db, k: nat, seen: set<Symbol>, now: Time): (r: Db)
    requires k < |db.positions|
    ensures r.orders == db.orders && |r.plans| == |db.plans|
    ensures r.deals == db.deals && r.issues == db.issues && r.gate == db.gate && r.buyLog == db.buyLog && r.fillLog == db.fillLog
    ensures r.positions == db.positions[k := AfterCheck(db.positions[k], db.orders, seen, now)]
  {
    var p := db.positions[k];
    if !Gone(p, seen) then db
    else db.(positions := db.positions[k := ClosedLocally(p, db.orders, now)], plans := CoolPlan(db.plans, p.planId))
  }

  function CloseUpTo(db: Db, seen: set<Symbol>, now: Time, n: nat): (r: Db)
    requires n <= |db.positions|
    ensures r.orders == db.orders && |r.plans| == |db.plans| && |r.positions| == |db.positions|
    ensures r.deals == db.deals && r.issues == db.issues && r.gate == db.gate && r.buyLog == db.buyLog && r.fillLog == db.fillLog
  {
    if n == 0 then db else CloseOne(CloseUpTo(db, seen, now, n - 1), n - 1, seen, now)
  }

  /** `sync_futu_positions_to_local`; a failed read leaves every table alone. */
  function SyncPositions(db: Db, a: PositionAnswers, cfg: Config): (r: Db)
    ensures |r.orders| == |db.orders| && |r.plans| == |db.plans| && |db.positions| <= |r.positions|
    ensures r.deals == db.deals && r.issues == db.issues && r.gate == db.gate && r.buyLog == db.buyLog
  {
    if a.rows.ReadError? then db
    else
      var adopted := SyncRowsUpTo(db, a.rows.rows, a.now, cfg, |a.rows.rows|);
      CloseUpTo(adopted, Seen(a.rows.rows), a.now, |adopted.positions|)
  }

  // ------------------------------------------------------- the method form

  method SyncPositionRow(store: Store, row: RemotePosition, now: Time, cfg: Config)
    modifies store
    ensures store.Snapshot() == SyncRow(old(store.Snapshot()), row, now, cfg)
  {
    if row.qty <= 0 || row.symbol == "" {
      return;
    }
    var at := FindPosition(store.positions, row.symbol);
    var entry := MatchingEntry(store.orders, row.symbol, row.qty, row.cost, now, cfg);
    if at.None? {
      if entry.Some? {
        var order := store.orders[entry.value];
        store.positions := store.positions + [Overwritten(FromRemote(row, entry, order.planId, cfg), row, now, cfg)];
        store.orders := store.orders[entry.value := InferFill(order, row)];
        store.fillLog := store.fillLog + [entry.value];
        store.plans := EnterPlan(store.plans, order.planId);
      } else {
        store.positions := store.positions + [Overwritten(FromRemote(row, None, None, cfg), row, now, cfg)];
      }
    } else {
      var position := Reconfirmed(store.positions[at.value]);
      store.positions := store.positions[at.value := Overwritten(position, row, now, cfg)];
    }
  }

  method AdoptRows(store: Store, rows: seq<RemotePosition>, now: Time, cfg: Config) returns (seen: set<Symbol>)
    modifies store
    ensures store.Snapshot() == SyncRowsUpTo(old(store.Snapshot()), rows, now, cfg, |rows|)
    ensures seen == Seen(rows)
  {
    seen := {};
    for i := 0 to |rows|
      invariant store.Snapshot() == SyncRowsUpTo(old(store.Snapshot()), rows, now, cfg, i)
      invariant seen == SeenUpTo(rows, i)
    {
      SyncPositionRow(store, rows[i], now, cfg);
      if rows[i].qty > 0 && rows[i].symbol != "" {
        seen := seen + {rows[i].symbol};
      }
    }
  }

  method ClosePosition(store: Store, k: nat, seen: set<Symbol>, now: Time)
    requires k < |store.positions|
    modifies store
    ensures store.Snapshot() == CloseOne(old(store.Snapshot()), k, seen, now)
  {
    var position := store.positions[k];
    if position.status.Open? && position.symbol !in seen && RemoteBacked(position) {
      store.positions := store.positions[k := ClosedLocally(position, store.orders, now)];
      store.plans := CoolPlan(store.plans, position.planId);
    }
  }

  method CloseMissing(store: Store, seen: set<Symbol>, now: Time)
    modifies store
    ensures store.Snapshot() == CloseUpTo(old(store.Snapshot()), seen, now, |old(store.positions)|)
  {
    for k := 0 to |store.positions|
      invariant |store.positions| == |old(store.positions)|
      invariant store.Snapshot() == CloseUpTo(old(store.Snapshot()), seen, now, k)
    {
      ClosePosition(store, k, seen, now);
    }
  }

  method SyncFutuPositions(store: Store, a: PositionAnswers, cfg: Config)
    modifies store
    ensures store.Snapshot() == SyncPositions(old(store.Snapshot()), a, cfg)
  {
    if a.rows.Got? {
      var seen := AdoptRows(store, a.rows.rows, a.now, cfg);
      CloseMissing(store, seen, a.now);
    }
  }

  // ------------------------------------------------- what one sync leaves

  lemma {:induction false} PositionsAfterClose(db: Db, seen: set<Symbol>, now: Time, n: nat)
    requires n <= |db.positions|
    ensures var r := CloseUpTo(db, seen, now, n);
      forall k :: 0 <= k < |db.positions| ==>
        r.positions[k] == (if k < n then AfterCheck(db.positions[k], db.orders, seen, now) else db.positions[k])
  {
    if n > 0 {
      PositionsAfterClose(db, seen, now, n - 1);
    }
  }
}
