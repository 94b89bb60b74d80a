/** What position sync makes of each remote row and each local position, on their fields (app/services/position_sync.py). */
module PositionRules {
  import opened Common
  import opened Ledger
  import opened PositionSync
  import opened OrderRules

  // ------------------------------------------------------------ a remote row

  /** The row names a symbol and holds shares of it. */
  predicate Holds(row: RemotePosition) {
    row.qty > 0 && row.symbol != ""
  }

  /** A price that is not positive is read off the market value, if that is positive. */
  predicate PricedAt(row: RemotePosition, price: real)
    requires row.qty > 0
  {
    if row.price <= 0.0 && row.marketValue > 0.0 then price == row.marketValue / row.qty as real else price == row.price
  }

  predicate Set(x: Option<real>) {
    x.Some? && x.value != 0.0
  }

  /** What a remote row overwrites: status, shares, what can be sold, cost, price and time; an orphan's levels follow its cost. */
  ghost predicate Overwrites(p: Position, row: RemotePosition, now: Time, cfg: Config, q: Position)
    requires row.qty > 0
  {
    && q == p.(status := Open, shares := row.qty, availableShares := q.availableShares, entryPrice := q.entryPrice, currentPrice := q.currentPrice,
               lastSynced := Some(now), takePct := q.takePct, stopPct := q.stopPct, stopPrice := q.stopPrice, target1 := q.target1)
    && q.availableShares == (if row.sellable.None? then row.qty else if row.sellable.value < 0 then 0 else row.sellable.value)
    && q.entryPrice == (if row.cost != 0.0 then row.cost else p.entryPrice)
    && (exists price :: PricedAt(row, price) && q.currentPrice == if price != 0.0 then Some(price) else p.currentPrice)
    && if p.isOrphan then
         && q.takePct.Some? && q.takePct.value == (if Set(p.takePct) then p.takePct.value else cfg.orphanTakePct)
         && q.stopPct.Some? && q.stopPct.value == (if Set(p.stopPct) then p.stopPct.value else cfg.orphanStopPct)
         && q.stopPrice == q.entryPrice * (1.0 - q.stopPct.value)
         && q.target1.Some? && q.target1.value == q.entryPrice * (1.0 + q.takePct.value)
       else q.takePct == p.takePct && q.stopPct == p.stopPct && q.stopPrice == p.stopPrice && q.target1 == p.target1
  }

  /** A known row is confirmed if it names its plan or order, and becomes an orphan if it names neither. */
  predicate Confirms(p: Position, q: Position) {
    if p.planId.Some? || p.entryOrderId.Some? then q == p.(source := LocalAndFutuConfirmed) else q == p.(source := FutuDetected, isOrphan := true)
  }

  /** A new row at the remote cost: of the matched order and its plan, or an orphan. */
  ghost predicate Adopts(row: RemotePosition, entry: Option<nat>, planId: Option<nat>, cfg: Config, q: Position) {
    && q.symbol == row.symbol && q.entryPrice == row.cost && q.stopPrice == row.cost * (1.0 - cfg.orphanStopPct) && q.trailingStop.None?
    && q.target1.Some? && q.target1.value == row.cost * (1.0 + cfg.orphanTakePct) && q.target2.None? && !q.partialExitDone
    && q.takePct == Some(cfg.orphanTakePct) && q.stopPct == Some(cfg.orphanStopPct)
    && q.source == (if entry.Some? then LocalAndFutuConfirmed else FutuDetected) && q.isOrphan == entry.None?
    && q.planId == planId && q.entryOrderId == entry && q.status.Open? && q.shares == row.qty && q.availableShares == 0
    && StartsClean(q.(takePct := None, stopPct := None))
  }

  // -------------------------------------------------------------- the entry

  /** A BUY of the symbol that is submitted, partial or missing remotely. */
  predicate Awaits(o: Order, s: Symbol) {
    o.symbol == s && o.side.Buy? && (o.status.Submitted? || o.status.PartiallyFilled? || o.status.UnknownRemoteMissing?)
  }

  /** The price the order stands for: dealt, limited or submitted, the first that is not zero. */
  function StandsFor(o: Order): real {
    if Set(o.dealtAvg) then o.dealtAvg.value else if o.limitPrice != 0.0 then o.limitPrice else o.submittedPrice
  }

  /** Within one share or 5 percent of the holding, of today or inside the window, and within 3 percent of the cost where both prices are known. */
  predicate Fits(o: Order, qty: int, cost: real, now: Time, window: int) {
    var expected := if o.dealtQty > 0 then o.dealtQty else o.qty;
    var off := if expected < qty then qty - expected else expected - qty;
    && (off <= 1 || off as real <= qty as real * 0.05)
    && (o.submittedAt / 86400 == now / 86400 || o.submittedAt + window >= now)
    && (cost > 0.0 && StandsFor(o) != 0.0 ==>
          var apart := if StandsFor(o) < cost then cost - StandsFor(o) else StandsFor(o) - cost; apart / cost <= 0.03)
  }

  /** Order `i` is the only BUY that awaits the symbol, and it fits the holding. */
  predicate Matches(os: seq<Order>, s: Symbol, qty: int, cost: real, now: Time, window: int, i: int) {
    0 <= i < |os| && Awaits(os[i], s) && Fits(os[i], qty, cost, now, window) && forall j :: 0 <= j < |os| && Awaits(os[j], s) ==> j == i
  }

  lemma {:induction false} CandidatesOnce(os: seq<Order>, s: Symbol)
    ensures forall j, k :: 0 <= j < k < |EntryCandidates(os, s)| ==> EntryCandidates(os, s)[j] < EntryCandidates(os, s)[k]
  {
    if os != [] {
      var init := EntryCandidates(os[..|os| - 1], s);
      CandidatesOnce(os[..|os| - 1], s);
      assert forall k :: 0 <= k < |init| ==> init[k] in init;
    }
  }

  lemma FitsIff(o: Order, qty: int, cost: real, now: Time, cfg: Config)
    ensures Fits(o, qty, cost, now, cfg.matchWindow) <==>
      QuantityMatches(o, qty) && TimeMatches(o, now, cfg) && (PriceKnown(o, cost) ==> PriceMatches(o, cost))
  {
    assert StandsFor(o) == ReferencePrice(o);
  }

  lemma MatchIsUnique(os: seq<Order>, s: Symbol, qty: int, cost: real, now: Time, cfg: Config)
    ensures forall i :: Matches(os, s, qty, cost, now, cfg.matchWindow, i) <==> i >= 0 && MatchingEntry(os, s, qty, cost, now, cfg) == Some(i)
  {
    hide Fits, QuantityMatches, TimeMatches, PriceKnown, PriceMatches;
    var ids := EntryCandidates(os, s);
    CandidatesOnce(os, s);
    forall i: nat | i < |os| ensures i in ids <==> Awaits(os[i], s) {
    }
    if |ids| == 1 {
      assert ids[0] in ids;
      FitsIff(os[ids[0]], qty, cost, now, cfg);
    } else if |ids| >= 2 {
      assert ids[0] in ids && ids[1] in ids && ids[0] < ids[1];
    }
  }

  // --------------------------------------------------------------- one row

  /** The only order that fits is inferred filled, its position adopted, its plan in position. */
  ghost predicate Fills(db: Db, row: RemotePosition, now: Time, cfg: Config, i: nat, p: Position, r: Db)
    requires row.qty > 0 && |r.positions| == |db.positions| + 1
  {
    && Matches(db.orders, row.symbol, row.qty, row.cost, now, cfg.matchWindow, i)
    && Adopts(row, Some(i), db.orders[i].planId, cfg, p) && Overwrites(p, row, now, cfg, r.positions[|db.positions|])
    && r.orders == db.orders[i := db.orders[i].(status := FilledInferred, dealtQty := row.qty, dealtAvg := Some(row.cost))]
    && r.fillLog == db.fillLog + [i] && PlanGets(db.plans, db.orders[i].planId, InPosition, r.plans)
  }

  /** What a remote row leaves: its symbol's row overwritten, or a new one, with the matched order inferred filled and its plan in position. */
  ghost predicate RowLeaves(db: Db, row: RemotePosition, now: Time, cfg: Config, r: Db) {
    if !Holds(row) then r == db
    else if exists k :: FirstRow(db.positions, row.symbol, k) then
      && r == db.(positions := r.positions) && |r.positions| == |db.positions|
      && exists k, p :: FirstRow(db.positions, row.symbol, k) && Confirms(db.positions[k], p)
           && r.positions == db.positions[k := r.positions[k]] && Overwrites(p, row, now, cfg, r.positions[k])
    else
      && |r.positions| == |db.positions| + 1 && r.positions[..|db.positions|] == db.positions
      && r.deals == db.deals && r.issues == db.issues && r.gate == db.gate && r.buyLog == db.buyLog
      && if exists i: nat :: Matches(db.orders, row.symbol, row.qty, row.cost, now, cfg.matchWindow, i) then
           exists i: nat, p :: Fills(db, row, now, cfg, i, p, r)
         else
           (exists p :: Adopts(row, None, None, cfg, p) && Overwrites(p, row, now, cfg, r.positions[|db.positions|]))
           && r.orders == db.orders && r.fillLog == db.fillLog && r.plans == db.plans
  }

  lemma OverwritesByRule(p: Position, row: RemotePosition, now: Time, cfg: Config)
    requires Holds(row)
    ensures Overwrites(p, row, now, cfg, Overwritten(p, row, now, cfg))
  {
    assert PricedAt(row, RowPrice(row));
  }

  lemma AdoptsByRule(row: RemotePosition, entry: Option<nat>, planId: Option<nat>, cfg: Config)
    ensures Adopts(row, entry, planId, cfg, FromRemote(row, entry, planId, cfg))
  {
  }

  /** Each remote row does what its fields and the local rows call for. */
  lemma RowsByRule(db: Db, row: RemotePosition, now: Time, cfg: Config)
    ensures RowLeaves(db, row, now, cfg, SyncRow(db, row, now, cfg))
  {
    hide FirstRow, Matches, Overwrites, Adopts, Overwritten, FromRemote, MatchingEntry;
    if Holds(row) {
      FindsFirst(db.positions, row.symbol);
      var at := FindPosition(db.positions, row.symbol);
      if at.Some? {
        assert FirstRow(db.positions, row.symbol, at.value);
        var p := Reconfirmed(db.positions[at.value]);
        assert Confirms(db.positions[at.value], p);
        OverwritesByRule(p, row, now, cfg);
      } else {
        MatchIsUnique(db.orders, row.symbol, row.qty, row.cost, now, cfg);
        var entry := MatchingEntry(db.orders, row.symbol, row.qty, row.cost, now, cfg);
        var planId := if entry.Some? then db.orders[entry.value].planId else None;
        var p := FromRemote(row, entry, planId, cfg);
        AdoptsByRule(row, entry, planId, cfg);
        OverwritesByRule(p, row, now, cfg);
        if entry.Some? {
          var i, r := entry.value, SyncRow(db, row, now, cfg);
          assert Matches(db.orders, row.symbol, row.qty, row.cost, now, cfg.matchWindow, i);
          assert r.orders == db.orders[i := db.orders[i].(status := FilledInferred, dealtQty := row.qty, dealtAvg := Some(row.cost))];
          assert PlanGets(db.plans, db.orders[i].planId, InPosition, r.plans);
          assert Adopts(row, Some(i), db.orders[i].planId, cfg, p);
          assert Fills(db, row, now, cfg, i, p, r);
        }
      }
    }
  }

  // ------------------------------------------------------- gone remotely

  /** The newest filled SELL of the symbol: no other was submitted later, nor at the same time under a greater id. */
  predicate NewestSell(os: seq<Order>, s: Symbol, i: int) {
    && 0 <= i < |os| && SoldOut(os[i], s)
    && forall j :: 0 <= j < |os| && SoldOut(os[j], s) ==> os[j].submittedAt < os[i].submittedAt || (os[j].submittedAt == os[i].submittedAt && j <= i)
  }

  predicate SoldOut(o: Order, s: Symbol) {
    o.symbol == s && o.side.Sell? && (o.status.Filled? || o.status.FilledInferred?)
  }

  lemma {:induction false} SellIsNewest(os: seq<Order>, s: Symbol)
    ensures forall i :: NewestSell(os, s, i) <==> i >= 0 && FilledSell(os, s) == Some(i)
    ensures FilledSell(os, s).None? ==> forall i :: 0 <= i < |os| ==> !SoldOut(os[i], s)
  {
    if os != [] {
      var n := |os| - 1;
      SellIsNewest(os[..n], s);
      var best := FilledSell(os[..n], s);
      assert forall j :: 0 <= j < n ==> os[..n][j] == os[j];
      if best.Some? {
        assert NewestSell(os[..n], s, best.value);
      }
      var r := FilledSell(os, s);
      if r.Some? {
        assert NewestSell(os, s, r.value);
      }
    }
  }

  /** An OPEN row that came from the remote account, whose symbol no remote row holds any more. */
  predicate Vanishes(p: Position, rows: seq<RemotePosition>) {
    && p.status.Open? && (p.source.FutuDetected? || p.source.LocalAndFutuConfirmed?)
    && forall i :: 0 <= i < |rows| && Holds(rows[i]) ==> rows[i].symbol != p.symbol
  }

  /** Closed and verified by the newest filled SELL of the symbol; without one, closed unverified with its shares. */
  ghost predicate Closes(p: Position, os: seq<Order>, now: Time, q: Position) {
    && q.availableShares == 0 && q.lastSynced == Some(now) && q.exitMark == (if p.exitMark.NoExit? then Vanished else p.exitMark)
    && if exists i :: NewestSell(os, p.symbol, i) then
         exists i: nat, price, sold :: NewestSell(os, p.symbol, i) && FilledAt(os[i], price, sold)
           && q == p.(status := Closed, shares := 0, availableShares := 0, exitOrderId := Some(i), exitPrice := Some(price), closeVerified := true,
                      realizedPnl := q.realizedPnl, exitMark := q.exitMark, lastSynced := Some(now))
           && q.realizedPnl.Some? && q.realizedPnl.value == (price - p.entryPrice) * sold as real
       else
         q == p.(status := ClosedUnverified, availableShares := 0, exitPrice := None, realizedPnl := None, closeVerified := false,
                 exitMark := q.exitMark, lastSynced := Some(now))
  }

  lemma ClosedByRule(p: Position, os: seq<Order>, now: Time)
    ensures Closes(p, os, now, ClosedLocally(p, os, now))
  {
    hide NewestSell;
    SellIsNewest(os, p.symbol);
    var sell := FilledSell(os, p.symbol);
    if sell.Some? {
      assert NewestSell(os, p.symbol, sell.value);
      assert FilledAt(os[sell.value], OrElse(os[sell.value].dealtAvg, os[sell.value].limitPrice), DealtOrOrdered(os[sell.value]));
    }
  }

  /** One turn of the closing loop: a vanished row closes and its plan, if in position, cools down; any other stays. */
  lemma VanishedByRule(db: Db, k: nat, rows: seq<RemotePosition>, now: Time)
    requires k < |db.positions|
    ensures var p, r := db.positions[k], CloseOne(db, k, Seen(rows), now);
      if !Vanishes(p, rows) then r == db
      else
        && r == db.(positions := r.positions, plans := r.plans) && |r.positions| == |db.positions| && r.positions == db.positions[k := r.positions[k]]
        && Closes(p, db.orders, now, r.positions[k])
        && if p.planId.Some? && p.planId.value < |db.plans| && db.plans[p.planId.value].status.InPosition?
           then PlanGets(db.plans, p.planId, CoolingDown, r.plans) else r.plans == db.plans
  {
    hide Closes, ClosedLocally;
    var p := db.positions[k];
    ClosedByRule(p, db.orders, now);
    assert p.symbol in Seen(rows) <==> exists i :: 0 <= i < |rows| && IsHolding(rows[i]) && rows[i].symbol == p.symbol;
  }

  /** The whole sync: the remote rows one by one, then every local row in turn. */
  lemma SyncRunsBothLoops(db: Db, a: PositionAnswers, cfg: Config, n: nat)
    ensures a.rows.ReadError? ==> SyncPositions(db, a, cfg) == db
    ensures a.rows.Got? ==>
      var rows := a.rows.rows;
      var adopted := SyncRowsUpTo(db, rows, a.now, cfg, |rows|);
      && SyncRowsUpTo(db, rows, a.now, cfg, 0) == db && CloseUpTo(adopted, Seen(rows), a.now, 0) == adopted
      && SyncPositions(db, a, cfg) == CloseUpTo(adopted, Seen(rows), a.now, |adopted.positions|)
      && (n < |rows| ==> RowLeaves(SyncRowsUpTo(db, rows, a.now, cfg, n), rows[n], a.now, cfg, SyncRowsUpTo(db, rows, a.now, cfg, n + 1)))
  {
    hide RowLeaves, SyncRow;
    if a.rows.Got? && n < |a.rows.rows| {
      RowsByRule(SyncRowsUpTo(db, a.rows.rows, a.now, cfg, n), a.rows.rows[n], a.now, cfg);
    }
  }
}
