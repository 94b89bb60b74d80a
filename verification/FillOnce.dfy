/** Fills are applied once: what runs of order and position syncs keep when there is no deals feed. */
module FillOnce {
  import opened Common
  import opened Ledger
  import opened OrderSync
  import opened PositionSync

  predicate NoDeals(a: OrderAnswers) {
    DealRows(a.deals) == []
  }

  /** The simulated account has no deals feed. */
  lemma SyncWithoutDeals(db: Db, a: OrderAnswers, timeout: int)
    requires NoDeals(a) && SyncOrders(db, a, timeout).Got?
    ensures a.orders.Got? && SyncOrders(db, a, timeout).rows == SyncUpTo(db, a.orders.rows, a, timeout, |db.orders|)
    ensures !InsertsClash(SyncOrders(db, a, timeout).rows.positions, |db.positions|)
  {
  }

  // -------------------------------------------------- settled is absorbing

  datatype Sync = OfOrders(orders: OrderAnswers) | OfPositions(positions: PositionAnswers)

  function AfterSync(db: Db, s: Sync, cfg: Config): Db {
    match s
    case OfOrders(a) =>
      var r := SyncOrders(db, a, cfg.entryTimeout);
      if r.Got? then r.rows else db
    case OfPositions(a) => SyncPositions(db, a, cfg)
  }

  function AfterSyncs(db: Db, ss: seq<Sync>, cfg: Config): Db {
    if ss == [] then db else AfterSync(AfterSyncs(db, ss[..|ss| - 1], cfg), ss[|ss| - 1], cfg)
  }

  ghost predicate WithoutDeals(ss: seq<Sync>) {
    forall i :: 0 <= i < |ss| && ss[i].OfOrders? ==> NoDeals(ss[i].orders)
  }

  /** Settled rows are kept as they are, and an unresolved row keeps its identity. */
  ghost predicate SettledRowsKept(os: seq<Order>, os': seq<Order>) {
    && |os| <= |os'|
    && (forall i :: 0 <= i < |os| && !Unresolved(os[i].status) ==> os'[i] == os[i])
    && (forall i :: 0 <= i < |os| ==> os'[i].symbol == os[i].symbol && os'[i].side == os[i].side && os'[i].qty == os[i].qty)
  }

  lemma OrderSyncKeepsSettled(db: Db, a: OrderAnswers, timeout: int)
    requires NoDeals(a) && SyncOrders(db, a, timeout).Got?
    ensures SettledRowsKept(db.orders, SyncOrders(db, a, timeout).rows.orders)
  {
    hide SyncUpTo, SyncOrders, SyncedOrder;
    SyncWithoutDeals(db, a, timeout);
    OrdersAfterSync(db, a.orders.rows, a, timeout, |db.orders|);
    forall i | 0 <= i < |db.orders| {
      SyncedKeepsSettled(db.orders[i], i, a.orders.rows, a, timeout);
    }
  }

  lemma {:induction false} PositionRowsKeepSettled(db: Db, rows: seq<RemotePosition>, now: Time, cfg: Config, n: nat)
    requires n <= |rows|
    ensures SettledRowsKept(db.orders, SyncRowsUpTo(db, rows, now, cfg, n).orders)
  {
    if n > 0 {
      PositionRowsKeepSettled(db, rows, now, cfg, n - 1);
      SyncRowKeepsSettled(SyncRowsUpTo(db, rows, now, cfg, n - 1), rows[n - 1], now, cfg);
    }
  }

  lemma SyncRowKeepsSettled(db: Db, row: RemotePosition, now: Time, cfg: Config)
    ensures SettledRowsKept(db.orders, SyncRow(db, row, now, cfg).orders)
  {
  }

  lemma PositionSyncKeepsSettled(db: Db, a: PositionAnswers, cfg: Config)
    ensures SettledRowsKept(db.orders, SyncPositions(db, a, cfg).orders)
  {
    if a.rows.Got? {
      PositionRowsKeepSettled(db, a.rows.rows, a.now, cfg, |a.rows.rows|);
    }
  }

  lemma SyncKeepsSettled(db: Db, s: Sync, cfg: Config)
    requires s.OfOrders? ==> NoDeals(s.orders)
    ensures SettledRowsKept(db.orders, AfterSync(db, s, cfg).orders)
  {
    match s
    case OfOrders(a) =>
      if SyncOrders(db, a, cfg.entryTimeout).Got? {
        OrderSyncKeepsSettled(db, a, cfg.entryTimeout);
      }
    case OfPositions(a) => PositionSyncKeepsSettled(db, a, cfg);
  }

  /** Over any run, FILLED, FILLED_INFERRED, CANCELLED and FAILED rows never change again. */
  lemma {:induction false} SettledIsAbsorbing(db: Db, ss: seq<Sync>, cfg: Config)
    requires WithoutDeals(ss)
    ensures SettledRowsKept(db.orders, AfterSyncs(db, ss, cfg).orders)
  {
    if ss != [] {
      SettledIsAbsorbing(db, ss[..|ss| - 1], cfg);
      SyncKeepsSettled(AfterSyncs(db, ss[..|ss| - 1], cfg), ss[|ss| - 1], cfg);
    }
  }

  // ------------------------------------------------- fills are applied once

  predicate IsFilled(o: Order) {
    o.status.Filled? || o.status.FilledInferred?
  }

  predicate Fills(o: Order, o': Order) {
    Unresolved(o.status) && IsFilled(o')
  }

  /** The orders a fill was applied for between two moments of the log. */
  function NewFills(before: Db, after: Db): seq<nat>
    requires |before.fillLog| <= |after.fillLog|
  {
    after.fillLog[|before.fillLog|..]
  }

  ghost predicate NoRepeats(ids: seq<nat>) {
    forall i, j :: 0 <= i < j < |ids| ==> ids[i] != ids[j]
  }

  /** The log grew by orders that went from unresolved to filled: by all of them, and by each once. */
  ghost predicate LogsEachFillOnce(db: Db, r: Db) {
    && |r.orders| == |db.orders| && SettledRowsKept(db.orders, r.orders)
    && db.fillLog <= r.fillLog && NoRepeats(NewFills(db, r))
    && (forall i: nat :: i in NewFills(db, r) <==> i < |db.orders| && Fills(db.orders[i], r.orders[i]))
  }

  lemma NothingFilled(db: Db, r: Db)
    requires r.orders == db.orders && r.fillLog == db.fillLog
    ensures LogsEachFillOnce(db, r)
  {
  }

  lemma RepeatFree(ids: seq<nat>, more: seq<nat>)
    requires NoRepeats(ids) && NoRepeats(more) && forall i :: i in ids ==> i !in more
    ensures NoRepeats(ids + more)
  {
    var all := ids + more;
    forall i, j | 0 <= i < j < |all| ensures all[i] != all[j] {
      assert i < |ids| <= j ==> all[i] in ids && all[j] in more;
    }
  }

  lemma SettledCompose(os: seq<Order>, ps: seq<Order>, qs: seq<Order>)
    requires |os| == |ps| == |qs| && SettledRowsKept(os, ps) && SettledRowsKept(ps, qs)
    ensures SettledRowsKept(os, qs)
    ensures forall i :: 0 <= i < |os| ==> (Fills(os[i], qs[i]) <==> Fills(os[i], ps[i]) || Fills(ps[i], qs[i]))
    ensures forall i :: 0 <= i < |os| ==> !(Fills(os[i], ps[i]) && Fills(ps[i], qs[i]))
  {
  }

  lemma LogsCompose(a: Db, b: Db, c: Db)
    requires LogsEachFillOnce(a, b) && LogsEachFillOnce(b, c)
    ensures LogsEachFillOnce(a, c)
  {
    SettledCompose(a.orders, b.orders, c.orders);
    hide Fills, SettledRowsKept, NoRepeats;
    var first, second := NewFills(a, b), NewFills(b, c);
    assert NewFills(a, c) == first + second;
    RepeatFree(first, second);
    forall i: nat ensures i in NewFills(a, c) <==> i < |a.orders| && Fills(a.orders[i], c.orders[i]) {
      assert i in first + second <==> i in first || i in second;
    }
  }

  /** One changed row, logged exactly when the change is a fill. */
  lemma OneRowLogs(db: Db, r: Db, i: nat, o: Order)
    requires i < |db.orders| && r.orders == db.orders[i := o] && (Unresolved(db.orders[i].status) || o == db.orders[i])
    requires o.symbol == db.orders[i].symbol && o.side == db.orders[i].side && o.qty == db.orders[i].qty
    requires r.fillLog == if Fills(db.orders[i], o) then db.fillLog + [i] else db.fillLog
    ensures LogsEachFillOnce(db, r)
  {
    assert NewFills(db, r) == if Fills(db.orders[i], o) then [i] else [];
  }

  lemma SyncOneLogs(db: Db, seen: seq<Position>, i: nat, rows: seq<RemoteOrder>, a: OrderAnswers, timeout: int)
    requires i < |db.orders| && |seen| <= |db.positions|
    ensures LogsEachFillOnce(db, SyncOne(db, seen, i, rows, a, timeout))
  {
    var o := db.orders[i];
    SyncedKeepsSettled(o, i, rows, a, timeout);
    OneRowLogs(db, SyncOne(db, seen, i, rows, a, timeout), i, SyncedOrder(o, i, rows, a, timeout));
  }

  lemma {:induction false} OrderLoopLogs(db: Db, rows: seq<RemoteOrder>, a: OrderAnswers, timeout: int, n: nat)
    requires n <= |db.orders|
    ensures LogsEachFillOnce(db, SyncUpTo(db, rows, a, timeout, n))
  {
    hide SyncOne, LogsEachFillOnce;
    if n == 0 {
      NothingFilled(db, db);
    } else {
      var prev := SyncUpTo(db, rows, a, timeout, n - 1);
      OrderLoopLogs(db, rows, a, timeout, n - 1);
      SyncOneLogs(prev, db.positions, n - 1, rows, a, timeout);
      LogsCompose(db, prev, SyncOne(prev, db.positions, n - 1, rows, a, timeout));
    }
  }

  lemma SyncRowLogs(db: Db, row: RemotePosition, now: Time, cfg: Config)
    ensures LogsEachFillOnce(db, SyncRow(db, row, now, cfg))
  {
    hide Overwritten, Reconfirmed, FromRemote, LogsEachFillOnce;
    var r := SyncRow(db, row, now, cfg);
    if r.orders == db.orders && r.fillLog == db.fillLog {
      NothingFilled(db, r);
    } else {
      var entry := MatchingEntry(db.orders, row.symbol, row.qty, row.cost, now, cfg);
      OneRowLogs(db, r, entry.value, InferFill(db.orders[entry.value], row));
    }
  }

  lemma {:induction false} PositionLoopLogs(db: Db, rows: seq<RemotePosition>, now: Time, cfg: Config, n: nat)
    requires n <= |rows|
    ensures LogsEachFillOnce(db, SyncRowsUpTo(db, rows, now, cfg, n))
  {
    hide SyncRow, LogsEachFillOnce;
    if n == 0 {
      NothingFilled(db, db);
    } else {
      var prev := SyncRowsUpTo(db, rows, now, cfg, n - 1);
      PositionLoopLogs(db, rows, now, cfg, n - 1);
      SyncRowLogs(prev, rows[n - 1], now, cfg);
      LogsCompose(db, prev, SyncRow(prev, rows[n - 1], now, cfg));
    }
  }

  lemma SyncLogs(db: Db, s: Sync, cfg: Config)
    requires s.OfOrders? ==> NoDeals(s.orders)
    ensures LogsEachFillOnce(db, AfterSync(db, s, cfg))
  {
    hide LogsEachFillOnce, SyncRowsUpTo, SyncUpTo;
    NothingFilled(db, db);
    match s
    case OfOrders(a) =>
      if SyncOrders(db, a, cfg.entryTimeout).Got? {
        SyncWithoutDeals(db, a, cfg.entryTimeout);
        OrderLoopLogs(db, a.orders.rows, a, cfg.entryTimeout, |db.orders|);
      }
    case OfPositions(a) =>
      if a.rows.Got? {
        var adopted := SyncRowsUpTo(db, a.rows.rows, a.now, cfg, |a.rows.rows|);
        PositionLoopLogs(db, a.rows.rows, a.now, cfg, |a.rows.rows|);
        NothingFilled(adopted, AfterSync(db, s, cfg));
        LogsCompose(db, adopted, AfterSync(db, s, cfg));
      }
  }

  /**
   Over any run of order and position syncs a fill is applied at most once for each order: for exactly
   the orders that were unresolved at the start and are filled at the end, and for no other.
   */
  lemma {:induction false} FilledAtMostOnce(db: Db, ss: seq<Sync>, cfg: Config)
    requires WithoutDeals(ss)
    ensures LogsEachFillOnce(db, AfterSyncs(db, ss, cfg))
  {
    hide LogsEachFillOnce, AfterSync;
    if ss == [] {
      NothingFilled(db, db);
    } else {
      var prev := AfterSyncs(db, ss[..|ss| - 1], cfg);
      FilledAtMostOnce(db, ss[..|ss| - 1], cfg);
      SyncLogs(prev, ss[|ss| - 1], cfg);
      LogsCompose(db, prev, AfterSync(prev, ss[|ss| - 1], cfg));
    }
  }

  // ---------------------------------------- positions change by fills alone

  /** The positions after the logged fills, each order as the sync left it. */
  function FillsApplied(ps: seq<Position>, plans: seq<Plan>, os: seq<Order>, ids: seq<nat>): (r: seq<Position>)
    requires forall j :: 0 <= j < |ids| ==> ids[j] < |os|
    ensures |ps| <= |r|
  {
    if ids == [] then ps
    else
      var n := |ids| - 1;
      FillPositions(FillsApplied(ps, plans, os, ids[..n]), ps, plans, os[ids[n]], ids[n])
  }

  /** Equal but for the statuses. */
  ghost predicate SameLevels(plans: seq<Plan>, plans': seq<Plan>) {
    |plans| == |plans'| && forall i :: 0 <= i < |plans| ==> plans'[i] == plans[i].(status := plans'[i].status)
  }

  lemma FillIgnoresStatus(ps: seq<Position>, seen: seq<Position>, plans: seq<Plan>, plans': seq<Plan>, o: Order, i: nat)
    requires |seen| <= |ps| && SameLevels(plans, plans')
    ensures FillPositions(ps, seen, plans, o, i) == FillPositions(ps, seen, plans', o, i)
  {
  }

  lemma {:induction false} FillsFrame(ps: seq<Position>, plans: seq<Plan>, os: seq<Order>, os': seq<Order>, ids: seq<nat>)
    requires forall j :: 0 <= j < |ids| ==> ids[j] < |os| && ids[j] < |os'| && os[ids[j]] == os'[ids[j]]
    ensures FillsApplied(ps, plans, os, ids) == FillsApplied(ps, plans, os', ids)
  {
    if ids != [] {
      FillsFrame(ps, plans, os, os', ids[..|ids| - 1]);
    }
  }

  /** The loop up to row `n`: the log holds earlier rows only, and the positions are those of its fills. */
  ghost predicate LoopIsItsFills(db: Db, r: Db, n: nat) {
    && db.fillLog <= r.fillLog && SameLevels(db.plans, r.plans) && n <= |r.orders|
    && (forall j :: 0 <= j < |NewFills(db, r)| ==> NewFills(db, r)[j] < n)
    && r.positions == FillsApplied(db.positions, db.plans, r.orders, NewFills(db, r))
  }

  /** One turn of the loop logs nothing and moves no position, or it logs its order and applies its fill. */
  lemma OneTurnFills(db: Db, seen: seq<Position>, n: nat, rows: seq<RemoteOrder>, a: OrderAnswers, timeout: int)
    requires n < |db.orders| && |seen| <= |db.positions|
    ensures var r := SyncOne(db, seen, n, rows, a, timeout);
      && r.orders == db.orders[n := r.orders[n]] && SameLevels(db.plans, r.plans)
      && if r.fillLog == db.fillLog then r.positions == db.positions
         else r.fillLog == db.fillLog + [n] && r.positions == FillPositions(db.positions, seen, db.plans, r.orders[n], n)
  {
    hide FillPositions, RowOf, NormalizeStatus;
  }

  lemma OneTurnIsItsFill(db: Db, prev: Db, n: nat, rows: seq<RemoteOrder>, a: OrderAnswers, timeout: int)
    requires n < |prev.orders| && |db.positions| <= |prev.positions| && LoopIsItsFills(db, prev, n)
    ensures LoopIsItsFills(db, SyncOne(prev, db.positions, n, rows, a, timeout), n + 1)
  {
    hide FillPositions, SyncOne;
    var r := SyncOne(prev, db.positions, n, rows, a, timeout);
    var ids := NewFills(db, prev);
    OneTurnFills(prev, db.positions, n, rows, a, timeout);
    FillsFrame(db.positions, db.plans, prev.orders, r.orders, ids);
    if r.fillLog == prev.fillLog {
      assert NewFills(db, r) == ids;
    } else {
      assert NewFills(db, r) == ids + [n];
      assert (ids + [n])[..|ids|] == ids;
      FillIgnoresStatus(prev.positions, db.positions, db.plans, prev.plans, r.orders[n], n);
    }
  }

  lemma {:induction false} OrderLoopIsItsFills(db: Db, rows: seq<RemoteOrder>, a: OrderAnswers, timeout: int, n: nat)
    requires n <= |db.orders|
    ensures LoopIsItsFills(db, SyncUpTo(db, rows, a, timeout, n), n)
  {
    hide SyncOne, LoopIsItsFills;
    if n == 0 {
      NoFillsYet(db);
    } else {
      OrderLoopIsItsFills(db, rows, a, timeout, n - 1);
      OneTurnIsItsFill(db, SyncUpTo(db, rows, a, timeout, n - 1), n - 1, rows, a, timeout);
    }
  }

  lemma NoFillsYet(db: Db)
    ensures LoopIsItsFills(db, db, 0)
  {
    assert NewFills(db, db) == [];
  }

  /** An order sync changes the positions by the fills it logged, applied in the order of the log, and by nothing else. */
  lemma OrderSyncIsItsFills(db: Db, a: OrderAnswers, timeout: int)
    requires NoDeals(a) && SyncOrders(db, a, timeout).Got?
    ensures var r := SyncOrders(db, a, timeout).rows;
      && db.fillLog <= r.fillLog && (forall j :: 0 <= j < |NewFills(db, r)| ==> NewFills(db, r)[j] < |r.orders|)
      && r.positions == FillsApplied(db.positions, db.plans, r.orders, NewFills(db, r))
  {
    hide SyncUpTo, SyncOrders;
    SyncWithoutDeals(db, a, timeout);
    OrderLoopIsItsFills(db, a.orders.rows, a, timeout, |db.orders|);
  }

  // ---------------------------------------------------- shares are conserved

  function SoldBy(o: Order, s: Symbol): nat {
    if o.symbol == s && o.side.Sell? && o.status.Filled? then DealtOrOrdered(o) else 0
  }

  /** What the filled SELL orders of a symbol sold, over the first `n` rows. */
  function SoldUpTo(os: seq<Order>, s: Symbol, n: nat): nat
    requires n <= |os|
  {
    if n == 0 then 0 else SoldUpTo(os, s, n - 1) + SoldBy(os[n - 1], s)
  }

  function Sold(os: seq<Order>, s: Symbol): nat {
    SoldUpTo(os, s, |os|)
  }

  /** The fill of a SELL takes its shares exactly when the row is OPEN, or there is nothing to take or to sell. */
  lemma FillTakesSharesIff(db: Db, i: nat, k: nat)
    requires i < |db.orders| && k < |db.positions| && OneRowPerSymbol(db.positions)
    requires db.orders[i].side.Sell? && db.orders[i].symbol == db.positions[k].symbol && db.positions[k].shares >= 0
    ensures var p, sold := db.positions[k], DealtOrOrdered(db.orders[i]);
      ApplyFill(db, db.positions, i).positions[k].shares == MaxInt(0, p.shares - sold) <==> p.status.Open? || p.shares == 0 || sold == 0
  {
    var at := FindOpen(db.positions, db.orders[i].symbol);
    assert at.Some? ==> at.value == k;
  }

  /** Whatever shares a row has, it has while OPEN. */
  predicate Consistent(p: Position) {
    p.shares > 0 ==> p.status.Open?
  }

  /** While sales grew from `before` to `after`, the row lost as many shares, cut off at zero, if `takes`, and none if not. */
  predicate Tracks(p: Position, q: Position, takes: bool, before: int, after: int) {
    && before <= after && q.symbol == p.symbol && q.shares >= 0 && (Consistent(p) ==> Consistent(q))
    && q.shares == if takes then MaxInt(0, p.shares - (after - before)) else p.shares
  }

  lemma SellTracks(ps: seq<Position>, seen: seq<Position>, o: Order, i: nat, k: nat)
    requires k < |seen| <= |ps| && OneRowPerSymbol(seen) && ps[k].symbol == seen[k].symbol && ps[k].shares >= 0
    ensures var at := FindOpen(seen, o.symbol);
      Tracks(ps[k], if at == Some(k) then AfterSell(ps[k], o, i) else ps[k], seen[k].status.Open?, 0,
             if o.symbol == seen[k].symbol then DealtOrOrdered(o) else 0)
  {
    var at := FindOpen(seen, o.symbol);
    assert at.Some? && o.symbol == seen[k].symbol ==> at.value == k;
  }

  /** The fill of the order `o`: what it sells is taken from the row that was OPEN before the sync. */
  lemma FillTracks(ps: seq<Position>, seen: seq<Position>, plans: seq<Plan>, o: Order, i: nat, k: nat)
    requires k < |seen| <= |ps| && OneRowPerSymbol(seen) && ps[k].symbol == seen[k].symbol && ps[k].shares >= 0
    requires o.status.Filled?
    ensures Tracks(ps[k], FillPositions(ps, seen, plans, o, i)[k], seen[k].status.Open?, 0, SoldBy(o, seen[k].symbol))
  {
    hide AfterSell, DealtOrOrdered, OpenedFromFill, OneRowPerSymbol;
    SellTracks(ps, seen, o, i, k);
  }

  lemma TracksStill(p: Position, takes: bool, sold: int)
    requires p.shares >= 0
    ensures Tracks(p, p, takes, sold, sold)
  {
  }

  lemma TracksThen(p: Position, q: Position, r: Position, takes: bool, a: int, b: int, c: int, d: int)
    requires Tracks(p, q, takes, a, b) && Tracks(q, r, takes, c, d)
    ensures Tracks(p, r, takes, a + c, b + d)
  {
  }

  lemma SyncOneTracks(db: Db, seen: seq<Position>, i: nat, rows: seq<RemoteOrder>, a: OrderAnswers, timeout: int, k: nat)
    requires i < |db.orders| && k < |seen| <= |db.positions| && OneRowPerSymbol(seen)
    requires db.positions[k].symbol == seen[k].symbol && db.positions[k].shares >= 0
    ensures var s, r := seen[k].symbol, SyncOne(db, seen, i, rows, a, timeout);
      Tracks(db.positions[k], r.positions[k], seen[k].status.Open?, SoldBy(db.orders[i], s), SoldBy(r.orders[i], s))
  {
    hide FillPositions, RowOf, NormalizeStatus, OneRowPerSymbol, DealtOrOrdered, Tracks;
    var o := db.orders[i];
    var o1 := WithRow(o, RowOf(rows, o.futuId));
    TracksStill(db.positions[k], seen[k].status.Open?, SoldBy(o, seen[k].symbol));
    if Unresolved(o.status) && o1.status.Filled? {
      FillTracks(db.positions, seen, db.plans, o1, i, k);
    }
  }

  lemma {:induction false} SoldFrame(os: seq<Order>, os': seq<Order>, s: Symbol, n: nat)
    requires n <= |os| && n <= |os'| && forall j :: 0 <= j < n ==> os[j] == os'[j]
    ensures SoldUpTo(os, s, n) == SoldUpTo(os', s, n)
  {
    if n > 0 {
      SoldFrame(os, os', s, n - 1);
    }
  }

  lemma {:induction false} OrderLoopTracks(db: Db, rows: seq<RemoteOrder>, a: OrderAnswers, timeout: int, k: nat, n: nat)
    requires n <= |db.orders| && k < |db.positions| && OneRowPerSymbol(db.positions) && db.positions[k].shares >= 0
    ensures var r, s := SyncUpTo(db, rows, a, timeout, n), db.positions[k].symbol;
      Tracks(db.positions[k], r.positions[k], db.positions[k].status.Open?, SoldUpTo(db.orders, s, n), SoldUpTo(r.orders, s, n))
  {
    var p, s := db.positions[k], db.positions[k].symbol;
    if n == 0 {
      TracksStill(p, p.status.Open?, 0);
    } else {
      var prev := SyncUpTo(db, rows, a, timeout, n - 1);
      OrderLoopTracks(db, rows, a, timeout, k, n - 1);
      OrdersAfterSync(db, rows, a, timeout, n - 1);
      hide SyncUpTo, SyncedOrder, OneRowPerSymbol;
      OneTurnTracks(db, prev, rows, a, timeout, k, n);
    }
  }

  lemma OneTurnTracks(db: Db, prev: Db, rows: seq<RemoteOrder>, a: OrderAnswers, timeout: int, k: nat, n: nat)
    requires 0 < n <= |db.orders| == |prev.orders| && prev.orders[n - 1] == db.orders[n - 1]
    requires k < |db.positions| <= |prev.positions| && OneRowPerSymbol(db.positions)
    requires var p, s := db.positions[k], db.positions[k].symbol;
      Tracks(p, prev.positions[k], p.status.Open?, SoldUpTo(db.orders, s, n - 1), SoldUpTo(prev.orders, s, n - 1))
    ensures var p, s, r := db.positions[k], db.positions[k].symbol, SyncOne(prev, db.positions, n - 1, rows, a, timeout);
      Tracks(p, r.positions[k], p.status.Open?, SoldUpTo(db.orders, s, n), SoldUpTo(r.orders, s, n))
  {
    hide SyncOne, SoldBy, OneRowPerSymbol, OrderAfter;
    var p, s, r := db.positions[k], db.positions[k].symbol, SyncOne(prev, db.positions, n - 1, rows, a, timeout);
    SyncOneTracks(prev, db.positions, n - 1, rows, a, timeout, k);
    SoldFrame(prev.orders, r.orders, s, n - 1);
    TracksThen(p, prev.positions[k], r.positions[k], p.status.Open?,
      SoldUpTo(db.orders, s, n - 1), SoldUpTo(prev.orders, s, n - 1), SoldBy(prev.orders[n - 1], s), SoldBy(r.orders[n - 1], s));
  }

  /** Old rows keep their symbols, and new rows are of symbols that had none. */
  ghost predicate AddsNewSymbols(seen: seq<Position>, ps: seq<Position>) {
    && |seen| <= |ps| && (forall j :: 0 <= j < |seen| ==> ps[j].symbol == seen[j].symbol)
    && forall j :: |seen| <= j < |ps| ==> FindPosition(seen, ps[j].symbol).None?
  }

  lemma FillAddsNewSymbol(ps: seq<Position>, seen: seq<Position>, plans: seq<Plan>, o: Order, i: nat)
    requires AddsNewSymbols(seen, ps)
    ensures AddsNewSymbols(seen, FillPositions(ps, seen, plans, o, i))
  {
    hide FindPosition, FindOpen, DealtOrOrdered;
  }

  lemma NoSymbolAdded(ps: seq<Position>)
    ensures AddsNewSymbols(ps, ps)
  {
  }

  lemma {:induction false} LoopAddsNewSymbols(db: Db, rows: seq<RemoteOrder>, a: OrderAnswers, timeout: int, n: nat)
    requires n <= |db.orders|
    ensures AddsNewSymbols(db.positions, SyncUpTo(db, rows, a, timeout, n).positions)
  {
    hide FillPositions, SyncOne, AddsNewSymbols;
    if n == 0 {
      NoSymbolAdded(db.positions);
    } else {
      var prev, r := SyncUpTo(db, rows, a, timeout, n - 1), SyncUpTo(db, rows, a, timeout, n);
      LoopAddsNewSymbols(db, rows, a, timeout, n - 1);
      OneTurnFills(prev, db.positions, n - 1, rows, a, timeout);
      FillAddsNewSymbol(prev.positions, db.positions, prev.plans, r.orders[n - 1], n - 1);
    }
  }

  /** A commit that succeeded holds no two rows of one symbol. */
  lemma NewSymbolsStayUnique(seen: seq<Position>, ps: seq<Position>)
    requires OneRowPerSymbol(seen) && AddsNewSymbols(seen, ps) && !InsertsClash(ps, |seen|)
    ensures OneRowPerSymbol(ps)
  {
    forall i, j | 0 <= i < j < |ps| ensures ps[i].symbol != ps[j].symbol {
      if i < |seen| <= j {
        assert seen[i].symbol != ps[j].symbol;
      } else if j < |seen| {
        assert seen[i].symbol != seen[j].symbol;
      }
    }
  }

  /** A run of order syncs, none of which has deals. */
  ghost predicate OrderSyncsOnly(ss: seq<Sync>) {
    forall i :: 0 <= i < |ss| ==> ss[i].OfOrders? && NoDeals(ss[i].orders)
  }

  /** One order sync: a row that was OPEN loses what was sold, any other keeps its shares. */
  lemma OrderSyncTracks(db: Db, s: Sync, cfg: Config, k: nat)
    requires OrderSyncsOnly([s]) && k < |db.positions| && OneRowPerSymbol(db.positions) && db.positions[k].shares >= 0
    ensures var r, p := AfterSync(db, s, cfg), db.positions[k];
      && |db.positions| <= |r.positions| && OneRowPerSymbol(r.positions)
      && Tracks(p, r.positions[k], p.status.Open?, Sold(db.orders, p.symbol), Sold(r.orders, p.symbol))
  {
    hide SyncUpTo, SoldUpTo;
    assert [s][0] == s;
    var p := db.positions[k];
    TracksStill(p, p.status.Open?, Sold(db.orders, p.symbol));
    if SyncOrders(db, s.orders, cfg.entryTimeout).Got? {
      SyncWithoutDeals(db, s.orders, cfg.entryTimeout);
      OrderLoopTracks(db, s.orders.orders.rows, s.orders, cfg.entryTimeout, k, |db.orders|);
      LoopAddsNewSymbols(db, s.orders.orders.rows, s.orders, cfg.entryTimeout, |db.orders|);
      NewSymbolsStayUnique(db.positions, AfterSync(db, s, cfg).positions);
    }
  }

  /** What the syncs of a run sold of the symbol of row `k` while that row was OPEN, or while it was not. */
  ghost function SoldWhile(db: Db, ss: seq<Sync>, cfg: Config, k: nat, isOpen: bool): int
    requires k < |db.positions|
  {
    if ss == [] then 0
    else
      var before, after, s := AfterSyncs(db, ss[..|ss| - 1], cfg), AfterSyncs(db, ss, cfg), db.positions[k].symbol;
      SoldWhile(db, ss[..|ss| - 1], cfg, k, isOpen)
      + if k < |before.positions| && before.positions[k].status.Open? == isOpen then Sold(after.orders, s) - Sold(before.orders, s) else 0
  }

  /** `p` became `q` while `taken` was sold with the row OPEN and `missed` with it not OPEN. */
  predicate LosesTaken(p: Position, q: Position, taken: int, missed: int) {
    && taken >= 0 && missed >= 0 && q.symbol == p.symbol && q.shares == MaxInt(0, p.shares - taken)
    && (Consistent(p) ==> Consistent(q) && (missed == 0 || taken >= p.shares))
  }

  lemma LosesThen(p: Position, q: Position, r: Position, taken: int, missed: int, before: int, after: int)
    requires p.shares >= 0 && LosesTaken(p, q, taken, missed) && Tracks(q, r, q.status.Open?, before, after)
    ensures if q.status.Open? then LosesTaken(p, r, taken + (after - before), missed) else LosesTaken(p, r, taken, missed + (after - before))
  {
  }

  /** Over any run of order syncs a row loses exactly what was sold while it was OPEN, cut off at zero. */
  lemma {:induction false} SharesFollowSales(db: Db, ss: seq<Sync>, cfg: Config, k: nat)
    requires OrderSyncsOnly(ss) && k < |db.positions| && OneRowPerSymbol(db.positions) && db.positions[k].shares >= 0
    ensures var r, p := AfterSyncs(db, ss, cfg), db.positions[k];
      var taken, missed := SoldWhile(db, ss, cfg, k, true), SoldWhile(db, ss, cfg, k, false);
      && |db.positions| <= |r.positions| && OneRowPerSymbol(r.positions)
      && taken + missed == Sold(r.orders, p.symbol) - Sold(db.orders, p.symbol)
      && LosesTaken(p, r.positions[k], taken, missed)
  {
    if ss != [] {
      var init, last := ss[..|ss| - 1], ss[|ss| - 1];
      var before, after, p := AfterSyncs(db, init, cfg), AfterSyncs(db, ss, cfg), db.positions[k];
      SharesFollowSales(db, init, cfg, k);
      assert before.positions[k].shares >= 0 && before.positions[k].symbol == p.symbol;
      hide AfterSync, OneRowPerSymbol, Sold, LosesTaken, Tracks, NoDeals;
      OrderSyncTracks(before, last, cfg, k);
      LosesThen(p, before.positions[k], after.positions[k], SoldWhile(db, init, cfg, k, true), SoldWhile(db, init, cfg, k, false),
        Sold(before.orders, p.symbol), Sold(after.orders, p.symbol));
    }
  }

  lemma LossIsSaleIff(p: Position, q: Position, taken: int, missed: int, sold: int)
    requires p.shares >= 0 && LosesTaken(p, q, taken, missed) && taken + missed == sold
    ensures q.shares == MaxInt(0, p.shares - sold) <==> missed == 0 || taken >= p.shares
    ensures p.status.Open? || p.shares == 0 ==> q.shares == MaxInt(0, p.shares - sold)
  {
  }

  /**
   Over any run of order syncs a position's shares are its start minus everything sold, cut off at
   zero, exactly when nothing was sold while the row was not OPEN, or what was sold while it was OPEN
   took every share.  A row that begins OPEN or empty always meets this.
   */
  lemma SharesAreConserved(db: Db, ss: seq<Sync>, cfg: Config, k: nat)
    requires OrderSyncsOnly(ss) && k < |db.positions| && OneRowPerSymbol(db.positions) && db.positions[k].shares >= 0
    ensures var r, p := AfterSyncs(db, ss, cfg), db.positions[k];
      var sold := Sold(r.orders, p.symbol) - Sold(db.orders, p.symbol);
      && k < |r.positions|
      && (r.positions[k].shares == MaxInt(0, p.shares - sold) <==>
            SoldWhile(db, ss, cfg, k, false) == 0 || SoldWhile(db, ss, cfg, k, true) >= p.shares)
      && (p.status.Open? || p.shares == 0 ==> r.positions[k].shares == MaxInt(0, p.shares - sold))
  {
    hide SoldWhile, AfterSyncs, Sold, OneRowPerSymbol, MaxInt, LosesTaken;
    var r, p := AfterSyncs(db, ss, cfg), db.positions[k];
    SharesFollowSales(db, ss, cfg, k);
    LossIsSaleIff(p, r.positions[k], SoldWhile(db, ss, cfg, k, true), SoldWhile(db, ss, cfg, k, false), Sold(r.orders, p.symbol) - Sold(db.orders, p.symbol));
  }

  // ------------------------------------------------ a sale that takes nothing

  /** Ten shares whose exit is still pending when the remote position vanishes. */
  const HELD := Position("US.A", Open, 100.0, 95.0, None, 10, 10, FutuDetected, true, None, None, None, None, None, false,
                         None, None, None, 0.0, 0.0, 0.0, None, ExitBy(HardStop), None, None, false)
  const PENDING_SELL := Order(None, "US.A", Sell, 10, 94.0, 94.0, 0, "S1", Submitted, ExitNote(HardStop, false), 0, None, 0)
  const HELD_TABLES := Db([PENDING_SELL], [HELD], [], [], [], None, [], [])

  /** The remote account reports no position. */
  function Vanishes(now: Time): Sync {
    OfPositions(PositionAnswers(Got([]), now))
  }

  /** And then that the pending SELL was filled. */
  function FillsLate(now: Time): Sync {
    OfOrders(OrderAnswers(Got([RemoteOrder("S1", "US.A", "FILLED_ALL", 10, 94.0)]), DealsUnsupported, _ => CancelAccepted, _ => now))
  }

  lemma VanishedRow(t: Time, cfg: Config)
    ensures var r := AfterSync(HELD_TABLES, Vanishes(t), cfg);
      && r.orders == HELD_TABLES.orders && |r.positions| == 1
      && r.positions[0].symbol == "US.A" && r.positions[0].status.ClosedUnverified? && r.positions[0].shares == 10
  {
    PositionsAfterClose(HELD_TABLES, Seen([]), t, 1);
    assert FilledSell(HELD_TABLES.orders, "US.A").None? by {
      assert HELD_TABLES.orders[..0] == [];
    }
  }

  /**
   The position vanished remotely while its exit was pending, so its row closed unverified with its
   shares. When the exit then turns out filled, no OPEN row is found: ten shares are sold and none taken.
   */
  lemma LateSellTakesNothing(t: Time, late: Time, cfg: Config)
    ensures var before := AfterSync(HELD_TABLES, Vanishes(t), cfg);
      var after := AfterSync(before, FillsLate(late), cfg);
      && |before.positions| == 1 && |after.positions| == 1
      && before.positions[0].status.ClosedUnverified? && before.positions[0].shares == 10 && after.positions[0].shares == 10
      && Sold(before.orders, "US.A") == 0 && Sold(after.orders, "US.A") == 10
  {
    var before, s := AfterSync(HELD_TABLES, Vanishes(t), cfg), FillsLate(late);
    var rows := s.orders.orders.rows;
    VanishedRow(t, cfg);
    assert RowOf(rows, "S1") == Some(rows[0]);
    assert NormalizeStatus("FILLED_ALL").Filled?;
    assert FindOpen(before.positions, "US.A").None?;
    assert SyncUpTo(before, rows, s.orders, cfg.entryTimeout, 0) == before;
    var after := SyncOne(before, before.positions, 0, rows, s.orders, cfg.entryTimeout);
    assert SyncUpTo(before, rows, s.orders, cfg.entryTimeout, 1) == after;
    assert DealsUpTo(after, Committed(before.positions, before.deals), [], 0) == after;
    assert AfterSync(before, s, cfg) == after;
    assert SoldUpTo(after.orders, "US.A", 0) == 0 && SoldUpTo(before.orders, "US.A", 0) == 0;
  }
}
