/** Order and deal synchronisation: app/services/order_sync.py. */
module OrderSync {
  import opened Common
  import opened Ledger

  datatype CancelAnswer = CancelAccepted | OrderDoesNotExist | CancelRefused

  /** Everything one order sync reads: open orders, deals, and by order id the cancel reply and the clock. */
  datatype OrderAnswers = OrderAnswers(
    orders: Read<seq<RemoteOrder>>,
    deals: DealsRead,
    cancel: nat -> CancelAnswer,
    at: nat -> Time)

  // ------------------------------------------------------------ one order

  predicate MentionsPart(s: string) {
    |s| >= 4 && (s[..4] == "PART" || MentionsPart(s[1..]))
  }

  /** The broker's status text (upper case) as a local status. */
  function NormalizeStatus(text: string): (s: OrderStatus)
    ensures s.Filled? || s.Cancelled? || s.Failed? || Working(s)
  {
    if text in {"FILLED", "FILLED_ALL"} then Filled
    else if text in {"CANCELLED", "CANCELLED_ALL", "CANCELLED_PART"} then Cancelled
    else if text in {"FAILED", "DISABLED", "DELETED"} then Failed
    else if MentionsPart(text) then PartiallyFilled
    else Submitted
  }

  /** `{order_id: row}` keeps the last row of an id. */
  function RowOf(rows: seq<RemoteOrder>, id: string): (r: Option<RemoteOrder>)
    ensures r.Some? ==> r.value in rows && r.value.id == id
    ensures r.None? <==> forall i :: 0 <= i < |rows| ==> rows[i].id != id
  {
    if rows == [] then None
    else if rows[|rows| - 1].id == id then Some(rows[|rows| - 1])
    else RowOf(rows[..|rows| - 1], id)
  }

  function WithRow(o: Order, row: Option<RemoteOrder>): Order {
    if row.None? then o
    else o.(status := NormalizeStatus(row.value.status), dealtQty := row.value.dealtQty, dealtAvg := NonZero(row.value.dealtAvg))
  }

  predicate TimedOut(o: Order, now: Time, timeout: int) {
    o.status.Submitted? && o.submittedAt < now - timeout
  }

  function Waiting(note: OrderNote): OrderNote {
    if note.ExitNote? then note.(waiting := true) else OtherNote
  }

  function AfterTimeout(o: Order, answer: CancelAnswer): Order {
    if o.side.Sell? then o.(status := SellWaiting, note := Waiting(o.note))
    else match answer
      case OrderDoesNotExist => o.(status := UnknownRemoteMissing, note := OtherNote)
      case CancelRefused => o.(note := OtherNote)
      case CancelAccepted => o.(status := Cancelled, note := OtherNote)
  }

  /** The new row of an order, whatever happens to the other tables. */
  function OrderAfter(o: Order, row: Option<RemoteOrder>, answer: CancelAnswer, now: Time, timeout: int): Order {
    if !Unresolved(o.status) then o
    else
      var o1 := WithRow(o, row);
      if TimedOut(o1, now, timeout) then AfterTimeout(o1, answer) else o1
  }

  // ----------------------------------------------------- effects of a fill

  function OpenedFromFill(o: Order, orderId: nat, plan: Plan, planId: nat): Position {
    Position(
      o.symbol, Open, OrElse(o.dealtAvg, o.limitPrice), plan.stopPrice, None,
      DealtOrOrdered(o), DealtOrOrdered(o), LocalStrategy, false,
      Some(planId), Some(orderId), None, Some(plan.target1), Some(plan.target2), false,
      None, None, None, 0.0, 0.0, 0.0, None, NoExit, None, None, false)
  }

  function ReopenedByFill(p: Position, orderId: nat, plan: Plan, planId: nat): Position {
    p.(status := Open, planId := Some(planId), entryOrderId := Some(orderId),
       target1 := Some(plan.target1), target2 := Some(plan.target2))
  }

  function AfterSell(p: Position, o: Order, orderId: nat): Position {
    var sold := DealtOrOrdered(o);
    var q := p.(shares := MaxInt(0, p.shares - sold), availableShares := MaxInt(0, p.availableShares - sold));
    if q.shares == 0 then
      var exit := OrElse(o.dealtAvg, o.limitPrice);
      q.(status := Closed, exitOrderId := Some(orderId), exitPrice := Some(exit),
         realizedPnl := Some((exit - p.entryPrice) * sold as real), closeVerified := true)
    else if o.note == ExitNote(Target1Partial, false) then
      q.(partialExitDone := true, stopPrice := MaxReal(p.stopPrice, p.entryPrice))
    else q
  }

  function PlanOf(db: Db, planId: Option<nat>): Option<nat> {
    if planId.Some? && planId.value < |db.plans| then planId else None
  }

  /** Order sync writes orders, positions, plans and deals, and nothing else. */
  predicate KeepsControlTables(db: Db, r: Db) {
    r.issues == db.issues && r.gate == db.gate && r.buyLog == db.buyLog
  }

  /** What a fill does to the positions; its row is looked up in `seen`, the table as committed before the sync. */
  function FillPositions(ps: seq<Position>, seen: seq<Position>, plans: seq<Plan>, o: Order, i: nat): (r: seq<Position>)
    requires |seen| <= |ps|
    ensures |ps| <= |r|
  {
    if o.side.Buy? then
      if o.planId.None? || o.planId.value >= |plans| then ps
      else
        var at := FindPosition(seen, o.symbol);
        if at.None? then ps + [OpenedFromFill(o, i, plans[o.planId.value], o.planId.value)]
        else ps[at.value := ReopenedByFill(ps[at.value], i, plans[o.planId.value], o.planId.value)]
    else
      var at := FindOpen(seen, o.symbol);
      if at.None? then ps else ps[at.value := AfterSell(ps[at.value], o, i)]
  }

  /** `_open_or_close_position` for the order in row `i`. */
  function ApplyFill(db: Db, seen: seq<Position>, i: nat): (r: Db)
    requires i < |db.orders| && |seen| <= |db.positions|
    ensures r.orders == db.orders && |r.plans| == |db.plans| && |db.positions| <= |r.positions|
    ensures r.deals == db.deals && KeepsControlTables(db, r) && r.fillLog == db.fillLog + [i]
  {
    var o := db.orders[i];
    var pl := PlanOf(db, o.planId);
    db.(positions := FillPositions(db.positions, seen, db.plans, o, i), fillLog := db.fillLog + [i],
        plans := if o.side.Buy? && pl.Some? then db.plans[pl.value := db.plans[pl.value].(status := InPosition)] else db.plans)
  }

  /** A cancelled entry arms its plan again. */
  function ArmPlan(db: Db, planId: Option<nat>): Db {
    var pl := PlanOf(db, planId);
    if pl.None? then db else db.(plans := db.plans[pl.value := db.plans[pl.value].(status := Armed)])
  }

  /** One turn of the order loop. */
  function SyncOne(db: Db, seen: seq<Position>, i: nat, rows: seq<RemoteOrder>, a: OrderAnswers, timeout: int): (r: Db)
    requires i < |db.orders| && |seen| <= |db.positions|
    ensures r.orders == db.orders[i := OrderAfter(db.orders[i], RowOf(rows, db.orders[i].futuId), a.cancel(i), a.at(i), timeout)]
    ensures |r.plans| == |db.plans| && |db.positions| <= |r.positions|
    ensures r.deals == db.deals && KeepsControlTables(db, r)
  {
    var o := db.orders[i];
    if !Unresolved(o.status) then db
    else
      var o1 := WithRow(o, RowOf(rows, o.futuId));
      var db1 := db.(orders := db.orders[i := o1]);
      if o1.status.Filled? then ApplyFill(db1, seen, i)
      else if TimedOut(o1, a.at(i), timeout) then
        var o2 := AfterTimeout(o1, a.cancel(i));
        var db2 := db.(orders := db.orders[i := o2]);
        if o2.status.Cancelled? then ArmPlan(db2, o2.planId) else db2
      else db1
  }

  function SyncUpTo(db: Db, rows: seq<RemoteOrder>, a: OrderAnswers, timeout: int, n: nat): (r: Db)
    requires n <= |db.orders|
    ensures |r.orders| == |db.orders| && |r.plans| == |db.plans| && |db.positions| <= |r.positions|
    ensures r.deals == db.deals && KeepsControlTables(db, r)
  {
    if n == 0 then db else SyncOne(SyncUpTo(db, rows, a, timeout, n - 1), db.positions, n - 1, rows, a, timeout)
  }

  // ----------------------------------------------------------------- deals

  function DealtSum(deals: seq<Deal>, orderId: nat): nat {
    if deals == [] then 0
    else DealtSum(deals[..|deals| - 1], orderId) + if deals[|deals| - 1].orderId == orderId then deals[|deals| - 1].qty else 0
  }

  function KnownDeals(deals: seq<Deal>): set<string> {
    set i | 0 <= i < |deals| :: deals[i].dealId
  }

  predicate NewDeal(os: seq<Order>, row: RemoteDeal, known: set<string>) {
    row.id != "" && row.id !in known && FindByFutuId(os, row.orderId).Some?
  }

  function WithDeal(o: Order, dealt: nat, price: real): Order {
    o.(dealtQty := dealt,
       dealtAvg := if price != 0.0 then Some(price) else o.dealtAvg,
       status := if dealt >= o.qty then Filled else o.status)
  }

  /** What the deal loop looks up in the tables as committed before the sync. */
  datatype Committed = Committed(positions: seq<Position>, deals: seq<Deal>)

  function DealOne(db: Db, seen: Committed, row: RemoteDeal): (r: Db)
    requires |seen.positions| <= |db.positions|
    ensures |r.orders| == |db.orders| && |r.plans| == |db.plans| && |db.positions| <= |r.positions|
    ensures KeepsControlTables(db, r)
  {
    if !NewDeal(db.orders, row, KnownDeals(seen.deals)) then db
    else
      var i := FindByFutuId(db.orders, row.orderId).value;
      var o := WithDeal(db.orders[i], DealtSum(seen.deals, i) + row.qty, row.price);
      var db1 := db.(orders := db.orders[i := o], deals := db.deals + [Deal(i, row.qty, row.id)]);
      if o.dealtQty >= o.qty then ApplyFill(db1, seen.positions, i) else db1
  }

  function DealsUpTo(db: Db, seen: Committed, rows: seq<RemoteDeal>, n: nat): (r: Db)
    requires n <= |rows| && |seen.positions| <= |db.positions|
    ensures |r.orders| == |db.orders| && |r.plans| == |db.plans| && |db.positions| <= |r.positions|
    ensures KeepsControlTables(db, r)
  {
    if n == 0 then db
    else DealOne(DealsUpTo(db, seen, rows, n - 1), seen, rows[n - 1])
  }

  /** Two new rows with one deal id break the unique index, and the commit fails. */
  predicate NewDealsClash(os: seq<Order>, deals: seq<Deal>, rows: seq<RemoteDeal>) {
    exists i, j :: 0 <= i < j < |rows| && rows[i].id == rows[j].id
      && NewDeal(os, rows[i], KnownDeals(deals)) && NewDeal(os, rows[j], KnownDeals(deals))
  }

  /** So do two new positions of one symbol: neither BUY fill sees the other's row. */
  predicate InsertsClash(ps: seq<Position>, from: nat) {
    exists i, j :: from <= i < j < |ps| && ps[i].symbol == ps[j].symbol
  }

  /** The tables when both loops are done, before the commit. */
  function SyncedTables(db: Db, a: OrderAnswers, timeout: int): Db
    requires a.orders.Got?
  {
    var afterOrders := SyncUpTo(db, a.orders.rows, a, timeout, |db.orders|);
    DealsUpTo(afterOrders, Committed(db.positions, db.deals), DealRows(a.deals), |DealRows(a.deals)|)
  }

  /** `sync_sim_orders`: the tables afterwards, or a failure that leaves them alone. */
  function SyncOrders(db: Db, a: OrderAnswers, timeout: int): Read<Db> {
    if a.orders.ReadError? || a.deals.DealsError? then ReadError
    else
      var r := SyncedTables(db, a, timeout);
      if NewDealsClash(db.orders, db.deals, DealRows(a.deals)) || InsertsClash(r.positions, |db.positions|) then ReadError else Got(r)
  }

  // --------------------------------------------------------- the method form

  method OpenOrClosePosition(store: Store, seen: seq<Position>, i: nat)
    requires i < |store.orders| && |seen| <= |store.positions|
    modifies store
    ensures store.Snapshot() == ApplyFill(old(store.Snapshot()), seen, i)
  {
    var order := store.orders[i];
    store.fillLog := store.fillLog + [i];
    if order.side.Buy? {
      if order.planId.None? || order.planId.value >= |store.plans| {
        return;
      }
      var planId := order.planId.value;
      var plan := store.plans[planId];
      var at := FindPosition(seen, order.symbol);
      if at.None? {
        store.positions := store.positions + [OpenedFromFill(order, i, plan, planId)];
      } else {
        var position := store.positions[at.value];
        position := position.(status := Open, planId := Some(planId), entryOrderId := Some(i));
        position := position.(target1 := Some(plan.target1), target2 := Some(plan.target2));
        store.positions := store.positions[at.value := position];
      }
      store.plans := store.plans[planId := plan.(status := InPosition)];
    } else {
      var at := FindOpen(seen, order.symbol);
      if at.Some? {
        store.positions := store.positions[at.value := AfterSell(store.positions[at.value], order, i)];
      }
    }
  }

  /** One turn of the order loop, in place. */
  method SyncOrder(store: Store, seen: seq<Position>, i: nat, rows: seq<RemoteOrder>, a: OrderAnswers, timeout: int)
    requires i < |store.orders| && |seen| <= |store.positions|
    modifies store
    ensures store.Snapshot() == SyncOne(old(store.Snapshot()), seen, i, rows, a, timeout)
  {
    hide FillPositions;
    var order := store.orders[i];
    if !Unresolved(order.status) {
      return;
    }
    var row := RowOf(rows, order.futuId);
    if row.Some? {
      order := order.(status := NormalizeStatus(row.value.status));
      order := order.(dealtQty := row.value.dealtQty, dealtAvg := NonZero(row.value.dealtAvg));
    }
    ghost var before := store.orders;
    store.orders := store.orders[i := order];
    if order.status.Filled? {
      OpenOrClosePosition(store, seen, i);
    } else if TimedOut(order, a.at(i), timeout) {
      order := AfterTimeout(order, a.cancel(i));
      store.orders := store.orders[i := order];
      assert store.orders == before[i := order];
      if order.status.Cancelled? && order.planId.Some? && order.planId.value < |store.plans| {
        var planId := order.planId.value;
        store.plans := store.plans[planId := store.plans[planId].(status := Armed)];
      }
    }
  }

  /** One remote deal: record it and, once the order is covered, apply the fill. */
  method SyncDeal(store: Store, seen: Committed, row: RemoteDeal)
    requires |seen.positions| <= |store.positions|
    modifies store
    ensures store.Snapshot() == DealOne(old(store.Snapshot()), seen, row)
  {
    hide FillPositions, DealtSum, KnownDeals;
    var at := FindByFutuId(store.orders, row.orderId);
    if row.id == "" || row.id in KnownDeals(seen.deals) || at.None? {
      return;
    }
    var i := at.value;
    var order := WithDeal(store.orders[i], DealtSum(seen.deals, i) + row.qty, row.price);
    store.deals := store.deals + [Deal(i, row.qty, row.id)];
    store.orders := store.orders[i := order];
    if order.dealtQty >= order.qty {
      OpenOrClosePosition(store, seen.positions, i);
    }
  }

  method SyncOrderRows(store: Store, rows: seq<RemoteOrder>, a: OrderAnswers, timeout: int)
    modifies store
    ensures store.Snapshot() == SyncUpTo(old(store.Snapshot()), rows, a, timeout, |old(store.orders)|)
  {
    hide SyncOne;
    var seen := store.positions;
    for i := 0 to |store.orders|
      invariant |store.orders| == |old(store.orders)|
      invariant store.Snapshot() == SyncUpTo(old(store.Snapshot()), rows, a, timeout, i)
    {
      SyncOrder(store, seen, i, rows, a, timeout);
    }
  }

  method SyncDealRows(store: Store, seen: Committed, deals: seq<RemoteDeal>)
    requires |seen.positions| <= |store.positions|
    modifies store
    ensures store.Snapshot() == DealsUpTo(old(store.Snapshot()), seen, deals, |deals|)
  {
    hide DealOne;
    for j := 0 to |deals|
      invariant store.Snapshot() == DealsUpTo(old(store.Snapshot()), seen, deals, j)
    {
      SyncDeal(store, seen, deals[j]);
    }
  }

  /** The loop over the unresolved orders, then the loop over the deals, in place; a failed commit undoes both. */
  method SyncSimOrders(store: Store, a: OrderAnswers, timeout: int) returns (ok: bool)
    modifies store
    ensures ok == SyncOrders(old(store.Snapshot()), a, timeout).Got?
    ensures store.Snapshot() == if ok then SyncOrders(old(store.Snapshot()), a, timeout).rows else old(store.Snapshot())
  {
    hide SyncUpTo, DealsUpTo;
    if a.orders.ReadError? || a.deals.DealsError? {
      return false;
    }
    var orders, positions, plans, deals, fillLog := store.orders, store.positions, store.plans, store.deals, store.fillLog;
    SyncOrderRows(store, a.orders.rows, a, timeout);
    SyncDealRows(store, Committed(positions, deals), DealRows(a.deals));
    ok := !NewDealsClash(orders, deals, DealRows(a.deals)) && !InsertsClash(store.positions, |positions|);
    if !ok {
      store.orders, store.positions, store.plans, store.deals, store.fillLog := orders, positions, plans, deals, fillLog;
    }
  }

  // ------------------------------------------------- what one sync leaves

  function SyncedOrder(o: Order, j: nat, rows: seq<RemoteOrder>, a: OrderAnswers, timeout: int): Order {
    OrderAfter(o, RowOf(rows, o.futuId), a.cancel(j), a.at(j), timeout)
  }

  /** The loop leaves settled orders alone, and the identity of every order. */
  lemma SyncedKeepsSettled(o: Order, i: nat, rows: seq<RemoteOrder>, a: OrderAnswers, timeout: int)
    ensures var o' := SyncedOrder(o, i, rows, a, timeout);
      && (!Unresolved(o.status) ==> o' == o)
      && o'.symbol == o.symbol && o'.side == o.side && o'.qty == o.qty && o'.futuId == o.futuId
  {
  }

  /** The order table after the loop, row by row: no order depends on another. */
  lemma {:induction false} OrdersAfterSync(db: Db, rows: seq<RemoteOrder>, a: OrderAnswers, timeout: int, n: nat)
    requires n <= |db.orders|
    ensures var r := SyncUpTo(db, rows, a, timeout, n);
      forall j :: 0 <= j < |db.orders| ==>
        r.orders[j] == (if j < n then SyncedOrder(db.orders[j], j, rows, a, timeout) else db.orders[j])
  {
    if n > 0 {
      OrdersAfterSync(db, rows, a, timeout, n - 1);
    }
  }
}
