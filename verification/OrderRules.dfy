/** What order sync makes of each order, fill and deal, on their fields (app/services/order_sync.py). */
module OrderRules {
  import opened Common
  import opened Ledger
  import opened OrderSync

  // ----------------------------------------------------------------- orders

  /** The broker's words for each outcome; a text that says PART is partial, any other is still submitted. */
  ghost predicate StatusOf(text: string, s: OrderStatus) {
    if text == "FILLED" || text == "FILLED_ALL" then s.Filled?
    else if text == "CANCELLED" || text == "CANCELLED_ALL" || text == "CANCELLED_PART" then s.Cancelled?
    else if text == "FAILED" || text == "DISABLED" || text == "DELETED" then s.Failed?
    else if exists i :: SaysPart(text, i) then s.PartiallyFilled?
    else s.Submitted?
  }

  predicate SaysPart(text: string, i: int) {
    0 <= i && i + 4 <= |text| && text[i] == 'P' && text[i + 1] == 'A' && text[i + 2] == 'R' && text[i + 3] == 'T'
  }

  lemma {:induction false} MentionsIff(text: string)
    ensures MentionsPart(text) <==> exists i :: SaysPart(text, i)
  {
    if |text| >= 4 {
      assert text[..4] == "PART" <==> SaysPart(text, 0);
      MentionsIff(text[1..]);
      if i :| SaysPart(text, i) {
        assert i > 0 ==> SaysPart(text[1..], i - 1);
      }
      if i :| SaysPart(text[1..], i) {
        assert SaysPart(text, i + 1);
      }
    }
  }

  /** The last remote row of an id. */
  predicate LastRow(rows: seq<RemoteOrder>, id: string, i: int) {
    0 <= i < |rows| && rows[i].id == id && forall j :: i < j < |rows| ==> rows[j].id != id
  }

  lemma LastRowSnoc(rows: seq<RemoteOrder>, id: string, i: int)
    requires rows != []
    ensures var n := |rows| - 1;
      LastRow(rows, id, i) <==> if rows[n].id == id then i == n else LastRow(rows[..n], id, i)
  {
    var n := |rows| - 1;
    assert forall j :: 0 <= j < n ==> rows[..n][j] == rows[j];
  }

  lemma {:induction false} RowIsLast(rows: seq<RemoteOrder>, id: string)
    ensures RowOf(rows, id).Some? ==> exists i :: 0 <= i < |rows| && LastRow(rows, id, i) && rows[i] == RowOf(rows, id).value
    ensures RowOf(rows, id).None? ==> forall i :: !LastRow(rows, id, i)
    ensures forall i :: LastRow(rows, id, i) ==> RowOf(rows, id) == Some(rows[i])
  {
    if rows != [] {
      var n := |rows| - 1;
      RowIsLast(rows[..n], id);
      forall i ensures LastRow(rows, id, i) <==> if rows[n].id == id then i == n else LastRow(rows[..n], id, i) {
        LastRowSnoc(rows, id, i);
      }
      assert forall i :: LastRow(rows[..n], id, i) ==> 0 <= i < n && rows[..n][i] == rows[i];
      hide LastRow;
    }
  }

  /** The status, quantity and price a remote row reports; a price of zero counts as none. */
  ghost predicate Reported(o: Order, row: RemoteOrder, p: Order) {
    StatusOf(row.status, p.status) && p.dealtQty == row.dealtQty && p == o.(status := p.status, dealtQty := p.dealtQty, dealtAvg := p.dealtAvg)
    && if row.dealtAvg == 0.0 then p.dealtAvg.None? else p.dealtAvg == Some(row.dealtAvg)
  }

  /** A submitted order older than the timeout: a SELL waits for reconciliation, a BUY goes as its cancellation went. */
  predicate GivenUp(o: Order, answer: CancelAnswer, p: Order) {
    if o.side.Sell? then
      p.status.SellWaiting? && p == o.(status := p.status, note := p.note)
      && p.note == if o.note.ExitNote? then ExitNote(o.note.kind, true) else OtherNote
    else
      p == o.(status := p.status, note := OtherNote)
      && match answer
         case OrderDoesNotExist => p.status.UnknownRemoteMissing?
         case CancelRefused => p.status == o.status
         case CancelAccepted => p.status.Cancelled?
  }

  predicate Watched(s: OrderStatus) {
    s.Submitted? || s.PartiallyFilled? || s.UnknownRemoteMissing? || s.SellWaiting?
  }

  /** The order as the sync leaves it, by way of what its last remote row reports. */
  ghost predicate SyncsTo(o: Order, rows: seq<RemoteOrder>, answer: CancelAnswer, now: Time, timeout: int, p: Order) {
    if !Watched(o.status) then p == o
    else exists m ::
      && (if exists i :: LastRow(rows, o.futuId, i) then exists i :: LastRow(rows, o.futuId, i) && Reported(o, rows[i], m) else m == o)
      && if m.status.Submitted? && m.submittedAt + timeout < now then GivenUp(m, answer, p) else p == m
  }

  lemma NormalizesTo(text: string)
    ensures StatusOf(text, NormalizeStatus(text))
  {
    hide MentionsPart, SaysPart;
    MentionsIff(text);
  }

  /** Every order of the table goes where its own status, last row, cancel answer and clock send it. */
  lemma OrdersSyncByRule(db: Db, rows: seq<RemoteOrder>, a: OrderAnswers, timeout: int, j: nat)
    requires j < |db.orders|
    ensures SyncsTo(db.orders[j], rows, a.cancel(j), a.at(j), timeout, SyncUpTo(db, rows, a, timeout, |db.orders|).orders[j])
  {
    hide SyncUpTo, NormalizeStatus, StatusOf;
    OrdersAfterSync(db, rows, a, timeout, |db.orders|);
    var o := db.orders[j];
    var m := WithRow(o, RowOf(rows, o.futuId));
    RowIsLast(rows, o.futuId);
    if RowOf(rows, o.futuId).Some? {
      var i :| 0 <= i < |rows| && LastRow(rows, o.futuId, i) && rows[i] == RowOf(rows, o.futuId).value;
      NormalizesTo(rows[i].status);
      assert Reported(o, rows[i], m);
    }
  }

  // ------------------------------------------------------------------ fills

  /** The price and the shares of a fill: what was dealt, or what was ordered. */
  predicate FilledAt(o: Order, price: real, shares: int) {
    && price == (if o.dealtAvg.Some? && o.dealtAvg.value != 0.0 then o.dealtAvg.value else o.limitPrice)
    && shares == (if o.dealtQty > 0 then o.dealtQty else o.qty)
  }

  /** Nothing trailed, exited, measured or synced yet. */
  predicate StartsClean(q: Position) {
    && q.trailingStop.None? && q.exitOrderId.None? && !q.partialExitDone && q.takePct.None? && q.stopPct.None?
    && q.currentPrice.None? && q.currentR == q.maxR == q.minR == 0.0 && q.lastSynced.None?
    && q.exitMark.NoExit? && q.exitPrice.None? && q.realizedPnl.None? && !q.closeVerified
  }

  /** The position a filled BUY opens: at the fill, with its plan's stop and targets, everything for sale. */
  ghost predicate Opens(o: Order, id: nat, plan: Plan, planId: nat, q: Position) {
    && FilledAt(o, q.entryPrice, q.shares) && q.availableShares == q.shares
    && q.symbol == o.symbol && q.status.Open? && q.source.LocalStrategy? && !q.isOrphan && q.planId == Some(planId) && q.entryOrderId == Some(id)
    && q.stopPrice == plan.stopPrice && q.target1 == Some(plan.target1) && q.target2 == Some(plan.target2) && StartsClean(q)
  }

  /** The row of the symbol, if there is one, is opened again under the plan and order, with the plan's targets; its levels stay. */
  predicate Reopens(p: Position, id: nat, plan: Plan, planId: nat, q: Position) {
    q == p.(status := Open, planId := Some(planId), entryOrderId := Some(id), target1 := Some(plan.target1), target2 := Some(plan.target2))
  }

  /** A filled SELL: the shares it sold are gone, no further than zero; at zero the row closes at the fill's price. */
  ghost predicate Sells(p: Position, o: Order, id: nat, q: Position) {
    exists price, sold :: FilledAt(o, price, sold)
      && q.shares == (if p.shares > sold then p.shares - sold else 0)
      && q.availableShares == (if p.availableShares > sold then p.availableShares - sold else 0)
      && if q.shares == 0 then
           q == p.(shares := 0, availableShares := q.availableShares, status := Closed, exitOrderId := Some(id), exitPrice := Some(price),
                   realizedPnl := q.realizedPnl, closeVerified := true)
           && q.realizedPnl.Some? && q.realizedPnl.value == (price - p.entryPrice) * sold as real
         else if o.note == ExitNote(Target1Partial, false) then
           q == p.(shares := q.shares, availableShares := q.availableShares, partialExitDone := true, stopPrice := q.stopPrice)
           && q.stopPrice == if p.stopPrice < p.entryPrice then p.entryPrice else p.stopPrice
         else q == p.(shares := q.shares, availableShares := q.availableShares)
  }

  /** No row of a symbol, or row `k` is its first. */
  predicate FirstRow(ps: seq<Position>, s: Symbol, k: int) {
    0 <= k < |ps| && ps[k].symbol == s && forall j :: 0 <= j < k ==> ps[j].symbol != s
  }

  predicate FirstOpenRow(ps: seq<Position>, s: Symbol, k: int) {
    0 <= k < |ps| && ps[k].symbol == s && ps[k].status.Open? && forall j :: 0 <= j < k ==> ps[j].symbol != s || !ps[j].status.Open?
  }

  lemma FirstOfPrefix(ps: seq<Position>, s: Symbol, k: int)
    requires ps != []
    ensures var init := ps[..|ps| - 1];
      0 <= k < |init| ==> (FirstRow(ps, s, k) <==> FirstRow(init, s, k)) && (FirstOpenRow(ps, s, k) <==> FirstOpenRow(init, s, k))
  {
  }

  lemma {:induction false} FindsFirst(ps: seq<Position>, s: Symbol)
    ensures forall k :: FirstRow(ps, s, k) <==> k >= 0 && FindPosition(ps, s) == Some(k)
    ensures forall k :: FirstOpenRow(ps, s, k) <==> k >= 0 && FindOpen(ps, s) == Some(k)
  {
    if ps != [] {
      var n := |ps| - 1;
      FindsFirst(ps[..n], s);
      forall k: int ensures 0 <= k < n ==> (FirstRow(ps, s, k) <==> FirstRow(ps[..n], s, k)) && (FirstOpenRow(ps, s, k) <==> FirstOpenRow(ps[..n], s, k)) {
        FirstOfPrefix(ps, s, k);
      }
      assert FirstRow(ps, s, n) <==> ps[n].symbol == s && FindPosition(ps[..n], s).None?;
      assert FirstOpenRow(ps, s, n) <==> ps[n].symbol == s && ps[n].status.Open? && FindOpen(ps[..n], s).None?;
      assert forall k :: FirstRow(ps, s, k) || FirstOpenRow(ps, s, k) ==> 0 <= k <= n;
      assert forall k :: FirstRow(ps[..n], s, k) || FirstOpenRow(ps[..n], s, k) ==> 0 <= k < n;
      hide FirstRow, FirstOpenRow;
    }
  }

  /** The positions after the fill of order `id`; its row is looked for among the committed ones. */
  ghost predicate FillLeaves(ps: seq<Position>, seen: seq<Position>, plans: seq<Plan>, o: Order, id: nat, r: seq<Position>)
    requires |seen| <= |ps|
  {
    if o.side.Buy? then
      if o.planId.None? || o.planId.value >= |plans| then r == ps
      else if exists k :: FirstRow(seen, o.symbol, k) then
        exists k :: FirstRow(seen, o.symbol, k) && |r| == |ps| && r == ps[k := r[k]] && Reopens(ps[k], id, plans[o.planId.value], o.planId.value, r[k])
      else |r| == |ps| + 1 && r[..|ps|] == ps && Opens(o, id, plans[o.planId.value], o.planId.value, r[|ps|])
    else if exists k :: FirstOpenRow(seen, o.symbol, k) then
      exists k :: FirstOpenRow(seen, o.symbol, k) && |r| == |ps| && r == ps[k := r[k]] && Sells(ps[k], o, id, r[k])
    else r == ps
  }

  lemma OpensByRule(o: Order, id: nat, plan: Plan, planId: nat)
    ensures Opens(o, id, plan, planId, OpenedFromFill(o, id, plan, planId))
  {
  }

  lemma SellsByRule(p: Position, o: Order, id: nat)
    ensures Sells(p, o, id, AfterSell(p, o, id))
  {
    assert FilledAt(o, OrElse(o.dealtAvg, o.limitPrice), DealtOrOrdered(o));
  }

  /** A fill leaves the positions its side, its plan and the committed rows call for. */
  lemma FillsByRule(ps: seq<Position>, seen: seq<Position>, plans: seq<Plan>, o: Order, id: nat)
    requires |seen| <= |ps|
    ensures FillLeaves(ps, seen, plans, o, id, FillPositions(ps, seen, plans, o, id))
  {
    hide FirstRow, FirstOpenRow, Opens, Sells, OpenedFromFill, AfterSell;
    FindsFirst(seen, o.symbol);
    var row, openRow := FindPosition(seen, o.symbol), FindOpen(seen, o.symbol);
    if row.Some? {
      assert FirstRow(seen, o.symbol, row.value);
    }
    if openRow.Some? {
      assert FirstOpenRow(seen, o.symbol, openRow.value);
      SellsByRule(ps[openRow.value], o, id);
    }
    if o.planId.Some? && o.planId.value < |plans| {
      OpensByRule(o, id, plans[o.planId.value], o.planId.value);
    }
  }

  /** The plan of an order, if it is on file, gets this status; no other plan changes. */
  predicate PlanGets(plans: seq<Plan>, planId: Option<nat>, status: PlanStatus, r: seq<Plan>) {
    if planId.Some? && planId.value < |plans| then r == plans[planId.value := plans[planId.value].(status := status)] else r == plans
  }

  predicate ReportsFilled(o: Order, rows: seq<RemoteOrder>) {
    Watched(o.status) && exists i :: 0 <= i < |rows| && LastRow(rows, o.futuId, i) && rows[i].status in {"FILLED", "FILLED_ALL"}
  }

  predicate ReportsCancelled(o: Order, rows: seq<RemoteOrder>) {
    exists i :: 0 <= i < |rows| && LastRow(rows, o.futuId, i) && rows[i].status in {"CANCELLED", "CANCELLED_ALL", "CANCELLED_PART"}
  }

  /**
   One turn of the loop: an order reported filled is applied and logged, a filled BUY puts its plan in
   position, a BUY cancelled for its age arms its plan; nothing else moves a position or a plan.
   */
  lemma OneOrderByRule(db: Db, seen: seq<Position>, i: nat, rows: seq<RemoteOrder>, a: OrderAnswers, timeout: int)
    requires i < |db.orders| && |seen| <= |db.positions|
    ensures var o, r := db.orders[i], SyncOne(db, seen, i, rows, a, timeout);
      if ReportsFilled(o, rows) then
        && FillLeaves(db.positions, seen, db.plans, r.orders[i], i, r.positions) && r.fillLog == db.fillLog + [i]
        && if o.side.Buy? then PlanGets(db.plans, o.planId, InPosition, r.plans) else r.plans == db.plans
      else
        && r.positions == db.positions && r.fillLog == db.fillLog
        && if Watched(o.status) && r.orders[i].status.Cancelled? && !ReportsCancelled(o, rows) then PlanGets(db.plans, o.planId, Armed, r.plans)
           else r.plans == db.plans
  {
    hide FillPositions, FillLeaves, LastRow, MentionsPart;
    var o := db.orders[i];
    RowIsLast(rows, o.futuId);
    var row := RowOf(rows, o.futuId);
    var o1 := WithRow(o, row);
    if row.Some? {
      var j :| 0 <= j < |rows| && LastRow(rows, o.futuId, j) && rows[j] == row.value;
    }
    assert ReportsFilled(o, rows) <==> Watched(o.status) && row.Some? && row.value.status in {"FILLED", "FILLED_ALL"};
    assert ReportsCancelled(o, rows) <==> row.Some? && row.value.status in {"CANCELLED", "CANCELLED_ALL", "CANCELLED_PART"};
    FillsByRule(db.positions, seen, db.plans, o1, i);
  }

  // ------------------------------------------------------------------ deals

  /** The committed deals of an order add up, one by one. */
  lemma DealtAddsUp(deals: seq<Deal>, d: Deal, id: nat)
    ensures DealtSum([], id) == 0
    ensures DealtSum(deals + [d], id) == DealtSum(deals, id) + if d.orderId == id then d.qty else 0
  {
    assert (deals + [d])[..|deals|] == deals;
  }

  predicate FirstOrder(os: seq<Order>, id: string, k: int) {
    0 <= k < |os| && os[k].futuId == id && forall j :: 0 <= j < k ==> os[j].futuId != id
  }

  lemma FirstOrderSnoc(os: seq<Order>, id: string, k: int)
    requires os != []
    ensures var n := |os| - 1;
      FirstOrder(os, id, k) <==> FirstOrder(os[..n], id, k) || (k == n && os[n].futuId == id && forall j :: 0 <= j < n ==> os[..n][j].futuId != id)
  {
    var n := |os| - 1;
    assert forall j :: 0 <= j < n ==> os[..n][j] == os[j];
  }

  lemma {:induction false} FindsFirstOrder(os: seq<Order>, id: string)
    ensures forall k :: FirstOrder(os, id, k) <==> k >= 0 && FindByFutuId(os, id) == Some(k)
  {
    if os != [] {
      var n := |os| - 1;
      FindsFirstOrder(os[..n], id);
      forall k ensures FirstOrder(os, id, k) <==> FirstOrder(os[..n], id, k) || (k == n && os[n].futuId == id && FindByFutuId(os[..n], id).None?) {
        FirstOrderSnoc(os, id, k);
      }
      hide FirstOrder;
    }
  }

  predicate IsNew(os: seq<Order>, deals: seq<Deal>, row: RemoteDeal) {
    row.id != "" && (forall k :: 0 <= k < |deals| ==> deals[k].dealId != row.id) && exists k :: 0 <= k < |os| && os[k].futuId == row.orderId
  }

  /** A new deal is recorded and added to the committed ones of its order; once they cover the order, it is filled. */
  lemma DealByRule(db: Db, seen: Committed, row: RemoteDeal)
    requires |seen.positions| <= |db.positions|
    ensures var r := DealOne(db, seen, row);
      if !IsNew(db.orders, seen.deals, row) then r == db
      else
        exists i: nat :: FirstOrder(db.orders, row.orderId, i) && |r.orders| == |db.orders| &&
          var o, total := db.orders[i], DealtSum(seen.deals, i) + row.qty;
          && r.orders == db.orders[i := r.orders[i]] && r.deals == db.deals + [Deal(i, row.qty, row.id)]
          && r.orders[i] == o.(dealtQty := total, dealtAvg := r.orders[i].dealtAvg, status := if total >= o.qty then Filled else o.status)
          && r.orders[i].dealtAvg == (if row.price != 0.0 then Some(row.price) else o.dealtAvg)
          && if total >= o.qty then
               FillLeaves(db.positions, seen.positions, db.plans, r.orders[i], i, r.positions) && r.fillLog == db.fillLog + [i]
               && if o.side.Buy? then PlanGets(db.plans, o.planId, InPosition, r.plans) else r.plans == db.plans
             else r.positions == db.positions && r.plans == db.plans && r.fillLog == db.fillLog
  {
    hide FillPositions, FillLeaves, DealtSum, FirstOrder;
    FindsFirstOrder(db.orders, row.orderId);
    var at := FindByFutuId(db.orders, row.orderId);
    if at.Some? {
      var i := at.value;
      assert FirstOrder(db.orders, row.orderId, i);
      var o := WithDeal(db.orders[i], DealtSum(seen.deals, i) + row.qty, row.price);
      FillsByRule(db.positions, seen.positions, db.plans, o, i);
    }
    assert IsNew(db.orders, seen.deals, row) <==> NewDeal(db.orders, row, KnownDeals(seen.deals));
  }

  // --------------------------------------------------------------- the commit

  /** Two rows of one new deal. */
  predicate DealTwice(os: seq<Order>, deals: seq<Deal>, rows: seq<RemoteDeal>) {
    exists i, j :: 0 <= i < j < |rows| && rows[i].id == rows[j].id && IsNew(os, deals, rows[i]) && IsNew(os, deals, rows[j])
  }

  /** Two rows from row `from` on of one symbol. */
  predicate SymbolTwice(ps: seq<Position>, from: nat) {
    exists i, j :: from <= i < j < |ps| && ps[i].symbol == ps[j].symbol
  }

  lemma NewIff(os: seq<Order>, deals: seq<Deal>, row: RemoteDeal)
    ensures IsNew(os, deals, row) <==> NewDeal(os, row, KnownDeals(deals))
  {
  }

  /**
   A sync fails, and changes nothing, when the orders or the deals cannot be read, when a new deal is
   named twice, or when it would add two positions of one symbol; otherwise both loops ran, every
   lookup on the positions and deals committed before.
   */
  lemma SyncCommitsUnlessTwice(db: Db, a: OrderAnswers, timeout: int)
    ensures a.orders.ReadError? || a.deals.DealsError? ==> SyncOrders(db, a, timeout).ReadError?
    ensures a.orders.Got? && !a.deals.DealsError? ==>
      var rows, deals := a.orders.rows, if a.deals.GotDeals? then a.deals.rows else [];
      var r := DealsUpTo(SyncUpTo(db, rows, a, timeout, |db.orders|), Committed(db.positions, db.deals), deals, |deals|);
      SyncOrders(db, a, timeout) ==
        if DealTwice(db.orders, db.deals, deals) || SymbolTwice(r.positions, |db.positions|) then ReadError else Got(r)
  {
    hide SyncUpTo, DealsUpTo, IsNew, NewDeal;
    if a.orders.Got? && !a.deals.DealsError? {
      var deals := DealRows(a.deals);
      forall i | 0 <= i < |deals| ensures IsNew(db.orders, db.deals, deals[i]) <==> NewDeal(db.orders, deals[i], KnownDeals(db.deals)) {
        NewIff(db.orders, db.deals, deals[i]);
      }
    }
  }

  /** The loops take the orders, and then the deals, one by one. */
  lemma LoopsGoOneByOne(db: Db, rows: seq<RemoteOrder>, a: OrderAnswers, timeout: int, n: nat, seen: Committed, deals: seq<RemoteDeal>, m: nat)
    requires n < |db.orders| && m < |deals| && |seen.positions| <= |db.positions|
    ensures SyncUpTo(db, rows, a, timeout, 0) == db && DealsUpTo(db, seen, deals, 0) == db
    ensures SyncUpTo(db, rows, a, timeout, n + 1) == SyncOne(SyncUpTo(db, rows, a, timeout, n), db.positions, n, rows, a, timeout)
    ensures DealsUpTo(db, seen, deals, m + 1) == DealOne(DealsUpTo(db, seen, deals, m), seen, deals[m])
  {
    hide SyncOne, DealOne;
  }
}
