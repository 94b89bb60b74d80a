/** How many exit orders a symbol can see while the remote account stays silent about them. */
module ExitRetries {
  import opened Common
  import opened Ledger
  import opened OrderSync
  import opened PositionSync
  import opened PositionManager
  import opened Approval
  import opened SimLoop
  import opened ExitChain

  predicate IsExit(o: Order, s: Symbol) {
    o.symbol == s && o.side.Sell?
  }

  /** The SELL orders of a symbol from row `from` on, in submission order. */
  function Exits(os: seq<Order>, s: Symbol, from: nat): seq<Order> {
    if |os| <= from then []
    else
      var last := os[|os| - 1];
      Exits(os[..|os| - 1], s, from) + if IsExit(last, s) then [last] else []
  }

  function AttemptOf(o: Order): Attempt {
    Attempt(o.submittedAt, o.retryCount)
  }

  function Attempts(es: seq<Order>): (c: seq<Attempt>)
    ensures |c| == |es| && forall i :: 0 <= i < |es| ==> c[i] == AttemptOf(es[i])
  {
    seq(|es|, i requires 0 <= i < |es| => AttemptOf(es[i]))
  }

  /** The orders before row `from` have no pending exit of the symbol. */
  ghost predicate OldExitsSettled(os: seq<Order>, s: Symbol, from: nat) {
    from <= |os| && forall i :: 0 <= i < from && IsExit(os[i], s) ==> !Unresolved(os[i].status)
  }

  /** The exits since row `from`: all but the last wait for reconciliation, and those that wait timed out. */
  ghost predicate OnlyTimeOuts(es: seq<Order>, timeout: int, clock: Time) {
    && (forall i :: 0 <= i < |es| ==> es[i].note.ExitNote? && (es[i].status.Submitted? || es[i].status.SellWaiting?))
    && (forall i :: 0 <= i < |es| - 1 ==> es[i].status.SellWaiting?)
    && (forall i :: 0 <= i < |es| && es[i].status.SellWaiting? ==> es[i].submittedAt + timeout < clock)
  }

  ghost predicate ExitInvariant(os: seq<Order>, s: Symbol, from: nat, cfg: Config, clock: Time) {
    var es := Exits(os, s, from);
    && OldExitsSettled(os, s, from)
    && OnlyTimeOuts(es, cfg.entryTimeout, clock)
    && Chain(Attempts(es), cfg.entryTimeout, cfg.sellRetry, cfg.maxExitRetries)
    && Covered(Attempts(es), cfg.sellRetry, clock)
  }

  lemma LaterClock(os: seq<Order>, s: Symbol, from: nat, cfg: Config, clock: Time, later: Time)
    requires ExitInvariant(os, s, from, cfg, clock) && clock <= later
    ensures ExitInvariant(os, s, from, cfg, later)
  {
  }

  // ----------------------------------------------- exits as rows of the table

  /** Every exit since `from` sits in the table, in order; `Place` finds its row. */
  lemma {:induction false} Place(os: seq<Order>, s: Symbol, from: nat, e: nat) returns (i: nat)
    requires e < |Exits(os, s, from)|
    ensures from <= i < |os| && os[i] == Exits(os, s, from)[e] && IsExit(os[i], s)
  {
    var init := os[..|os| - 1];
    if e < |Exits(init, s, from)| {
      i := Place(init, s, from, e);
    } else {
      i := |os| - 1;
    }
  }

  lemma {:induction false} Rank(os: seq<Order>, s: Symbol, from: nat, i: nat) returns (e: nat)
    requires from <= i < |os| && IsExit(os[i], s)
    ensures e < |Exits(os, s, from)| && os[i] == Exits(os, s, from)[e]
  {
    var init := os[..|os| - 1];
    if i < |os| - 1 {
      e := Rank(init, s, from, i);
    } else {
      e := |Exits(init, s, from)|;
    }
  }

  /** Tables that agree on a symbol's SELL rows have the same exits. */
  lemma {:induction false} SameExits(os: seq<Order>, qs: seq<Order>, s: Symbol, from: nat)
    requires |os| == |qs| && forall i :: 0 <= i < |os| ==> (IsExit(os[i], s) <==> IsExit(qs[i], s)) && (IsExit(os[i], s) ==> os[i] == qs[i])
    ensures Exits(os, s, from) == Exits(qs, s, from)
  {
    if |os| > from {
      SameExits(os[..|os| - 1], qs[..|qs| - 1], s, from);
    }
  }

  /** Appending orders that are no exits of the symbol changes nothing. */
  lemma {:induction false} ForeignAppends(os: seq<Order>, qs: seq<Order>, s: Symbol, from: nat)
    requires from <= |os| <= |qs| && qs[..|os|] == os && forall i :: |os| <= i < |qs| ==> !IsExit(qs[i], s)
    ensures Exits(qs, s, from) == Exits(os, s, from)
  {
    if |os| == |qs| {
      assert qs == os;
    } else {
      var init := qs[..|qs| - 1];
      assert init[..|os|] == os;
      ForeignAppends(os, init, s, from);
    }
  }

  // ------------------------------------------------------- order sync

  /** The remote account never mentions a pending exit of the symbol. */
  ghost predicate SilentFor(os: seq<Order>, a: OrderAnswers, s: Symbol) {
    forall i :: 0 <= i < |os| && IsExit(os[i], s) && Unresolved(os[i].status) ==>
      && (a.orders.Got? ==> RowOf(a.orders.rows, os[i].futuId).None?)
      && (forall d :: d in DealRows(a.deals) ==> d.orderId != os[i].futuId)
  }

  /** The order as a silent sync leaves it that read no clock after `now`: as it was, or timed out. */
  predicate TimesOut(o: Order, o': Order, now: Time, timeout: int) {
    o' == o || (TimedOut(o, now, timeout) && o' == o.(status := SellWaiting, note := Waiting(o.note)))
  }

  lemma SilentOrderTimesOut(o: Order, i: nat, rows: seq<RemoteOrder>, a: OrderAnswers, timeout: int, now: Time)
    requires o.side.Sell? && Unresolved(o.status) && RowOf(rows, o.futuId).None? && a.at(i) <= now
    ensures TimesOut(o, SyncedOrder(o, i, rows, a, timeout), now, timeout)
  {
  }

  /** A deal touches the order it names, and never unsettles one. */
  lemma {:induction false} DealsTouchTheirOrders(db: Db, seen: Committed, rows: seq<RemoteDeal>, n: nat)
    requires n <= |rows| && |seen.positions| <= |db.positions|
    ensures var r := DealsUpTo(db, seen, rows, n);
      forall i :: 0 <= i < |db.orders| ==>
        && r.orders[i].futuId == db.orders[i].futuId && r.orders[i].symbol == db.orders[i].symbol && r.orders[i].side == db.orders[i].side
        && (!Unresolved(db.orders[i].status) ==> !Unresolved(r.orders[i].status))
        && ((forall j :: 0 <= j < n ==> rows[j].orderId != db.orders[i].futuId) ==> r.orders[i] == db.orders[i])
  {
    if n > 0 {
      hide FillPositions, DealtSum, KnownDeals;
      DealsTouchTheirOrders(db, seen, rows, n - 1);
    }
  }

  /** The rows of a symbol's exits after a silent sync. */
  lemma SilentSyncRows(db: Db, a: OrderAnswers, timeout: int, s: Symbol, now: Time)
    requires SyncOrders(db, a, timeout).Got? && SilentFor(db.orders, a, s) && forall i :: a.at(i) <= now
    ensures var r := SyncOrders(db, a, timeout).rows.orders;
      && |r| == |db.orders|
      && forall i :: 0 <= i < |db.orders| ==>
           && (IsExit(r[i], s) <==> IsExit(db.orders[i], s))
           && (IsExit(db.orders[i], s) && !Unresolved(db.orders[i].status) ==> !Unresolved(r[i].status))
           && (IsExit(db.orders[i], s) && Unresolved(db.orders[i].status) ==> TimesOut(db.orders[i], r[i], now, timeout))
  {
    hide SyncedOrder, SyncUpTo, DealsUpTo, TimesOut, InsertsClash, NewDealsClash;
    var rows, deals := a.orders.rows, DealRows(a.deals);
    var mid := SyncUpTo(db, rows, a, timeout, |db.orders|);
    OrdersAfterSync(db, rows, a, timeout, |db.orders|);
    DealsTouchTheirOrders(mid, Committed(db.positions, db.deals), deals, |deals|);
    forall i | 0 <= i < |db.orders| {
      SyncedKeepsSettled(db.orders[i], i, rows, a, timeout);
    }
    forall i | 0 <= i < |db.orders| && IsExit(db.orders[i], s) && Unresolved(db.orders[i].status)
      ensures mid.orders[i].futuId == db.orders[i].futuId && TimesOut(db.orders[i], mid.orders[i], now, timeout)
    {
      SilentOrderTimesOut(db.orders[i], i, rows, a, timeout, now);
    }
  }

  lemma {:induction false} ExitsTimeOut(os: seq<Order>, qs: seq<Order>, s: Symbol, from: nat, now: Time, timeout: int)
    requires |os| == |qs| && forall i :: from <= i < |os| ==> (IsExit(os[i], s) <==> IsExit(qs[i], s))
    requires forall i :: from <= i < |os| && IsExit(os[i], s) ==> TimesOut(os[i], qs[i], now, timeout)
    ensures |Exits(qs, s, from)| == |Exits(os, s, from)|
    ensures forall e :: 0 <= e < |Exits(os, s, from)| ==> TimesOut(Exits(os, s, from)[e], Exits(qs, s, from)[e], now, timeout)
  {
    if |os| > from {
      ExitsTimeOut(os[..|os| - 1], qs[..|qs| - 1], s, from, now, timeout);
    }
  }

  lemma PendingExits(os: seq<Order>, s: Symbol, from: nat, timeout: int, clock: Time, i: nat)
    requires OnlyTimeOuts(Exits(os, s, from), timeout, clock) && from <= i < |os| && IsExit(os[i], s)
    ensures Unresolved(os[i].status)
  {
    var e := Rank(os, s, from, i);
  }

  lemma TimeOutsKeepInvariant(es: seq<Order>, fs: seq<Order>, cfg: Config, clock: Time, now: Time)
    requires clock <= now && |fs| == |es| && OnlyTimeOuts(es, cfg.entryTimeout, clock)
    requires forall e :: 0 <= e < |es| ==> TimesOut(es[e], fs[e], now, cfg.entryTimeout)
    ensures OnlyTimeOuts(fs, cfg.entryTimeout, now) && Attempts(fs) == Attempts(es)
  {
  }

  /** A silent order sync only times exits out. */
  lemma SilentSyncKeeps(db: Db, a: OrderAnswers, cfg: Config, s: Symbol, from: nat, clock: Time, now: Time)
    requires ExitInvariant(db.orders, s, from, cfg, clock) && clock <= now && forall i :: a.at(i) <= now
    requires SyncOrders(db, a, cfg.entryTimeout).Got? && SilentFor(db.orders, a, s)
    ensures ExitInvariant(SyncOrders(db, a, cfg.entryTimeout).rows.orders, s, from, cfg, now)
  {
    var os, r := db.orders, SyncOrders(db, a, cfg.entryTimeout).rows.orders;
    SilentSyncRows(db, a, cfg.entryTimeout, s, now);
    forall i | from <= i < |os| && IsExit(os[i], s) ensures TimesOut(os[i], r[i], now, cfg.entryTimeout) {
      PendingExits(os, s, from, cfg.entryTimeout, clock, i);
    }
    ExitsTimeOut(os, r, s, from, now, cfg.entryTimeout);
    TimeOutsKeepInvariant(Exits(os, s, from), Exits(r, s, from), cfg, clock, now);
  }

  // ---------------------------------------------------- position sync

  /** Position sync only ever touches BUY orders. */
  ghost predicate SellRowsKept(os: seq<Order>, qs: seq<Order>) {
    |os| == |qs| && forall i :: 0 <= i < |os| ==> os[i].symbol == qs[i].symbol && os[i].side == qs[i].side && (os[i].side.Sell? ==> os[i] == qs[i])
  }

  lemma {:induction false} SyncRowsKeepSells(db: Db, rows: seq<RemotePosition>, now: Time, cfg: Config, n: nat)
    requires n <= |rows|
    ensures SellRowsKept(db.orders, SyncRowsUpTo(db, rows, now, cfg, n).orders)
  {
    if n > 0 {
      SyncRowsKeepSells(db, rows, now, cfg, n - 1);
    }
  }

  lemma PositionSyncKeeps(db: Db, a: PositionAnswers, cfg: Config, s: Symbol, from: nat, clock: Time)
    requires ExitInvariant(db.orders, s, from, cfg, clock)
    ensures ExitInvariant(SyncPositions(db, a, cfg).orders, s, from, cfg, clock)
  {
    if a.rows.Got? {
      SyncRowsKeepSells(db, a.rows.rows, a.now, cfg, |a.rows.rows|);
      SameExits(db.orders, SyncPositions(db, a, cfg).orders, s, from);
    }
  }

  // ------------------------------------------------- position management

  /** A waiting exit of the symbol leaves the retry window between the two cutoffs: the first sees it too young, the second too old. */
  predicate Crosses(o: Order, s: Symbol, a: ManageAnswers, cfg: Config) {
    IsWaitingExit(o, s) && a.now - cfg.sellRetry < o.submittedAt <= a.later - cfg.sellRetry
  }

  predicate AnyCrosses(os: seq<Order>, s: Symbol, a: ManageAnswers, cfg: Config) {
    exists i :: 0 <= i < |os| && Crosses(os[i], s, a, cfg)
  }

  /**
   The second clock matters exactly when there is no active and no retryable exit, some waiting exit
   crosses the window, and none is still inside it: one clock would hold the slot back, two grant it.
   */
  lemma SecondClockMattersIff(os: seq<Order>, p: Position, a: ManageAnswers, cfg: Config)
    requires a.now <= a.later
    ensures ExitSlot(os, p, a, cfg) != ExitSlot(os, p, a.(later := a.now), cfg) <==>
      !ActiveExitExists(os, p.symbol) && RetryableExit(os, p, a.now - cfg.sellRetry).None? && AnyCrosses(os, p.symbol, a, cfg)
      && !RecentWaitingExitExists(os, p.symbol, a.later - cfg.sellRetry)
    ensures ExitSlot(os, p, a, cfg) != ExitSlot(os, p, a.(later := a.now), cfg) ==> ExitSlot(os, p, a, cfg) == Some(0)
  {
    hide RetryableExit, StillHeld, ActiveExitExists;
    if AnyCrosses(os, p.symbol, a, cfg) {
      var i :| 0 <= i < |os| && Crosses(os[i], p.symbol, a, cfg);
      assert os[i].submittedAt > a.now - cfg.sellRetry;
    }
    if RecentWaitingExitExists(os, p.symbol, a.now - cfg.sellRetry) {
      var i :| 0 <= i < |os| && IsWaitingExit(os[i], p.symbol) && os[i].submittedAt > a.now - cfg.sellRetry;
      assert Crosses(os[i], p.symbol, a, cfg) || os[i].submittedAt > a.later - cfg.sellRetry;
    }
  }

  /**
   The bound below needs that no exit crosses.  With window 120, reads at 119 and 120 and no retry
   permitted, an exit that has waited since 0 is seen by neither cutoff, and a second exit goes out.
   */
  lemma CrossingExitIsRepeated(p: Position, a: ManageAnswers, waiting: Order, cfg: Config)
    requires cfg.sellRetry == 120 && cfg.maxExitRetries == 0 && a.now == 119 && a.later == 120
    requires IsWaitingExit(waiting, p.symbol) && waiting.submittedAt == 0
    ensures ExitSlot([waiting], p, a, cfg) == Some(0)
  {
    assert [waiting][..0] == [];
  }

  lemma NoSlotWithoutExits(os: seq<Order>, p: Position, a: ManageAnswers, cfg: Config, from: nat)
    requires OldExitsSettled(os, p.symbol, from) && Exits(os, p.symbol, from) == []
    ensures ExitSlot(os, p, a, cfg).Some? ==> ExitSlot(os, p, a, cfg).value == 0
  {
    var retry := RetryableExit(os, p, a.now - cfg.sellRetry);
    if retry.Some? {
      var e := Rank(os, p.symbol, from, retry.value);
    }
  }

  /** Without an active exit every exit waits. */
  lemma AllExitsWait(os: seq<Order>, s: Symbol, from: nat, timeout: int, clock: Time)
    requires OnlyTimeOuts(Exits(os, s, from), timeout, clock) && !ActiveExitExists(os, s)
    ensures forall e :: 0 <= e < |Exits(os, s, from)| ==> Exits(os, s, from)[e].status.SellWaiting?
  {
    var es := Exits(os, s, from);
    if es != [] {
      var last := Place(os, s, from, |es| - 1);
      assert !IsActiveExit(os[last], s);
    }
  }

  /** A waiting exit is either old enough to be retried or recent enough to hold the slot back. */
  lemma WaitingExitForcesRetry(os: seq<Order>, p: Position, from: nat, a: ManageAnswers, cfg: Config)
    requires Exits(os, p.symbol, from) != [] && Exits(os, p.symbol, from)[0].status.SellWaiting? && Exits(os, p.symbol, from)[0].note.ExitNote?
    requires !AnyCrosses(os, p.symbol, a, cfg)
    ensures RetryableExit(os, p, a.now - cfg.sellRetry).Some? || RecentWaitingExitExists(os, p.symbol, a.later - cfg.sellRetry)
  {
    var first := Place(os, p.symbol, from, 0);
    assert IsWaitingExit(os[first], p.symbol) && !Crosses(os[first], p.symbol, a, cfg);
    assert IsRetryable(os[first], p, a.now - cfg.sellRetry) || os[first].submittedAt > a.later - cfg.sellRetry;
  }

  /** The order that is retried is the newest exit that is old enough. */
  lemma RetriedIsNewestOld(os: seq<Order>, p: Position, from: nat, timeout: int, window: int, now: Time) returns (e: nat)
    requires 0 < timeout && OldExitsSettled(os, p.symbol, from) && Spaced(Attempts(Exits(os, p.symbol, from)), timeout)
    requires forall i :: 0 <= i < |Exits(os, p.symbol, from)| ==>
      Exits(os, p.symbol, from)[i].status.SellWaiting? && Exits(os, p.symbol, from)[i].note.ExitNote?
    requires RetryableExit(os, p, now - window).Some?
    ensures NewestOld(Attempts(Exits(os, p.symbol, from)), window, now, e)
    ensures Exits(os, p.symbol, from)[e] == os[RetryableExit(os, p, now - window).value]
  {
    var s, r := p.symbol, RetryableExit(os, p, now - window).value;
    var c := Attempts(Exits(os, s, from));
    e := Rank(os, s, from, r);
    forall i | 0 <= i < |c| && c[i].at + window <= now ensures i <= e {
      var j := Place(os, s, from, i);
      assert IsRetryable(os[j], p, now - window);
      if i > e {
        LaterIsLater(c, timeout, e, i);
      }
    }
  }

  lemma {:induction false} LaterIsLater(c: seq<Attempt>, timeout: int, i: nat, j: nat)
    requires 0 < timeout && Spaced(c, timeout) && i < j < |c|
    ensures c[i].at < c[j].at
  {
    if i < j - 1 {
      LaterIsLater(c, timeout, i, j - 1);
    }
  }

  /** With exits pending, a granted slot is a retry of the newest old enough one. */
  lemma SlotIsARetry(os: seq<Order>, p: Position, a: ManageAnswers, cfg: Config, from: nat, clock: Time) returns (e: nat)
    requires 0 < cfg.entryTimeout && ExitInvariant(os, p.symbol, from, cfg, clock) && Exits(os, p.symbol, from) != []
    requires ExitSlot(os, p, a, cfg).Some? && !AnyCrosses(os, p.symbol, a, cfg)
    ensures var es := Exits(os, p.symbol, from);
      && es[|es| - 1].status.SellWaiting?
      && NewestOld(Attempts(es), cfg.sellRetry, a.now, e)
      && ExitSlot(os, p, a, cfg).value == es[e].retryCount + 1 <= cfg.maxExitRetries
  {
    hide Counted, Windowed, Covered;
    AllExitsWait(os, p.symbol, from, cfg.entryTimeout, clock);
    WaitingExitForcesRetry(os, p, from, a, cfg);
    e := RetriedIsNewestOld(os, p, from, cfg.entryTimeout, cfg.sellRetry, a.now);
  }

  lemma AppendKeepsTimeOuts(os: seq<Order>, s: Symbol, from: nat, o: Order, timeout: int, clock: Time, now: Time)
    requires OldExitsSettled(os, s, from) && OnlyTimeOuts(Exits(os, s, from), timeout, clock) && clock <= now
    requires Exits(os, s, from) != [] ==> Exits(os, s, from)[|Exits(os, s, from)| - 1].status.SellWaiting?
    requires IsExit(o, s) && o.status.Submitted? && o.note.ExitNote?
    ensures OldExitsSettled(os + [o], s, from) && OnlyTimeOuts(Exits(os + [o], s, from), timeout, now)
    ensures Exits(os + [o], s, from) == Exits(os, s, from) + [o]
    ensures Attempts(Exits(os + [o], s, from)) == Attempts(Exits(os, s, from)) + [AttemptOf(o)]
  {
  }

  lemma OneMoreAttempt(os: seq<Order>, p: Position, o: Order, a: ManageAnswers, cfg: Config, from: nat, clock: Time)
    requires 0 < cfg.entryTimeout && ExitInvariant(os, p.symbol, from, cfg, clock) && clock <= a.now <= a.submittedAt
    requires ExitSlot(os, p, a, cfg).Some? && o.retryCount == ExitSlot(os, p, a, cfg).value && o.submittedAt == a.submittedAt
    requires !AnyCrosses(os, p.symbol, a, cfg)
    ensures var es := Exits(os, p.symbol, from);
      && Chain(Attempts(es) + [AttemptOf(o)], cfg.entryTimeout, cfg.sellRetry, cfg.maxExitRetries)
      && Covered(Attempts(es) + [AttemptOf(o)], cfg.sellRetry, a.now)
      && (es != [] ==> es[|es| - 1].status.SellWaiting?)
  {
    hide ExitSlot, Chain, Covered, OldExitsSettled;
    var es := Exits(os, p.symbol, from);
    if es == [] {
      NoSlotWithoutExits(os, p, a, cfg, from);
      FirstAttemptChains(AttemptOf(o), cfg.entryTimeout, cfg.sellRetry, cfg.maxExitRetries, a.now);
      assert Attempts(es) + [AttemptOf(o)] == [AttemptOf(o)];
    } else {
      var e := SlotIsARetry(os, p, a, cfg, from, clock);
      RetryChains(Attempts(es), cfg.entryTimeout, cfg.sellRetry, cfg.maxExitRetries, clock, a.now, e, AttemptOf(o));
    }
  }

  lemma OneMoreExit(os: seq<Order>, p: Position, o: Order, a: ManageAnswers, cfg: Config, from: nat, clock: Time)
    requires 0 < cfg.entryTimeout && ExitInvariant(os, p.symbol, from, cfg, clock) && clock <= a.now <= a.submittedAt
    requires ExitSlot(os, p, a, cfg).Some? && o.retryCount == ExitSlot(os, p, a, cfg).value && !AnyCrosses(os, p.symbol, a, cfg)
    requires IsExit(o, p.symbol) && o.status.Submitted? && o.note.ExitNote? && o.submittedAt == a.submittedAt
    ensures ExitInvariant(os + [o], p.symbol, from, cfg, a.now)
  {
    hide ExitSlot, Chain, Covered, OldExitsSettled, OnlyTimeOuts, Attempts;
    OneMoreAttempt(os, p, o, a, cfg, from, clock);
    AppendKeepsTimeOuts(os, p.symbol, from, o, cfg.entryTimeout, clock, a.now);
  }

  /** Managing one position keeps the invariant: no exit, one more in the chain, or another symbol's. */
  lemma {:induction false} ManageOneKeeps(db: Db, k: nat, a: ManageAnswers, cfg: Config, s: Symbol, from: nat, clock: Time)
    requires k < |db.positions| && 0 < cfg.entryTimeout
    requires ExitInvariant(db.orders, s, from, cfg, clock) && clock <= a.now <= a.submittedAt
    requires db.positions[k].symbol == s ==> !AnyCrosses(db.orders, s, a, cfg)
    ensures ExitInvariant(ManageOne(db, k, a, cfg).orders, s, from, cfg, a.now)
  {
    if ManageOne(db, k, a, cfg).orders == db.orders {
      LaterClock(db.orders, s, from, cfg, clock, a.now);
    } else {
      var q, o := ExitIsGranted(db, k, a, cfg);
      GrantedExitKeeps(db.orders, q, o, a, cfg, s, from, clock);
    }
  }

  lemma GrantedExitKeeps(os: seq<Order>, p: Position, o: Order, a: ManageAnswers, cfg: Config, s: Symbol, from: nat, clock: Time)
    requires 0 < cfg.entryTimeout && ExitInvariant(os, s, from, cfg, clock) && clock <= a.now <= a.submittedAt
    requires ExitSlot(os, p, a, cfg).Some? && o.retryCount == ExitSlot(os, p, a, cfg).value
    requires p.symbol == s ==> !AnyCrosses(os, s, a, cfg)
    requires IsExit(o, p.symbol) && o.status.Submitted? && o.note.ExitNote? && o.submittedAt == a.submittedAt
    ensures ExitInvariant(os + [o], s, from, cfg, a.now)
  {
    hide ExitInvariant, ExitSlot;
    if p.symbol == s {
      OneMoreExit(os, p, o, a, cfg, from, clock);
    } else {
      ForeignOrderKeeps(os, o, s, from, cfg, clock);
      LaterClock(os + [o], s, from, cfg, clock, a.now);
    }
  }

  lemma ForeignOrderKeeps(os: seq<Order>, o: Order, s: Symbol, from: nat, cfg: Config, clock: Time)
    requires ExitInvariant(os, s, from, cfg, clock) && !IsExit(o, s)
    ensures ExitInvariant(os + [o], s, from, cfg, clock)
  {
    assert Exits(os + [o], s, from) == Exits(os, s, from);
  }

  /** An order that managing appended was granted its slot. */
  lemma ExitIsGranted(db: Db, k: nat, a: ManageAnswers, cfg: Config) returns (q: Position, o: Order)
    requires k < |db.positions| && ManageOne(db, k, a, cfg).orders != db.orders
    ensures ManageOne(db, k, a, cfg).orders == db.orders + [o]
    ensures ExitSlot(db.orders, q, a, cfg).Some? && o.retryCount == ExitSlot(db.orders, q, a, cfg).value
    ensures IsExit(o, q.symbol) && o.status.Submitted? && o.note.ExitNote? && o.submittedAt == a.submittedAt
    ensures q.symbol == db.positions[k].symbol
  {
    var p := db.positions[k];
    var current := CurrentPrice(p, a.quote);
    var marked := Marked(p, current, cfg);
    q := Trailed(marked, current, cfg);
    o := ExitOrder(q, FinalIntent(marked, current, a.nearClose, cfg), current, ExitSlot(db.orders, q, a, cfg).value, a.place.id, a);
  }

  // ------------------------------------------------------ whole iterations

  /** An iteration runs between two ticks of the scheduler, reading the clock forwards. */
  ghost predicate Between(a: LoopAnswers, start: Time, end: Time) {
    && start <= end && (forall i :: start <= a.orders.at(i) <= a.manage(0).now)
    && (forall k: nat :: start <= a.manage(k).now <= a.manage(k).later <= a.manage(k).submittedAt && a.manage(k).now <= end)
    && (forall j: nat, k: nat :: j <= k ==> a.manage(j).now <= a.manage(k).now)
  }

  /** No waiting exit of the symbol crosses the window while a position of the symbol is managed. */
  ghost predicate NoCrossing(db: Db, a: LoopAnswers, cfg: Config, s: Symbol) {
    forall k :: 0 <= k < |db.positions| && db.positions[k].symbol == s ==> !AnyCrosses(db.orders, s, a.manage(k), cfg)
  }

  lemma ManageOneKeepsSymbols(db: Db, k: nat, a: ManageAnswers, cfg: Config)
    requires k < |db.positions|
    ensures forall i :: 0 <= i < |db.positions| ==> ManageOne(db, k, a, cfg).positions[i].symbol == db.positions[i].symbol
  {
    hide ExitSlot, CurrentPrice, FinalIntent, ExitLimit, PriceIntent, RiskPerShare, ExitOrder, HardStopLevel, TakePct, MinReal, MaxReal;
  }

  lemma {:induction false} SymbolsStay(db: Db, a: nat -> ManageAnswers, cfg: Config, n: nat)
    requires n <= |db.positions|
    ensures forall k :: 0 <= k < |db.positions| ==> ManageUpTo(db, a, cfg, n).positions[k].symbol == db.positions[k].symbol
  {
    hide ManageOne;
    if n > 0 {
      SymbolsStay(db, a, cfg, n - 1);
      ManageOneKeepsSymbols(ManageUpTo(db, a, cfg, n - 1), n - 1, a(n - 1), cfg);
    }
  }

  /** Managing adds no waiting order. */
  lemma {:induction false} ManagingAddsNoWaiting(db: Db, a: nat -> ManageAnswers, cfg: Config, n: nat, s: Symbol, m: ManageAnswers)
    requires n <= |db.positions| && !AnyCrosses(db.orders, s, m, cfg)
    ensures !AnyCrosses(ManageUpTo(db, a, cfg, n).orders, s, m, cfg)
  {
    hide AnyCrosses, ManageOne;
    if n > 0 {
      ManagingAddsNoWaiting(db, a, cfg, n - 1, s, m);
      ManageOneAddsNoWaiting(ManageUpTo(db, a, cfg, n - 1), n - 1, a(n - 1), cfg, s, m);
    }
  }

  lemma ManageOneAddsNoWaiting(db: Db, k: nat, a: ManageAnswers, cfg: Config, s: Symbol, m: ManageAnswers)
    requires k < |db.positions| && !AnyCrosses(db.orders, s, m, cfg)
    ensures !AnyCrosses(ManageOne(db, k, a, cfg).orders, s, m, cfg)
  {
    hide ExitSlot, CurrentPrice, FinalIntent, ExitLimit, PriceIntent, RiskPerShare, Marked, Trailed;
    var os, r := db.orders, ManageOne(db, k, a, cfg).orders;
    forall i | 0 <= i < |r| ensures !Crosses(r[i], s, m, cfg) {
      if i < |os| {
        assert r[..|os|][i] == os[i] && !Crosses(os[i], s, m, cfg);
      } else {
        assert r[i].status.Submitted?;
      }
    }
  }

  lemma {:induction false} ManagingKeeps(db: Db, a: LoopAnswers, cfg: Config, s: Symbol, from: nat, start: Time, end: Time, n: nat)
    requires n <= |db.positions| && 0 < cfg.entryTimeout && Between(a, start, end) && NoCrossing(db, a, cfg, s)
    requires ExitInvariant(db.orders, s, from, cfg, a.manage(0).now)
    ensures ExitInvariant(ManageUpTo(db, a.manage, cfg, n).orders, s, from, cfg, a.manage(n).now)
  {
    hide ExitInvariant, ManageOne, AnyCrosses;
    if n > 0 {
      ManagingKeeps(db, a, cfg, s, from, start, end, n - 1);
      OneMoreManaged(db, a.manage, cfg, s, from, n - 1);
    }
  }

  lemma OneMoreManaged(db: Db, a: nat -> ManageAnswers, cfg: Config, s: Symbol, from: nat, k: nat)
    requires k < |db.positions| && 0 < cfg.entryTimeout && a(k).now <= a(k).submittedAt && a(k).now <= a(k + 1).now
    requires db.positions[k].symbol == s ==> !AnyCrosses(db.orders, s, a(k), cfg)
    requires ExitInvariant(ManageUpTo(db, a, cfg, k).orders, s, from, cfg, a(k).now)
    ensures ExitInvariant(ManageUpTo(db, a, cfg, k + 1).orders, s, from, cfg, a(k + 1).now)
  {
    hide ExitInvariant, ManageOne, AnyCrosses;
    var prev, m := ManageUpTo(db, a, cfg, k), a(k);
    SymbolsStay(db, a, cfg, k);
    if db.positions[k].symbol == s {
      ManagingAddsNoWaiting(db, a, cfg, k, s, m);
    }
    ManageOneKeeps(prev, k, m, cfg, s, from, m.now);
    LaterClock(ManageOne(prev, k, m, cfg).orders, s, from, cfg, m.now, a(k + 1).now);
  }

  ghost predicate OnlyBuysAppended(os: seq<Order>, qs: seq<Order>) {
    |os| <= |qs| && qs[..|os|] == os && forall i :: |os| <= i < |qs| ==> qs[i].side.Buy?
  }

  lemma {:induction false} ExecutionAppendsBuys(db: Db, ids: seq<nat>, a: ExecutionAnswers, cfg: Config)
    requires forall k :: 0 <= k < |ids| ==> ids[k] < |db.plans|
    ensures OnlyBuysAppended(db.orders, Execute(db, ids, a, cfg).db.orders)
    decreases ids
  {
    if ids != [] {
      var one := ExecuteOne(db, ids[0], a, cfg);
      assert OnlyBuysAppended(db.orders, one.db.orders);
      if one.accepted.None? {
        ExecutionAppendsBuys(one.db, ids[1..], a, cfg);
      }
    }
  }

  lemma EntryStagesAppendBuys(managed: Db, a: LoopAnswers, cfg: Config)
    ensures OnlyBuysAppended(managed.orders, EntryStages(managed, a, cfg).db.orders)
  {
    hide Review, Execute, Validate, ApplyPortfolio, PortfolioOf, Contexts, PlanIds, ExecutableOf, TriggeredOf;
    var reviewed := ReviewedDb(managed, a, cfg).0;
    ExecutionAppendsBuys(reviewed, ExecutableOf(reviewed.plans, PlanIds(reviewed.plans)), a.execution, cfg);
  }

  lemma {:induction false} IterationKeeps(db: Db, a: LoopAnswers, cfg: Config, s: Symbol, from: nat, start: Time, end: Time)
    requires 0 < cfg.entryTimeout && Between(a, start, end) && SilentFor(db.orders, a.orders, s)
    requires SyncOrders(db, a.orders, cfg.entryTimeout).Got? ==> NoCrossing(ReconciledDb(db, a, cfg), a, cfg, s)
    requires ExitInvariant(db.orders, s, from, cfg, start)
    ensures ExitInvariant(Iterate(db, a, cfg).db.orders, s, from, cfg, end)
  {
    if cfg.enableReal || SyncOrders(db, a.orders, cfg.entryTimeout).ReadError? {
      LaterClock(db.orders, s, from, cfg, start, end);
    } else {
      var begun := a.manage(0).now;
      SilentSyncKeeps(db, a.orders, cfg, s, from, start, begun);
      PositionSyncKeeps(SyncOrders(db, a.orders, cfg.entryTimeout).rows, a.positions, cfg, s, from, begun);
      var rec := ReconciledDb(db, a, cfg);
      assert ExitInvariant(rec.orders, s, from, cfg, begun);
      if AnyOpen(rec.positions) && !a.quotesOk {
        LaterClock(rec.orders, s, from, cfg, begun, end);
      } else {
        var managed, n := ManagedDb(db, a, cfg), |rec.positions|;
        ManagingKeeps(rec, a, cfg, s, from, start, end, n);
        LaterClock(managed.orders, s, from, cfg, a.manage(n).now, end);
        EntryStagesKeep(managed, a, cfg, s, from, end);
      }
    }
  }

  lemma {:induction false} EntryStagesKeep(managed: Db, a: LoopAnswers, cfg: Config, s: Symbol, from: nat, clock: Time)
    requires ExitInvariant(managed.orders, s, from, cfg, clock)
    ensures ExitInvariant(EntryStages(managed, a, cfg).db.orders, s, from, cfg, clock)
  {
    var os, qs := managed.orders, EntryStages(managed, a, cfg).db.orders;
    EntryStagesAppendBuys(managed, a, cfg);
    ForeignAppends(os, qs, s, from);
    forall i | 0 <= i < from ensures qs[i] == os[i] {
      assert qs[..|os|][i] == os[i];
    }
  }

  // ---------------------------------------------------------------- the bound

  /** Iteration `k` runs between ticks `k` and `k + 1`. */
  ghost predicate Scheduled(run: seq<LoopAnswers>, ticks: seq<Time>) {
    |ticks| == |run| + 1 && forall k :: 0 <= k < |run| ==> Between(run[k], ticks[k], ticks[k + 1])
  }

  /** In no iteration does the remote account mention a pending exit of the symbol. */
  ghost predicate SilentRun(db: Db, run: seq<LoopAnswers>, cfg: Config, s: Symbol) {
    forall k :: 0 <= k < |run| ==> SilentFor(Run(db, run[..k], cfg).orders, run[k].orders, s)
  }

  /** In no iteration does a waiting exit of the symbol cross the retry window between the two cutoff reads. */
  ghost predicate NeverCrosses(db: Db, run: seq<LoopAnswers>, cfg: Config, s: Symbol) {
    forall k :: 0 <= k < |run| ==>
      var before := Run(db, run[..k], cfg);
      SyncOrders(before, run[k].orders, cfg.entryTimeout).Got? ==> NoCrossing(ReconciledDb(before, run[k], cfg), run[k], cfg, s)
  }

  predicate NoPendingExit(os: seq<Order>, s: Symbol) {
    forall i :: 0 <= i < |os| && IsExit(os[i], s) ==> !Unresolved(os[i].status)
  }

  lemma NoExitYet(os: seq<Order>, s: Symbol, cfg: Config, clock: Time)
    requires NoPendingExit(os, s)
    ensures ExitInvariant(os, s, |os|, cfg, clock)
  {
  }

  lemma {:induction false} RunKeeps(db: Db, run: seq<LoopAnswers>, ticks: seq<Time>, cfg: Config, s: Symbol)
    requires 0 < cfg.entryTimeout && Scheduled(run, ticks) && NoPendingExit(db.orders, s)
    requires SilentRun(db, run, cfg, s) && NeverCrosses(db, run, cfg, s)
    ensures ExitInvariant(Run(db, run, cfg).orders, s, |db.orders|, cfg, ticks[|run|])
  {
    hide Iterate, ExitInvariant, SilentFor, NoCrossing, Between, ReconciledDb, SyncOrders;
    if run == [] {
      NoExitYet(db.orders, s, cfg, ticks[0]);
    } else {
      var n := |run| - 1;
      var init := run[..n];
      assert Scheduled(init, ticks[..|ticks| - 1]);
      forall k | 0 <= k < n ensures init[..k] == run[..k] && init[k] == run[k] {
      }
      assert SilentRun(db, init, cfg, s) && NeverCrosses(db, init, cfg, s);
      RunKeeps(db, init, ticks[..|ticks| - 1], cfg, s);
      assert SilentFor(Run(db, run[..n], cfg).orders, run[n].orders, s);
      IterationKeeps(Run(db, init, cfg), run[n], cfg, s, |db.orders|, ticks[n], ticks[n + 1]);
    }
  }

  /**
   The bound on exit retries.  From a table with no pending exit of a symbol, over every run in which
   the remote account stays silent about that symbol's exits and no waiting exit crosses the retry
   window between the two cutoff reads, the loop submits at most one exit plus, for each permitted
   retry count, as many as fit one retry window at the entry timeout's spacing.
   */
  lemma {:induction false} ExitOrdersAreBounded(db: Db, run: seq<LoopAnswers>, ticks: seq<Time>, cfg: Config, s: Symbol)
    requires 0 < cfg.entryTimeout && Scheduled(run, ticks) && NoPendingExit(db.orders, s)
    requires SilentRun(db, run, cfg, s) && NeverCrosses(db, run, cfg, s)
    ensures |Exits(Run(db, run, cfg).orders, s, |db.orders|)|
         <= 1 + MaxInt(0, cfg.maxExitRetries) * PerCount(cfg.entryTimeout, cfg.sellRetry)
  {
    RunKeeps(db, run, ticks, cfg, s);
    ChainIsBounded(Attempts(Exits(Run(db, run, cfg).orders, s, |db.orders|)), cfg.entryTimeout, cfg.sellRetry, cfg.maxExitRetries);
  }

  /**
   One exit per retry count is not the bound.  With a limit of one retry, timeout 60 and window 120,
   the exits at 0 and 120 both wait at 181; the second is still inside the window, so the first is
   retried again and a third exit is granted.
   */
  lemma OlderExitIsRetriedAgain(p: Position, a: ManageAnswers, first: Order, second: Order, cfg: Config)
    requires cfg.entryTimeout == 60 && cfg.sellRetry == 120 && cfg.maxExitRetries == 1 && a.now == 181 && StillHeld(p, a.holdings)
    requires IsWaitingExit(first, p.symbol) && first.note.ExitNote? && first.submittedAt == 0 && first.retryCount == 0
    requires IsWaitingExit(second, p.symbol) && second.note.ExitNote? && second.submittedAt == 120 && second.retryCount == 1
    ensures ExitSlot([first, second], p, a, cfg) == Some(1)
  {
    var os := [first, second];
    assert os[..1] == [first] && [first][..0] == [];
    assert RetryableExit([first], p, 61) == Some(0);
    assert !IsRetryable(os[1], p, 61) && IsRetryable(os[0], p, 61);
  }
}
