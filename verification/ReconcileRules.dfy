/** What reconciliation finds and what gate it saves, on the rows themselves (app/services/trade_reconciler.py). */
module ReconcileRules {
  import opened Common
  import opened Ledger
  import opened Reconciler
  import opened ReconcilerTheorems
  import opened IssueRows

  // ---------------------------------------------------------- the findings

  /** A remote row that holds shares of the symbol, with no such row after it. */
  predicate LastHolds(rows: seq<RemotePosition>, s: Symbol, j: int) {
    && 0 <= j < |rows| && rows[j].qty > 0 && rows[j].symbol == s && s != ""
    && forall m :: j < m < |rows| && rows[m].qty > 0 ==> rows[m].symbol != s
  }

  predicate Held(rows: seq<RemotePosition>, s: Symbol) {
    exists j :: 0 <= j < |rows| && rows[j].qty > 0 && rows[j].symbol == s && s != ""
  }

  /** The remote account knows the order: among its open orders, or by a deal. */
  predicate KnownRemotely(o: Order, orders: seq<RemoteOrder>, deals: DealsRead) {
    o.futuId != "" &&
    ((exists j :: 0 <= j < |orders| && orders[j].id == o.futuId)
     || (deals.GotDeals? && exists j :: 0 <= j < |deals.rows| && deals.rows[j].orderId == o.futuId))
  }

  predicate StillOut(o: Order) {
    o.status.Submitted? || o.status.PartiallyFilled? || o.status.UnknownRemoteMissing? || o.status.SellWaiting?
  }

  /** Both prices are positive and more than one percent apart. */
  predicate CostsApart(entry: real, cost: real) {
    0.0 < cost && 0.0 < entry && (if entry < cost then cost - entry else entry - cost) / cost > 0.01
  }

  predicate NamesPosition(k: IssueKey, p: Position, i: int) {
    0 <= i && k.symbol == p.symbol && k.remoteOrderId == "" && k.orderId.None? && k.positionId == Some(i) && k.planId == p.planId
  }

  predicate NamesOrder(k: IssueKey, o: Order, i: int) {
    0 <= i && k.symbol == o.symbol && k.remoteOrderId == o.futuId && k.orderId == Some(i) && k.positionId.None? && k.planId == o.planId
  }

  /** What each type of issue stands for in the ledgers. */
  ghost predicate Calls(db: Db, a: ReconcileAnswers, k: IssueKey)
    requires ReadsOk(a)
  {
    match k.kind
    case RemotePositionWithoutLocal =>
      k.remoteOrderId == "" && k.orderId.None? && k.positionId.None? && k.planId.None? && Held(a.positions.rows, k.symbol)
      && forall i :: 0 <= i < |db.positions| && db.positions[i].symbol == k.symbol ==> !db.positions[i].status.Open?
    case LocalPositionMissingRemote =>
      exists i :: 0 <= i < |db.positions| && NamesPosition(k, db.positions[i], i) && db.positions[i].status.Open?
        && !Held(a.positions.rows, db.positions[i].symbol)
    case PositionQtyMismatch =>
      exists i, j :: 0 <= i < |db.positions| && NamesPosition(k, db.positions[i], i) && db.positions[i].status.Open?
        && LastHolds(a.positions.rows, db.positions[i].symbol, j) && a.positions.rows[j].qty != db.positions[i].shares
    case PositionCostMismatch =>
      exists i, j :: 0 <= i < |db.positions| && NamesPosition(k, db.positions[i], i) && db.positions[i].status.Open?
        && LastHolds(a.positions.rows, db.positions[i].symbol, j) && CostsApart(db.positions[i].entryPrice, a.positions.rows[j].cost)
    case RemoteOrderWithoutLocal =>
      k.orderId.None? && k.positionId.None? && k.planId.None? && k.remoteOrderId != ""
      && (exists j :: 0 <= j < |a.orders.rows| && a.orders.rows[j].id == k.remoteOrderId && a.orders.rows[j].symbol == k.symbol)
      && forall i :: 0 <= i < |db.orders| ==> db.orders[i].futuId != k.remoteOrderId
    case SellOrderStuck =>
      exists i :: 0 <= i < |db.orders| && NamesOrder(k, db.orders[i], i) && db.orders[i].side.Sell? && StillOut(db.orders[i])
        && !KnownRemotely(db.orders[i], a.orders.rows, a.deals)
    case LocalOrderMissingRemote =>
      exists i :: 0 <= i < |db.orders| && NamesOrder(k, db.orders[i], i) && db.orders[i].side.Buy? && StillOut(db.orders[i])
        && !KnownRemotely(db.orders[i], a.orders.rows, a.deals)
    case CloseUnverified =>
      exists i :: 0 <= i < |db.positions| && NamesPosition(k, db.positions[i], i) && db.positions[i].status.ClosedUnverified?
    case BuyOrderInferredFilled =>
      exists i :: 0 <= i < |db.orders| && NamesOrder(k, db.orders[i], i) && db.orders[i].side.Buy? && db.orders[i].status.FilledInferred?
    case _ => false
  }

  lemma HeldIff(a: ReconcileAnswers, s: Symbol)
    requires ReadsOk(a)
    ensures HeldRemotely(a, s) <==> Held(a.positions.rows, s)
    ensures forall j :: LastHolds(a.positions.rows, s, j) <==> LastWord(a.positions.rows, j) && a.positions.rows[j].symbol == s
  {
  }

  lemma KnownIff(o: Order, a: ReconcileAnswers)
    requires ReadsOk(a)
    ensures KnownRemotely(o, a.orders.rows, a.deals) <==> ConfirmedRemotely(o, a.orders.rows, DealRows(a.deals))
    ensures StillOut(o) <==> Unresolved(o.status)
  {
  }

  lemma CostsApartIff(p: Position, row: RemotePosition)
    ensures CostsApart(p.entryPrice, row.cost) <==> CostDiffers(p, row)
  {
  }

  /** Row `i` is missing remotely, or disagrees with the remote account's last word. */
  lemma PositionFinding(db: Db, a: ReconcileAnswers, k: IssueKey, i: nat)
    requires ReadsOk(a) && i < |db.positions|
    ensures var p := db.positions[i];
      && (k == PositionKey(k.kind, p, i) <==> NamesPosition(k, p, i))
      && (HeldRemotely(a, p.symbol) <==> Held(a.positions.rows, p.symbol))
      && forall j :: LastWord(a.positions.rows, j) && Disagrees(k.kind, p, a.positions.rows[j]) <==>
           LastHolds(a.positions.rows, p.symbol, j)
           && ((k.kind.PositionQtyMismatch? && a.positions.rows[j].qty != p.shares)
               || (k.kind.PositionCostMismatch? && CostsApart(p.entryPrice, a.positions.rows[j].cost)))
  {
    var p, rows := db.positions[i], a.positions.rows;
    HeldIff(a, p.symbol);
    forall j | 0 <= j < |rows| {
      CostsApartIff(p, rows[j]);
    }
    hide HeldRemotely, Held, LastHolds, CostDiffers, CostsApart;
  }

  lemma PositionFindings(db: Db, a: ReconcileAnswers, k: IssueKey)
    requires ReadsOk(a)
    requires k.kind.LocalPositionMissingRemote? || k.kind.PositionQtyMismatch? || k.kind.PositionCostMismatch?
    ensures Discrepancy(db, a, k) <==> Calls(db, a, k)
  {
    hide HeldRemotely, Held, LastHolds, LastWord, Disagrees, CostsApart, NamesPosition;
    forall i: nat | i < |db.positions| {
      PositionFinding(db, a, k, i);
    }
  }

  lemma OrderFindings(db: Db, a: ReconcileAnswers, k: IssueKey)
    requires ReadsOk(a)
    requires k.kind.RemoteOrderWithoutLocal? || k.kind.SellOrderStuck? || k.kind.LocalOrderMissingRemote? || k.kind.BuyOrderInferredFilled?
    ensures Discrepancy(db, a, k) <==> Calls(db, a, k)
  {
    forall i: nat | i < |db.orders| {
      KnownIff(db.orders[i], a);
    }
    hide KnownRemotely, ConfirmedRemotely;
    if k.kind.RemoteOrderWithoutLocal? {
      forall j | 0 <= j < |a.orders.rows|
        ensures k == RemoteOrderKey(a.orders.rows[j]) <==>
          k.orderId.None? && k.positionId.None? && k.planId.None? && k.remoteOrderId == a.orders.rows[j].id && k.symbol == a.orders.rows[j].symbol
      {
      }
    }
  }

  /** The discrepancies of a run are exactly what the rows call for. */
  lemma DiscrepanciesAreCalled(db: Db, a: ReconcileAnswers, k: IssueKey)
    requires ReadsOk(a)
    ensures k in Discrepancies(db, a) <==> Calls(db, a, k)
  {
    match k.kind
    case RemotePositionWithoutLocal => HeldIff(a, k.symbol);
    case LocalPositionMissingRemote => PositionFindings(db, a, k);
    case PositionQtyMismatch => PositionFindings(db, a, k);
    case PositionCostMismatch => PositionFindings(db, a, k);
    case RemoteOrderWithoutLocal => OrderFindings(db, a, k);
    case SellOrderStuck => OrderFindings(db, a, k);
    case LocalOrderMissingRemote => OrderFindings(db, a, k);
    case BuyOrderInferredFilled => OrderFindings(db, a, k);
    case _ =>
  }

  // -------------------------------------------------------------- agreement

  /** Every holding has an open row, every open row is held at its size, every SELL still out is known remotely. */
  ghost predicate Agree(db: Db, a: ReconcileAnswers)
    requires ReadsOk(a)
  {
    && (forall s :: Held(a.positions.rows, s) ==> exists i :: 0 <= i < |db.positions| && db.positions[i].status.Open? && db.positions[i].symbol == s)
    && (forall i :: 0 <= i < |db.positions| && db.positions[i].status.Open? ==>
          exists j :: LastHolds(a.positions.rows, db.positions[i].symbol, j) && a.positions.rows[j].qty == db.positions[i].shares)
    && (forall i :: 0 <= i < |db.orders| && db.orders[i].side.Sell? && StillOut(db.orders[i]) ==> KnownRemotely(db.orders[i], a.orders.rows, a.deals))
  }

  lemma AgreementIs(db: Db, a: ReconcileAnswers)
    requires ReadsOk(a)
    ensures LedgersAgree(db, a) <==> Agree(db, a)
  {
    forall s ensures HeldRemotely(a, s) <==> Held(a.positions.rows, s)
      ensures forall j :: LastHolds(a.positions.rows, s, j) <==> LastWord(a.positions.rows, j) && a.positions.rows[j].symbol == s
    {
      HeldIff(a, s);
    }
    forall i | 0 <= i < |db.orders| {
      KnownIff(db.orders[i], a);
    }
    hide HeldRemotely, Held, LastHolds, LastWord, KnownRemotely, ConfirmedRemotely;
  }

  // ------------------------------------------------------ rows and severities

  /** Only what can hide a loss is HIGH or worse. */
  lemma SeverityTable(kind: IssueType)
    ensures var s := SeverityOf(kind);
      && (s.Critical? <==> kind.AccountSyncFailed? || kind.ReconciliationRunFailed?)
      && (s.High? <==> kind.RemotePositionWithoutLocal? || kind.LocalPositionMissingRemote? || kind.PositionQtyMismatch? || kind.SellOrderStuck?)
      && (s.Info? <==> kind.BuyOrderInferredFilled?)
  {
  }

  /** What an upsert writes: a new open row seen first and last now, or the old one seen again, with the severity of its type. */
  lemma UpsertedRows(issue: Issue, k: IssueKey, now: Time)
    ensures NewIssue(k, now) == Issue(k, SeverityOf(k.kind), true, now, now, None)
    ensures Touched(issue, now) == issue.(severity := SeverityOf(issue.key.kind), lastSeen := now, resolvedAt := None)
  {
  }

  // ---------------------------------------------------------------- the gate

  predicate AnyOpen(issues: seq<Issue>, s: Severity) {
    exists i :: 0 <= i < |issues| && issues[i].open && issues[i].severity == s
  }

  ghost function OpenOf(issues: seq<Issue>, s: Severity): nat {
    |set i | 0 <= i < |issues| && issues[i].open && issues[i].severity == s|
  }

  lemma {:induction false} OpenCounted(issues: seq<Issue>, s: Severity)
    ensures Reconciler.CountOpen(issues, s) == OpenOf(issues, s)
  {
    hide OpenOf;
    if issues == [] {
      NoneOpen(s);
    } else {
      var init, last := issues[..|issues| - 1], issues[|issues| - 1];
      OpenCounted(init, s);
      OneMoreOpen(init, last, s);
      assert issues == init + [last];
    }
  }

  lemma NoneOpen(s: Severity)
    ensures OpenOf([], s) == 0
  {
  }

  lemma OneMoreOpen(issues: seq<Issue>, issue: Issue, s: Severity)
    ensures OpenOf(issues + [issue], s) == OpenOf(issues, s) + if issue.open && issue.severity == s then 1 else 0
  {
    var n, r := |issues|, issues + [issue];
    var rows := set i | 0 <= i < |r| && r[i].open && r[i].severity == s;
    var before := set i | 0 <= i < n && issues[i].open && issues[i].severity == s;
    assert forall i :: 0 <= i < n ==> r[i] == issues[i];
    assert forall i :: i in rows <==> i in before || (i == n && issue.open && issue.severity == s);
    if issue.open && issue.severity == s {
      assert rows == before + {n};
    } else {
      assert rows == before;
    }
  }

  /** The gate of a run that returned: shut by any open HIGH or CRITICAL issue, as severe as the worst open one. */
  lemma GateOfRun(issues: seq<Issue>)
    ensures var g := HealthGate(issues);
      && (g.allow <==> !AnyOpen(issues, High) && !AnyOpen(issues, Critical))
      && g.severity == (if AnyOpen(issues, Critical) then Critical else if AnyOpen(issues, High) then High else if AnyOpen(issues, Warn) then Warn else Info)
      && g.mode == (if AnyOpen(issues, Critical) then SyncFailed else if AnyOpen(issues, High) then Protective
                    else if AnyOpen(issues, Warn) then Degraded else Normal)
      && g.highIssues == OpenOf(issues, High) && g.criticalIssues == OpenOf(issues, Critical)
      && g.openIssues == OpenOf(issues, Info) + OpenOf(issues, Warn) + OpenOf(issues, High) + OpenOf(issues, Critical)
  {
    hide OpenOf;
    OpenCounted(issues, Info);
    OpenCounted(issues, Warn);
    OpenCounted(issues, High);
    OpenCounted(issues, Critical);
    var s := MaxSeverity(issues);
    assert forall i :: 0 <= i < |issues| && issues[i].open ==> Rank(issues[i].severity) <= Rank(s);
  }

  /** Without a saved gate, entries pass exactly when some issue is open and none that is open is HIGH or CRITICAL. */
  lemma WithoutSavedGate(db: Db)
    requires db.gate.None?
    ensures AllowsNewEntries(db) <==>
      (exists i :: 0 <= i < |db.issues| && db.issues[i].open) && !AnyOpen(db.issues, High) && !AnyOpen(db.issues, Critical)
    ensures GateStatus(db) == if exists i :: 0 <= i < |db.issues| && db.issues[i].open then Some(HealthGate(db.issues)) else None
  {
    GateOfRun(db.issues);
    OpenCounted(db.issues, Info);
    OpenCounted(db.issues, Warn);
    OpenCounted(db.issues, High);
    OpenCounted(db.issues, Critical);
    hide OpenOf;
    NoneIffZero(db.issues, Info);
    NoneIffZero(db.issues, Warn);
    NoneIffZero(db.issues, High);
    NoneIffZero(db.issues, Critical);
    if i :| 0 <= i < |db.issues| && db.issues[i].open {
      assert AnyOpen(db.issues, db.issues[i].severity);
    }
  }

  lemma NoneIffZero(issues: seq<Issue>, s: Severity)
    ensures OpenOf(issues, s) == 0 <==> !AnyOpen(issues, s)
  {
    var rows := set i | 0 <= i < |issues| && issues[i].open && issues[i].severity == s;
    if AnyOpen(issues, s) {
      var i :| 0 <= i < |issues| && issues[i].open && issues[i].severity == s;
      assert i in rows;
    } else {
      assert rows == {};
    }
  }

  // ------------------------------------------------------- runs and raises

  /** Which of the six checks looks for a type of issue. */
  predicate LookedForBy(kind: IssueType, check: int) {
    match check
    case 1 => kind.RemotePositionWithoutLocal?
    case 2 => kind.LocalPositionMissingRemote? || kind.PositionQtyMismatch? || kind.PositionCostMismatch?
    case 3 => kind.RemoteOrderWithoutLocal?
    case 4 => kind.SellOrderStuck? || kind.LocalOrderMissingRemote?
    case 5 => kind.CloseUnverified?
    case 6 => kind.BuyOrderInferredFilled?
    case _ => false
  }

  lemma {:induction false} KeysOfEarlierChecks(db: Db, a: ReconcileAnswers, c: nat, n: nat, k: IssueKey)
    requires ReadsOk(a) && c <= n <= 6
    ensures k in KeysUpTo(db, a, c) <==> k in KeysUpTo(db, a, n) && CheckOf(k.kind) <= c
  {
    hide KeysOfCheck, CheckOf;
    if c < n {
      KeysOfEarlierChecks(db, a, c, n - 1, k);
      if k in KeysOfCheck(db, a, n) {
        KindsOfCheck(db, a, n, k);
      }
      RepeatsUpTo(db, a, c);
    } else {
      RepeatsUpTo(db, a, c);
    }
  }

  /** The first `c` checks upsert exactly what the rows call for of the types they look for. */
  lemma ChecksFind(db: Db, a: ReconcileAnswers, c: nat, k: IssueKey)
    requires ReadsOk(a) && c <= 6
    ensures k in KeysUpTo(db, a, c) <==> Calls(db, a, k) && exists i :: 1 <= i <= c && LookedForBy(k.kind, i)
  {
    hide Calls, KeysUpTo, Discrepancy;
    KeysOfEarlierChecks(db, a, c, 6, k);
    FoundIffDiscrepancy(db, a, k);
    DiscrepanciesAreCalled(db, a, k);
    FoundIsUpToSix(db, a, k);
    OnlyCalledTypes(db, a, k);
    if 1 <= CheckOf(k.kind) <= 6 {
      assert LookedForBy(k.kind, CheckOf(k.kind));
    }
  }

  lemma FoundIsUpToSix(db: Db, a: ReconcileAnswers, k: IssueKey)
    requires ReadsOk(a)
    ensures Found(db, a, k) <==> k in KeysUpTo(db, a, 6)
  {
  }

  lemma OnlyCalledTypes(db: Db, a: ReconcileAnswers, k: IssueKey)
    requires ReadsOk(a)
    ensures Calls(db, a, k) ==> 1 <= CheckOf(k.kind) <= 6
  {
  }

  /** All three reads came back, and nothing raised. */
  lemma ReturnsIff(a: ReconcileAnswers)
    ensures ReadsOk(a) <==> a.positions.Got? && a.orders.Got? && (a.deals.GotDeals? || a.deals.DealsUnsupported?)
    ensures RunReturns(a) <==> ReadsOk(a) && a.crash.None?
  {
  }

  /**
   What a run leaves: after failed reads the account failure; after a return the discrepancies, with the
   health gate; after a raise the run failure, on the finished run when all six checks and the
   resolution were done, else on what the checks before it upserted; then the gate of the raise.
   */
  lemma RunLeaves(db: Db, a: ReconcileAnswers)
    ensures var r := Reconcile(db, a);
      if !ReadsOk(a) then
        var failed := Upsert(db.issues, ACCOUNT_FAILURE, a.now);
        if a.crash.Some? && a.crash.value.checks >= 7 then
          r == db.(issues := Upsert(failed, RUN_FAILURE, a.now), gate := Some(FailureGate(a.crash.value.mentionsAccount)))
        else r == db.(issues := failed, gate := Some(HealthGate(failed)))
      else if a.crash.None? then
        RunEffect(db.issues, Discrepancies(db, a), a.now, r.issues) && r == db.(issues := r.issues, gate := Some(HealthGate(r.issues)))
      else
        && r == db.(issues := r.issues, gate := Some(FailureGate(a.crash.value.mentionsAccount)))
        && if a.crash.value.checks >= 7 then
             exists m :: RunEffect(db.issues, Discrepancies(db, a), a.now, m) && r.issues == Upsert(m, RUN_FAILURE, a.now)
           else
             exists m :: Refreshed(db.issues, KeysUpTo(db, a, a.crash.value.checks), a.now, m) && r.issues == UpsertIn(db.issues, m, RUN_FAILURE, a.now)
  {
    hide RunEffect, Refreshed, KeysUpTo, UpsertIn, HealthGate, FailureGate, Resolve;
    if ReadsOk(a) {
      var done := a.(crash := None);
      RunMatchesDetection(db, done);
      SameDiscrepancies(db, a);
      if a.crash.Some? {
        UpsertAllRefreshes(db.issues, KeysUpTo(db, a, a.crash.value.checks), a.now);
      }
    }
  }

  /** Neither does a raise change what the ledgers call for. */
  lemma SameDiscrepancies(db: Db, a: ReconcileAnswers)
    requires ReadsOk(a)
    ensures var done := a.(crash := None);
      ReadsOk(done) && Discrepancies(db, done) == Discrepancies(db, a) && IssuesAfterRun(db, done) == IssuesAfterRun(db, a)
  {
    hide Resolve, UpsertAll;
    var done := a.(crash := None);
    KeysOfLedgers(db, db, a, done, 6);
    forall k: IssueKey ensures k in Discrepancies(db, done) <==> k in Discrepancies(db, a) {
      DiscrepanciesAreCalled(db, a, k);
      DiscrepanciesAreCalled(db, done, k);
    }
  }

  ghost predicate Forgotten(issue: Issue, seen: set<IssueKey>) {
    issue.open && !issue.key.kind.Unmanaged? && issue.key !in seen
  }

  /** The issues a run resolves are counted: open, managed, and not seen. */
  lemma {:induction false} StaleCounted(issues: seq<Issue>, seen: set<IssueKey>, n: nat)
    requires n <= |issues|
    ensures Stale(issues[..n], seen) == |set i | 0 <= i < n && Forgotten(issues[i], seen)|
  {
    var stale := set i | 0 <= i < n && Forgotten(issues[i], seen);
    if n > 0 {
      StaleCounted(issues, seen, n - 1);
      var before := set i | 0 <= i < n - 1 && Forgotten(issues[i], seen);
      assert issues[..n][..n - 1] == issues[..n - 1];
      assert Stale(issues[..n], seen) == |before| + if Forgotten(issues[n - 1], seen) then 1 else 0;
      hide Stale, Forgotten;
      if Forgotten(issues[n - 1], seen) {
        assert stale == before + {n - 1};
      } else {
        assert stale == before;
      }
    }
  }

  /** The gate of a run that raised is shut, CRITICAL, with one open issue. */
  lemma GateOfRaise(mentionsAccount: bool)
    ensures FailureGate(mentionsAccount) == Gate(false, Critical, if mentionsAccount then SyncFailed else Protective, 1, 0, 1)
  {
  }
}
