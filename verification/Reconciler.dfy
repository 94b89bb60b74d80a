/** Four-ledger reconciliation, its issue table and its gate: app/services/trade_reconciler.py. */
module Reconciler {
  import opened Common
  import opened Ledger
  import opened PositionSync

  /** An exception after some of the six checks; at 7 or more, while the gate is saved. */
  datatype Crash = Crash(checks: nat, mentionsAccount: bool)

  datatype ReconcileAnswers = ReconcileAnswers(
    positions: Read<seq<RemotePosition>>,
    orders: Read<seq<RemoteOrder>>,
    deals: DealsRead,
    crash: Option<Crash>,
    now: Time)

  predicate ReadsOk(a: ReconcileAnswers) {
    a.positions.Got? && a.orders.Got? && !a.deals.DealsError?
  }

  // ------------------------------------------------------- the remote book

  /** `positions[symbol] = row`: the last holding row of a symbol. */
  function Holding(rows: seq<RemotePosition>, s: Symbol): (r: Option<RemotePosition>)
    ensures r.Some? ==> r.value in rows && IsHolding(r.value) && r.value.symbol == s
    ensures r.None? <==> forall i :: 0 <= i < |rows| && IsHolding(rows[i]) ==> rows[i].symbol != s
  {
    if rows == [] then None
    else
      var last := rows[|rows| - 1];
      if IsHolding(last) && last.symbol == s then Some(last) else Holding(rows[..|rows| - 1], s)
  }

  /** The keys of that dictionary, in insertion order. */
  function HeldSymbols(rows: seq<RemotePosition>): (ss: seq<Symbol>)
    ensures forall s :: s in ss <==> Holding(rows, s).Some?
  {
    if rows == [] then []
    else
      var last := rows[|rows| - 1];
      var ss := HeldSymbols(rows[..|rows| - 1]);
      if IsHolding(last) && last.symbol !in ss then ss + [last.symbol] else ss
  }

  predicate OnRemoteOrders(rows: seq<RemoteOrder>, id: string) {
    exists i :: 0 <= i < |rows| && rows[i].id == id
  }

  predicate OnRemoteDeals(rows: seq<RemoteDeal>, id: string) {
    exists i :: 0 <= i < |rows| && rows[i].orderId == id
  }

  /** The order is confirmed by an open order or a deal of the remote account. */
  predicate ConfirmedRemotely(o: Order, orders: seq<RemoteOrder>, deals: seq<RemoteDeal>) {
    o.futuId != "" && (OnRemoteOrders(orders, o.futuId) || OnRemoteDeals(deals, o.futuId))
  }

  // ---------------------------------------------------------- issue keys

  function SymbolKey(kind: IssueType, s: Symbol): IssueKey {
    IssueKey(kind, s, "", None, None, None)
  }

  function PositionKey(kind: IssueType, p: Position, i: nat): IssueKey {
    IssueKey(kind, p.symbol, "", None, Some(i), p.planId)
  }

  function RemoteOrderKey(row: RemoteOrder): IssueKey {
    IssueKey(RemoteOrderWithoutLocal, row.symbol, row.id, None, None, None)
  }

  function OrderKey(kind: IssueType, o: Order, i: nat): IssueKey {
    IssueKey(kind, o.symbol, o.futuId, Some(i), None, o.planId)
  }

  function SeverityOf(kind: IssueType): Severity {
    match kind
    case RemotePositionWithoutLocal => High
    case LocalPositionMissingRemote => High
    case PositionQtyMismatch => High
    case SellOrderStuck => High
    case AccountSyncFailed => Critical
    case ReconciliationRunFailed => Critical
    case BuyOrderInferredFilled => Info
    case _ => Warn
  }

  const ACCOUNT_FAILURE := SymbolKey(AccountSyncFailed, "")
  const RUN_FAILURE := SymbolKey(ReconciliationRunFailed, "")

  // ----------------------------------------------------------- six checks

  predicate CostDiffers(p: Position, row: RemotePosition) {
    row.cost > 0.0 && p.entryPrice > 0.0 && AbsReal(p.entryPrice - row.cost) / row.cost > 0.01
  }

  function KeysOfRemoteSymbol(ps: seq<Position>, s: Symbol): seq<IssueKey> {
    if FindOpen(ps, s).Some? then [] else [SymbolKey(RemotePositionWithoutLocal, s)]
  }

  function KeysOfPosition(p: Position, i: nat, rows: seq<RemotePosition>): seq<IssueKey> {
    var held := Holding(rows, p.symbol);
    if !p.status.Open? then []
    else if held.None? then [PositionKey(LocalPositionMissingRemote, p, i)]
    else
      (if p.shares != held.value.qty then [PositionKey(PositionQtyMismatch, p, i)] else []) +
      (if CostDiffers(p, held.value) then [PositionKey(PositionCostMismatch, p, i)] else [])
  }

  function KeysOfRemoteOrder(os: seq<Order>, row: RemoteOrder): seq<IssueKey> {
    if row.id == "" || FindByFutuId(os, row.id).Some? then [] else [RemoteOrderKey(row)]
  }

  function KeysOfOrder(o: Order, i: nat, orders: seq<RemoteOrder>, deals: seq<RemoteDeal>): seq<IssueKey> {
    if !Unresolved(o.status) || ConfirmedRemotely(o, orders, deals) then []
    else [OrderKey(if o.side.Sell? then SellOrderStuck else LocalOrderMissingRemote, o, i)]
  }

  function KeysOfClosed(p: Position, i: nat): seq<IssueKey> {
    if p.status.ClosedUnverified? then [PositionKey(CloseUnverified, p, i)] else []
  }

  function KeysOfInferred(o: Order, i: nat): seq<IssueKey> {
    if o.status.FilledInferred? && o.side.Buy? then [OrderKey(BuyOrderInferredFilled, o, i)] else []
  }

  function Check1(ps: seq<Position>, ss: seq<Symbol>, n: nat): seq<IssueKey>
    requires n <= |ss|
  {
    if n == 0 then [] else Check1(ps, ss, n - 1) + KeysOfRemoteSymbol(ps, ss[n - 1])
  }

  function Check2(ps: seq<Position>, rows: seq<RemotePosition>, n: nat): seq<IssueKey>
    requires n <= |ps|
  {
    if n == 0 then [] else Check2(ps, rows, n - 1) + KeysOfPosition(ps[n - 1], n - 1, rows)
  }

  function Check3(os: seq<Order>, rows: seq<RemoteOrder>, n: nat): seq<IssueKey>
    requires n <= |rows|
  {
    if n == 0 then [] else Check3(os, rows, n - 1) + KeysOfRemoteOrder(os, rows[n - 1])
  }

  function Check4(os: seq<Order>, orders: seq<RemoteOrder>, deals: seq<RemoteDeal>, n: nat): seq<IssueKey>
    requires n <= |os|
  {
    if n == 0 then [] else Check4(os, orders, deals, n - 1) + KeysOfOrder(os[n - 1], n - 1, orders, deals)
  }

  function Check5(ps: seq<Position>, n: nat): seq<IssueKey>
    requires n <= |ps|
  {
    if n == 0 then [] else Check5(ps, n - 1) + KeysOfClosed(ps[n - 1], n - 1)
  }

  function Check6(os: seq<Order>, n: nat): seq<IssueKey>
    requires n <= |os|
  {
    if n == 0 then [] else Check6(os, n - 1) + KeysOfInferred(os[n - 1], n - 1)
  }

  /** The keys check number `c` upserts. */
  function KeysOfCheck(db: Db, a: ReconcileAnswers, c: nat): seq<IssueKey>
    requires ReadsOk(a)
  {
    match c
    case 1 => Check1(db.positions, HeldSymbols(a.positions.rows), |HeldSymbols(a.positions.rows)|)
    case 2 => Check2(db.positions, a.positions.rows, |db.positions|)
    case 3 => Check3(db.orders, a.orders.rows, |a.orders.rows|)
    case 4 => Check4(db.orders, a.orders.rows, DealRows(a.deals), |db.orders|)
    case 5 => Check5(db.positions, |db.positions|)
    case 6 => Check6(db.orders, |db.orders|)
    case _ => []
  }

  /** The keys the first `c` checks upsert, in order. */
  function KeysUpTo(db: Db, a: ReconcileAnswers, c: nat): seq<IssueKey>
    requires ReadsOk(a)
  {
    if c == 0 then [] else KeysUpTo(db, a, c - 1) + KeysOfCheck(db, a, c)
  }

  // ------------------------------------------------------- the issue table

  /** The OPEN row of a key. */
  function FindIssue(issues: seq<Issue>, k: IssueKey): (r: Option<nat>)
    ensures r.Some? ==> r.value < |issues| && issues[r.value].open && issues[r.value].key == k
    ensures r.None? <==> forall i :: 0 <= i < |issues| && issues[i].open ==> issues[i].key != k
  {
    if issues == [] then None
    else
      var r := FindIssue(issues[..|issues| - 1], k);
      if r.Some? then r
      else if issues[|issues| - 1].open && issues[|issues| - 1].key == k then Some(|issues| - 1)
      else None
  }

  function Touched(issue: Issue, now: Time): Issue {
    issue.(severity := SeverityOf(issue.key.kind), lastSeen := now, resolvedAt := None)
  }

  function NewIssue(k: IssueKey, now: Time): Issue {
    Issue(k, SeverityOf(k.kind), true, now, now, None)
  }

  /**
   `_upsert_issue`: the lookup queries the committed table, since the production session does not
   flush its own pending rows first (db.py:52), and the row it finds or adds is one of `issues`.
   */
  function UpsertIn(committed: seq<Issue>, issues: seq<Issue>, k: IssueKey, now: Time): (r: seq<Issue>)
    requires |committed| <= |issues|
    ensures |issues| <= |r| <= |issues| + 1
  {
    var at := FindIssue(committed, k);
    if at.Some? then issues[at.value := Touched(issues[at.value], now)] else issues + [NewIssue(k, now)]
  }

  /** One upsert on a table with nothing pending. */
  function Upsert(issues: seq<Issue>, k: IssueKey, now: Time): (r: seq<Issue>) {
    UpsertIn(issues, issues, k, now)
  }

  /** The upserts of one run, on the table committed before it. */
  function UpsertAll(committed: seq<Issue>, ks: seq<IssueKey>, now: Time): (r: seq<Issue>)
    ensures |committed| <= |r|
  {
    if ks == [] then committed else UpsertIn(committed, UpsertAll(committed, ks[..|ks| - 1], now), ks[|ks| - 1], now)
  }

  function ResolvedIssue(issue: Issue, seen: set<IssueKey>, now: Time): Issue {
    if issue.open && Managed(issue.key.kind) && issue.key !in seen
    then issue.(open := false, resolvedAt := Some(now), lastSeen := now) else issue
  }

  function Resolve(issues: seq<Issue>, seen: set<IssueKey>, now: Time): (r: seq<Issue>)
    ensures |r| == |issues|
    ensures forall i :: 0 <= i < |issues| ==> r[i] == ResolvedIssue(issues[i], seen, now)
  {
    seq(|issues|, i requires 0 <= i < |issues| => ResolvedIssue(issues[i], seen, now))
  }

  function Keys(ks: seq<IssueKey>): set<IssueKey> {
    set k | k in ks
  }

  // ------------------------------------------------------------- the gate

  function Rank(s: Severity): nat {
    match s case Info => 0 case Warn => 1 case High => 2 case Critical => 3
  }

  function MaxSeverity(issues: seq<Issue>): (s: Severity)
    ensures forall i :: 0 <= i < |issues| && issues[i].open ==> Rank(issues[i].severity) <= Rank(s)
    ensures s == Info || exists i :: 0 <= i < |issues| && issues[i].open && issues[i].severity == s
  {
    if issues == [] then Info
    else
      var n := |issues| - 1;
      var s := MaxSeverity(issues[..n]);
      assert forall i :: 0 <= i < n ==> issues[..n][i] == issues[i];
      if issues[n].open && Rank(issues[n].severity) > Rank(s) then issues[n].severity else s
  }

  function CountOpen(issues: seq<Issue>, s: Severity): nat {
    if issues == [] then 0
    else CountOpen(issues[..|issues| - 1], s) + if issues[|issues| - 1].open && issues[|issues| - 1].severity == s then 1 else 0
  }

  function OpenRows(issues: seq<Issue>): nat {
    CountOpen(issues, Info) + CountOpen(issues, Warn) + CountOpen(issues, High) + CountOpen(issues, Critical)
  }

  predicate NothingBlocks(issues: seq<Issue>) {
    forall i :: 0 <= i < |issues| && issues[i].open ==> !Blocking(issues[i].severity)
  }

  function ModeOf(allow: bool, s: Severity, mentionsAccount: bool): GateMode {
    if s.Critical? && mentionsAccount then SyncFailed
    else if !allow || Blocking(s) then Protective
    else if s.Warn? then Degraded
    else Normal
  }

  /** The gate saved after a run that returned: every CRITICAL reason of a run names the account. */
  function HealthGate(issues: seq<Issue>): Gate {
    var s := MaxSeverity(issues);
    Gate(NothingBlocks(issues), s, ModeOf(NothingBlocks(issues), s, true),
         OpenRows(issues), CountOpen(issues, High), CountOpen(issues, Critical))
  }

  function FailureGate(mentionsAccount: bool): Gate {
    Gate(false, Critical, ModeOf(false, Critical, mentionsAccount), 1, 0, 1)
  }

  /** What the approval step reads: the saved gate, or one derived from open issues. */
  function GateStatus(db: Db): Option<Gate> {
    if db.gate.Some? then db.gate
    else if OpenRows(db.issues) == 0 then None
    else
      var s := MaxSeverity(db.issues);
      var allow := CountOpen(db.issues, Critical) == 0 && CountOpen(db.issues, High) == 0;
      Some(Gate(allow, s, ModeOf(allow, s, true), OpenRows(db.issues), CountOpen(db.issues, High), CountOpen(db.issues, Critical)))
  }

  /** `reconciliation_allows_new_entries`. */
  predicate AllowsNewEntries(db: Db) {
    var gate := GateStatus(db);
    gate.Some? && NothingBlocks(db.issues) && gate.value.allow
  }

  // ---------------------------------------------------------- the whole run

  /** The issue table after a run that read every ledger and raised nothing. */
  function IssuesAfterRun(db: Db, a: ReconcileAnswers): seq<Issue>
    requires ReadsOk(a)
  {
    var ks := KeysUpTo(db, a, 6);
    Resolve(UpsertAll(db.issues, ks, a.now), Keys(ks), a.now)
  }

  /** A run that raised left its upserts pending, or, at its last step, had committed them. */
  function IssuesAfterRaise(db: Db, a: ReconcileAnswers): seq<Issue>
    requires ReadsOk(a) && a.crash.Some?
  {
    if a.crash.value.checks >= 7 then Upsert(IssuesAfterRun(db, a), RUN_FAILURE, a.now)
    else UpsertIn(db.issues, UpsertAll(db.issues, KeysUpTo(db, a, a.crash.value.checks), a.now), RUN_FAILURE, a.now)
  }

  predicate RunReturns(a: ReconcileAnswers) {
    ReadsOk(a) && a.crash.None?
  }

  /** Reconcile, then save the gate or the gate failure (sim_loop.py:34-50). */
  function Reconcile(db: Db, a: ReconcileAnswers): (r: Db)
    ensures r.orders == db.orders && r.positions == db.positions && r.plans == db.plans
    ensures r.deals == db.deals && r.buyLog == db.buyLog && r.gate.Some?
  {
    if !ReadsOk(a) then
      var issues := Upsert(db.issues, ACCOUNT_FAILURE, a.now);
      if a.crash.Some? && a.crash.value.checks >= 7
      then db.(issues := Upsert(issues, RUN_FAILURE, a.now), gate := Some(FailureGate(a.crash.value.mentionsAccount)))
      else db.(issues := issues, gate := Some(HealthGate(issues)))
    else if a.crash.None? then
      var issues := IssuesAfterRun(db, a);
      db.(issues := issues, gate := Some(HealthGate(issues)))
    else
      db.(issues := IssuesAfterRaise(db, a), gate := Some(FailureGate(a.crash.value.mentionsAccount)))
  }

  // ------------------------------------------------------- the method form

  /** `committed` is what the lookup query sees. */
  method UpsertIssue(store: Store, committed: seq<Issue>, k: IssueKey, now: Time) returns (created: nat)
    requires |committed| <= |store.issues|
    modifies store`issues
    ensures store.issues == UpsertIn(committed, old(store.issues), k, now)
    ensures created == |store.issues| - |old(store.issues)|
  {
    var at := FindIssue(committed, k);
    if at.None? {
      store.issues := store.issues + [Issue(k, SeverityOf(k.kind), true, now, now, None)];
      created := 1;
    } else {
      store.issues := store.issues[at.value := Touched(store.issues[at.value], now)];
      created := 0;
    }
  }

  /** What the run has done so far: `ks` upserted into `committed` and remembered, with the new rows counted. */
  ghost predicate Recorded(committed: seq<Issue>, ks: seq<IssueKey>, now: Time, issues: seq<Issue>, seen: set<IssueKey>, added: nat) {
    issues == UpsertAll(committed, ks, now) && seen == Keys(ks) && added == |issues| - |committed|
  }

  /** Upsert the keys one row asks for, and remember them as seen. */
  method Record(store: Store, ks: seq<IssueKey>, seen0: set<IssueKey>, added0: nat, now: Time,
                committed: seq<Issue>, ghost done: seq<IssueKey>)
    returns (seen: set<IssueKey>, added: nat)
    requires Recorded(committed, done, now, store.issues, seen0, added0)
    modifies store`issues
    ensures Recorded(committed, done + ks, now, store.issues, seen, added)
  {
    hide Upsert;
    seen, added := seen0, added0;
    assert done + ks[..0] == done;
    for i := 0 to |ks|
      invariant Recorded(committed, done + ks[..i], now, store.issues, seen, added)
    {
      var created := UpsertIssue(store, committed, ks[i], now);
      seen, added := seen + {ks[i]}, added + created;
      assert (done + ks[..i + 1])[..|done| + i] == done + ks[..i];
      assert done + ks[..i + 1] == done + ks[..i] + [ks[i]];
    }
    assert ks[..|ks|] == ks;
  }

  /** `_check_remote_positions_without_local`, over the held symbols. */
  method CheckRemotePositions(store: Store, ss: seq<Symbol>, seen0: set<IssueKey>, added0: nat, now: Time,
    committed: seq<Issue>, ghost done: seq<IssueKey>)
    returns (seen: set<IssueKey>, added: nat)
    requires Recorded(committed, done, now, store.issues, seen0, added0)
    modifies store`issues
    ensures Recorded(committed, done + Check1(store.positions, ss, |ss|), now, store.issues, seen, added)
  {
    hide Recorded, KeysOfRemoteSymbol;
    var ps := store.positions;
    seen, added := seen0, added0;
    assert done + Check1(ps, ss, 0) == done;
    for i := 0 to |ss|
      invariant Recorded(committed, done + Check1(ps, ss, i), now, store.issues, seen, added)
    {
      var ks := KeysOfRemoteSymbol(ps, ss[i]);
      seen, added := Record(store, ks, seen, added, now, committed, done + Check1(ps, ss, i));
      assert done + Check1(ps, ss, i) + ks == done + Check1(ps, ss, i + 1);
    }
  }

  /** `_check_local_positions`. */
  method CheckLocalPositions(store: Store, rows: seq<RemotePosition>, seen0: set<IssueKey>, added0: nat, now: Time,
    committed: seq<Issue>, ghost done: seq<IssueKey>)
    returns (seen: set<IssueKey>, added: nat)
    requires Recorded(committed, done, now, store.issues, seen0, added0)
    modifies store`issues
    ensures Recorded(committed, done + Check2(store.positions, rows, |store.positions|), now, store.issues, seen, added)
  {
    hide Recorded, KeysOfPosition;
    var ps := store.positions;
    seen, added := seen0, added0;
    assert done + Check2(ps, rows, 0) == done;
    for i := 0 to |ps|
      invariant Recorded(committed, done + Check2(ps, rows, i), now, store.issues, seen, added)
    {
      var ks := KeysOfPosition(ps[i], i, rows);
      seen, added := Record(store, ks, seen, added, now, committed, done + Check2(ps, rows, i));
      assert done + Check2(ps, rows, i) + ks == done + Check2(ps, rows, i + 1);
    }
  }

  /** `_check_remote_orders_without_local`. */
  method CheckRemoteOrders(store: Store, rows: seq<RemoteOrder>, seen0: set<IssueKey>, added0: nat, now: Time,
    committed: seq<Issue>, ghost done: seq<IssueKey>)
    returns (seen: set<IssueKey>, added: nat)
    requires Recorded(committed, done, now, store.issues, seen0, added0)
    modifies store`issues
    ensures Recorded(committed, done + Check3(store.orders, rows, |rows|), now, store.issues, seen, added)
  {
    hide Recorded, KeysOfRemoteOrder;
    var os := store.orders;
    seen, added := seen0, added0;
    assert done + Check3(os, rows, 0) == done;
    for i := 0 to |rows|
      invariant Recorded(committed, done + Check3(os, rows, i), now, store.issues, seen, added)
    {
      var ks := KeysOfRemoteOrder(os, rows[i]);
      seen, added := Record(store, ks, seen, added, now, committed, done + Check3(os, rows, i));
      assert done + Check3(os, rows, i) + ks == done + Check3(os, rows, i + 1);
    }
  }

  /** `_check_local_orders`. */
  method CheckLocalOrders(store: Store, orders: seq<RemoteOrder>, deals: seq<RemoteDeal>, seen0: set<IssueKey>, added0: nat, now: Time,
    committed: seq<Issue>, ghost done: seq<IssueKey>)
    returns (seen: set<IssueKey>, added: nat)
    requires Recorded(committed, done, now, store.issues, seen0, added0)
    modifies store`issues
    ensures Recorded(committed, done + Check4(store.orders, orders, deals, |store.orders|), now, store.issues, seen, added)
  {
    hide Recorded, KeysOfOrder;
    var os := store.orders;
    seen, added := seen0, added0;
    assert done + Check4(os, orders, deals, 0) == done;
    for i := 0 to |os|
      invariant Recorded(committed, done + Check4(os, orders, deals, i), now, store.issues, seen, added)
    {
      var ks := KeysOfOrder(os[i], i, orders, deals);
      seen, added := Record(store, ks, seen, added, now, committed, done + Check4(os, orders, deals, i));
      assert done + Check4(os, orders, deals, i) + ks == done + Check4(os, orders, deals, i + 1);
    }
  }

  /** `_check_closed_unverified`. */
  method CheckClosedUnverified(store: Store, seen0: set<IssueKey>, added0: nat, now: Time,
    committed: seq<Issue>, ghost done: seq<IssueKey>)
    returns (seen: set<IssueKey>, added: nat)
    requires Recorded(committed, done, now, store.issues, seen0, added0)
    modifies store`issues
    ensures Recorded(committed, done + Check5(store.positions, |store.positions|), now, store.issues, seen, added)
  {
    hide Recorded, KeysOfClosed;
    var ps := store.positions;
    seen, added := seen0, added0;
    assert done + Check5(ps, 0) == done;
    for i := 0 to |ps|
      invariant Recorded(committed, done + Check5(ps, i), now, store.issues, seen, added)
    {
      var ks := KeysOfClosed(ps[i], i);
      seen, added := Record(store, ks, seen, added, now, committed, done + Check5(ps, i));
      assert done + Check5(ps, i) + ks == done + Check5(ps, i + 1);
    }
  }

  /** `_check_inferred_buy_orders`. */
  method CheckInferredBuys(store: Store, seen0: set<IssueKey>, added0: nat, now: Time,
    committed: seq<Issue>, ghost done: seq<IssueKey>)
    returns (seen: set<IssueKey>, added: nat)
    requires Recorded(committed, done, now, store.issues, seen0, added0)
    modifies store`issues
    ensures Recorded(committed, done + Check6(store.orders, |store.orders|), now, store.issues, seen, added)
  {
    hide Recorded, KeysOfInferred;
    var os := store.orders;
    seen, added := seen0, added0;
    assert done + Check6(os, 0) == done;
    for i := 0 to |os|
      invariant Recorded(committed, done + Check6(os, i), now, store.issues, seen, added)
    {
      var ks := KeysOfInferred(os[i], i);
      seen, added := Record(store, ks, seen, added, now, committed, done + Check6(os, i));
      assert done + Check6(os, i) + ks == done + Check6(os, i + 1);
    }
  }

  function Stale(issues: seq<Issue>, seen: set<IssueKey>): nat {
    if issues == [] then 0
    else
      var last := issues[|issues| - 1];
      Stale(issues[..|issues| - 1], seen) + if last.open && Managed(last.key.kind) && last.key !in seen then 1 else 0
  }

  method ResolveStaleIssues(store: Store, seen: set<IssueKey>, now: Time) returns (resolved: nat)
    modifies store`issues
    ensures store.issues == Resolve(old(store.issues), seen, now)
    ensures resolved == Stale(old(store.issues), seen)
  {
    resolved := 0;
    for i := 0 to |store.issues|
      invariant |store.issues| == |old(store.issues)|
      invariant forall j :: 0 <= j < i ==> store.issues[j] == ResolvedIssue(old(store.issues)[j], seen, now)
      invariant forall j :: i <= j < |store.issues| ==> store.issues[j] == old(store.issues)[j]
      invariant resolved == Stale(old(store.issues)[..i], seen)
    {
      var issue := store.issues[i];
      assert old(store.issues)[..i + 1][..i] == old(store.issues)[..i];
      if issue.open && Managed(issue.key.kind) && issue.key !in seen {
        store.issues := store.issues[i := issue.(open := false, resolvedAt := Some(now), lastSeen := now)];
        resolved := resolved + 1;
      }
    }
    assert old(store.issues)[..|old(store.issues)|] == old(store.issues);
  }

  /** Check number `c`, in place. */
  method RunCheck(store: Store, a: ReconcileAnswers, c: nat, seen0: set<IssueKey>, added0: nat,
    committed: seq<Issue>, ghost done: seq<IssueKey>)
    returns (seen: set<IssueKey>, added: nat)
    requires ReadsOk(a) && Recorded(committed, done, a.now, store.issues, seen0, added0)
    modifies store`issues
    ensures Recorded(committed, done + KeysOfCheck(old(store.Snapshot()), a, c), a.now, store.issues, seen, added)
  {
    hide Recorded;
    match c
    case 1 => seen, added := CheckRemotePositions(store, HeldSymbols(a.positions.rows), seen0, added0, a.now, committed, done);
    case 2 => seen, added := CheckLocalPositions(store, a.positions.rows, seen0, added0, a.now, committed, done);
    case 3 => seen, added := CheckRemoteOrders(store, a.orders.rows, seen0, added0, a.now, committed, done);
    case 4 => seen, added := CheckLocalOrders(store, a.orders.rows, DealRows(a.deals), seen0, added0, a.now, committed, done);
    case 5 => seen, added := CheckClosedUnverified(store, seen0, added0, a.now, committed, done);
    case 6 => seen, added := CheckInferredBuys(store, seen0, added0, a.now, committed, done);
    case _ =>
      assert done + [] == done;
      seen, added := seen0, added0;
  }

  /** The checks in order, up to the one that raised (all six when none does). */
  method RunChecks(store: Store, a: ReconcileAnswers, n: nat) returns (seen: set<IssueKey>, added: nat)
    requires ReadsOk(a)
    modifies store`issues
    ensures Recorded(old(store.issues), KeysUpTo(old(store.Snapshot()), a, n), a.now, store.issues, seen, added)
  {
    hide KeysOfCheck;
    var committed := store.issues;
    seen, added := {}, 0;
    for c := 0 to n
      invariant Recorded(old(store.issues), KeysUpTo(old(store.Snapshot()), a, c), a.now, store.issues, seen, added)
    {
      ghost var db := store.Snapshot();
      seen, added := RunCheck(store, a, c + 1, seen, added, committed, KeysUpTo(old(store.Snapshot()), a, c));
      KeysIgnoreIssues(db, old(store.Snapshot()), a, c + 1);
    }
  }

  /** `run_trade_reconciliation` followed by saving the gate, as the loop calls them. */
  method RunReconciliation(store: Store, a: ReconcileAnswers) returns (added: nat, resolved: nat)
    modifies store`issues, store`gate
    ensures store.Snapshot() == Reconcile(old(store.Snapshot()), a)
    ensures added == |store.issues| - |old(store.issues)|
    ensures resolved == if ReadsOk(a) && (a.crash.None? || a.crash.value.checks >= 7)
      then var ks := KeysUpTo(old(store.Snapshot()), a, 6); Stale(UpsertAll(old(store.issues), ks, a.now), Keys(ks)) else 0
  {
    hide KeysUpTo, UpsertAll, Resolve;
    var committed := store.issues;
    resolved := 0;
    if a.positions.ReadError? || a.orders.ReadError? || a.deals.DealsError? {
      added := UpsertIssue(store, committed, ACCOUNT_FAILURE, a.now);
      committed := store.issues;
    } else {
      var seen;
      seen, added := RunChecks(store, a, if a.crash.None? || a.crash.value.checks >= 7 then 6 else a.crash.value.checks);
      if a.crash.None? || a.crash.value.checks >= 7 {
        resolved := ResolveStaleIssues(store, seen, a.now);
        committed := store.issues;
      }
    }
    if a.crash.Some? && (a.crash.value.checks >= 7 || ReadsOk(a)) {
      var created := UpsertIssue(store, committed, RUN_FAILURE, a.now);
      added := added + created;
      store.gate := Some(FailureGate(a.crash.value.mentionsAccount));
    } else {
      store.gate := Some(HealthGate(store.issues));
    }
  }

  // ------------------------------------------------------------- properties

  /** The keys depend on the ledgers, not on the issue table. */
  lemma KeysIgnoreIssues(db: Db, db': Db, a: ReconcileAnswers, c: nat)
    requires ReadsOk(a) && db.orders == db'.orders && db.positions == db'.positions
    ensures KeysOfCheck(db, a, c) == KeysOfCheck(db', a, c)
  {
  }
}
