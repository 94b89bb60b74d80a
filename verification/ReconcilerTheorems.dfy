/** What reconciliation promises: its incremental issue table against detection from scratch. */
module ReconcilerTheorems {
  import opened Common
  import opened Ledger
  import opened PositionSync
  import opened Reconciler

  // ------------------------------------------- detection from scratch

  predicate HeldRemotely(a: ReconcileAnswers, s: Symbol)
    requires ReadsOk(a)
  {
    exists i :: 0 <= i < |a.positions.rows| && IsHolding(a.positions.rows[i]) && a.positions.rows[i].symbol == s
  }

  predicate HeldLocally(db: Db, s: Symbol) {
    exists i :: 0 <= i < |db.positions| && db.positions[i].status.Open? && db.positions[i].symbol == s
  }

  /** Row `j` is the remote account's last word on its symbol. */
  predicate LastWord(rows: seq<RemotePosition>, j: int) {
    0 <= j < |rows| && IsHolding(rows[j])
    && forall m :: j < m < |rows| && IsHolding(rows[m]) ==> rows[m].symbol != rows[j].symbol
  }

  /** The local position in row `i` and a remote row disagree in the way `kind` names. */
  predicate Disagrees(kind: IssueType, p: Position, row: RemotePosition) {
    row.symbol == p.symbol
    && match kind
       case PositionQtyMismatch => p.shares != row.qty
       case PositionCostMismatch => CostDiffers(p, row)
       case _ => false
  }

  /** A discrepancy of the current ledgers, stated without any table of issues. */
  ghost predicate Discrepancy(db: Db, a: ReconcileAnswers, k: IssueKey)
    requires ReadsOk(a)
  {
    match k.kind
    case RemotePositionWithoutLocal =>
      k == SymbolKey(k.kind, k.symbol) && HeldRemotely(a, k.symbol) && !HeldLocally(db, k.symbol)
    case LocalPositionMissingRemote =>
      exists i :: 0 <= i < |db.positions| && k == PositionKey(k.kind, db.positions[i], i)
        && db.positions[i].status.Open? && !HeldRemotely(a, db.positions[i].symbol)
    case PositionQtyMismatch =>
      exists i, j :: 0 <= i < |db.positions| && k == PositionKey(k.kind, db.positions[i], i)
        && db.positions[i].status.Open? && LastWord(a.positions.rows, j) && Disagrees(k.kind, db.positions[i], a.positions.rows[j])
    case PositionCostMismatch =>
      exists i, j :: 0 <= i < |db.positions| && k == PositionKey(k.kind, db.positions[i], i)
        && db.positions[i].status.Open? && LastWord(a.positions.rows, j) && Disagrees(k.kind, db.positions[i], a.positions.rows[j])
    case RemoteOrderWithoutLocal =>
      exists j :: 0 <= j < |a.orders.rows| && k == RemoteOrderKey(a.orders.rows[j]) && a.orders.rows[j].id != ""
        && forall i :: 0 <= i < |db.orders| ==> db.orders[i].futuId != a.orders.rows[j].id
    case SellOrderStuck =>
      exists i :: 0 <= i < |db.orders| && k == OrderKey(k.kind, db.orders[i], i) && db.orders[i].side.Sell?
        && Unresolved(db.orders[i].status) && !ConfirmedRemotely(db.orders[i], a.orders.rows, DealRows(a.deals))
    case LocalOrderMissingRemote =>
      exists i :: 0 <= i < |db.orders| && k == OrderKey(k.kind, db.orders[i], i) && db.orders[i].side.Buy?
        && Unresolved(db.orders[i].status) && !ConfirmedRemotely(db.orders[i], a.orders.rows, DealRows(a.deals))
    case CloseUnverified =>
      exists i :: 0 <= i < |db.positions| && k == PositionKey(k.kind, db.positions[i], i) && db.positions[i].status.ClosedUnverified?
    case BuyOrderInferredFilled =>
      exists i :: 0 <= i < |db.orders| && k == OrderKey(k.kind, db.orders[i], i)
        && db.orders[i].status.FilledInferred? && db.orders[i].side.Buy?
    case _ => false
  }

  // ---------------------------------------- the six checks find exactly those

  lemma LastWordIsARow(rows: seq<RemotePosition>, j: int)
    requires LastWord(rows, j)
    ensures 0 <= j < |rows|
  {
  }

  /** A row before the last keeps its last word exactly when the last row does not speak for its symbol. */
  lemma LastWordOfPrefix(rows: seq<RemotePosition>, j: nat)
    requires j < |rows| - 1
    ensures var last := rows[|rows| - 1];
      LastWord(rows, j) <==> LastWord(rows[..|rows| - 1], j) && !(IsHolding(last) && last.symbol == rows[j].symbol)
  {
    var init := rows[..|rows| - 1];
    assert forall m :: 0 <= m < |init| ==> init[m] == rows[m];
  }

  lemma {:induction false} HoldingIsLastWord(rows: seq<RemotePosition>, s: Symbol)
    ensures Holding(rows, s).Some? ==> exists j :: LastWord(rows, j) && rows[j] == Holding(rows, s).value
    ensures forall j :: LastWord(rows, j) && rows[j].symbol == s ==> Holding(rows, s) == Some(rows[j])
  {
    if rows != [] {
      var n := |rows| - 1;
      var init := rows[..n];
      HoldingIsLastWord(init, s);
      forall j: nat | j < n ensures LastWord(rows, j) <==> LastWord(init, j) && !(IsHolding(rows[n]) && rows[n].symbol == rows[j].symbol) {
        LastWordOfPrefix(rows, j);
      }
      assert LastWord(rows, n) <==> IsHolding(rows[n]);
      assert forall j :: LastWord(rows, j) ==> 0 <= j <= n && (j < n ==> init[j] == rows[j]);
      hide LastWord;
      if Holding(init, s).Some? {
        var j :| LastWord(init, j) && init[j] == Holding(init, s).value;
        assert j < n by { LastWordIsARow(init, j); }
      }
    }
  }

  lemma {:induction false} Check1Finds(ps: seq<Position>, ss: seq<Symbol>, n: nat, k: IssueKey)
    requires n <= |ss|
    ensures k in Check1(ps, ss, n) <==> exists i :: 0 <= i < n && k in KeysOfRemoteSymbol(ps, ss[i])
  {
    hide KeysOfRemoteSymbol;
    if n > 0 { Check1Finds(ps, ss, n - 1, k); }
  }

  /** `k` is one of the keys the position in row `i` asks for. */
  predicate AskedBy(ps: seq<Position>, rows: seq<RemotePosition>, i: nat, k: IssueKey)
    requires i < |ps|
  {
    k in KeysOfPosition(ps[i], i, rows)
  }

  lemma {:induction false} Check2Origin(ps: seq<Position>, rows: seq<RemotePosition>, n: nat, k: IssueKey) returns (i: nat)
    requires n <= |ps| && k in Check2(ps, rows, n)
    ensures i < n && AskedBy(ps, rows, i, k)
  {
    if k in Check2(ps, rows, n - 1) {
      i := Check2Origin(ps, rows, n - 1, k);
    } else {
      i := n - 1;
    }
  }

  lemma {:induction false} Check2Includes(ps: seq<Position>, rows: seq<RemotePosition>, n: nat, k: IssueKey, i: nat)
    requires i < n <= |ps| && AskedBy(ps, rows, i, k)
    ensures k in Check2(ps, rows, n)
  {
    hide KeysOfPosition;
    if i < n - 1 {
      Check2Includes(ps, rows, n - 1, k, i);
    }
  }

  lemma {:induction false} Check3Finds(os: seq<Order>, rows: seq<RemoteOrder>, n: nat, k: IssueKey)
    requires n <= |rows|
    ensures k in Check3(os, rows, n) <==> exists i :: 0 <= i < n && k in KeysOfRemoteOrder(os, rows[i])
  {
    hide KeysOfRemoteOrder;
    if n > 0 { Check3Finds(os, rows, n - 1, k); }
  }

  lemma {:induction false} Check4Finds(os: seq<Order>, orders: seq<RemoteOrder>, deals: seq<RemoteDeal>, n: nat, k: IssueKey)
    requires n <= |os|
    ensures k in Check4(os, orders, deals, n) <==> exists i :: 0 <= i < n && k in KeysOfOrder(os[i], i, orders, deals)
  {
    hide KeysOfOrder;
    if n > 0 { Check4Finds(os, orders, deals, n - 1, k); }
  }

  lemma {:induction false} Check5Finds(ps: seq<Position>, n: nat, k: IssueKey)
    requires n <= |ps|
    ensures k in Check5(ps, n) <==> exists i :: 0 <= i < n && k in KeysOfClosed(ps[i], i)
  {
    hide KeysOfClosed;
    if n > 0 { Check5Finds(ps, n - 1, k); }
  }

  lemma {:induction false} Check6Finds(os: seq<Order>, n: nat, k: IssueKey)
    requires n <= |os|
    ensures k in Check6(os, n) <==> exists i :: 0 <= i < n && k in KeysOfInferred(os[i], i)
  {
    hide KeysOfInferred;
    if n > 0 { Check6Finds(os, n - 1, k); }
  }

  ghost predicate Found(db: Db, a: ReconcileAnswers, k: IssueKey)
    requires ReadsOk(a)
  {
    k in KeysUpTo(db, a, 6)
  }

  lemma FoundByACheck(db: Db, a: ReconcileAnswers, k: IssueKey)
    requires ReadsOk(a)
    ensures Found(db, a, k) <==>
      k in KeysOfCheck(db, a, 1) || k in KeysOfCheck(db, a, 2) || k in KeysOfCheck(db, a, 3)
      || k in KeysOfCheck(db, a, 4) || k in KeysOfCheck(db, a, 5) || k in KeysOfCheck(db, a, 6)
  {
    assert KeysUpTo(db, a, 0) == [];
    assert KeysUpTo(db, a, 2) == KeysUpTo(db, a, 1) + KeysOfCheck(db, a, 2);
    assert KeysUpTo(db, a, 4) == KeysUpTo(db, a, 3) + KeysOfCheck(db, a, 4);
    assert KeysUpTo(db, a, 6) == KeysUpTo(db, a, 5) + KeysOfCheck(db, a, 6);
  }

  lemma RemoteSymbolsFind(db: Db, a: ReconcileAnswers, k: IssueKey)
    requires ReadsOk(a)
    ensures k in KeysOfCheck(db, a, 1) <==> k.kind.RemotePositionWithoutLocal? && Discrepancy(db, a, k)
  {
    var rows, ss := a.positions.rows, HeldSymbols(a.positions.rows);
    Check1Finds(db.positions, ss, |ss|, k);
    if k in KeysOfCheck(db, a, 1) {
      var i :| 0 <= i < |ss| && k in KeysOfRemoteSymbol(db.positions, ss[i]);
      assert Holding(rows, ss[i]).Some?;
    }
    if k.kind.RemotePositionWithoutLocal? && Discrepancy(db, a, k) {
      assert k.symbol in ss;
      var i :| 0 <= i < |ss| && ss[i] == k.symbol;
      assert k in KeysOfRemoteSymbol(db.positions, ss[i]);
    }
  }

  lemma {:induction false} PositionKeysMean(p: Position, i: nat, rows: seq<RemotePosition>, k: IssueKey)
    ensures k in KeysOfPosition(p, i, rows) <==>
      k == PositionKey(k.kind, p, i) && p.status.Open?
      && if k.kind.LocalPositionMissingRemote? then Holding(rows, p.symbol).None?
         else exists j :: LastWord(rows, j) && Disagrees(k.kind, p, rows[j])
  {
    HoldingIsLastWord(rows, p.symbol);
    var held := Holding(rows, p.symbol);
    if held.Some? {
      var j :| LastWord(rows, j) && rows[j] == held.value;
      assert forall m :: LastWord(rows, m) && rows[m].symbol == p.symbol ==> rows[m] == rows[j];
    }
  }

  lemma LocalPositionsFind(db: Db, a: ReconcileAnswers, k: IssueKey)
    requires ReadsOk(a)
    ensures k in KeysOfCheck(db, a, 2) <==>
      (k.kind.LocalPositionMissingRemote? || k.kind.PositionQtyMismatch? || k.kind.PositionCostMismatch?) && Discrepancy(db, a, k)
  {
    var ps, rows := db.positions, a.positions.rows;
    if k in KeysOfCheck(db, a, 2) {
      var i := Check2Origin(ps, rows, |ps|, k);
      PositionKeysMean(ps[i], i, rows, k);
    }
    if (k.kind.LocalPositionMissingRemote? || k.kind.PositionQtyMismatch? || k.kind.PositionCostMismatch?) && Discrepancy(db, a, k) {
      var i :| 0 <= i < |ps| && k == PositionKey(k.kind, ps[i], i) && ps[i].status.Open?
        && if k.kind.LocalPositionMissingRemote? then !HeldRemotely(a, ps[i].symbol)
           else exists j :: LastWord(rows, j) && Disagrees(k.kind, ps[i], rows[j]);
      PositionKeysMean(ps[i], i, rows, k);
      Check2Includes(ps, rows, |ps|, k, i);
    }
  }

  lemma RemoteOrdersFind(db: Db, a: ReconcileAnswers, k: IssueKey)
    requires ReadsOk(a)
    ensures k in KeysOfCheck(db, a, 3) <==> k.kind.RemoteOrderWithoutLocal? && Discrepancy(db, a, k)
  {
    hide PositionKey, OrderKey, SymbolKey, LastWord;
    Check3Finds(db.orders, a.orders.rows, |a.orders.rows|, k);
  }

  lemma LocalOrdersFind(db: Db, a: ReconcileAnswers, k: IssueKey)
    requires ReadsOk(a)
    ensures k in KeysOfCheck(db, a, 4) <==> (k.kind.SellOrderStuck? || k.kind.LocalOrderMissingRemote?) && Discrepancy(db, a, k)
  {
    hide PositionKey, RemoteOrderKey, SymbolKey, LastWord, ConfirmedRemotely;
    Check4Finds(db.orders, a.orders.rows, DealRows(a.deals), |db.orders|, k);
  }

  lemma InferredBuysFind(db: Db, a: ReconcileAnswers, k: IssueKey)
    requires ReadsOk(a)
    ensures k in KeysOfCheck(db, a, 6) <==> k.kind.BuyOrderInferredFilled? && Discrepancy(db, a, k)
  {
    hide PositionKey, RemoteOrderKey, SymbolKey, LastWord, ConfirmedRemotely;
    Check6Finds(db.orders, |db.orders|, k);
  }

  lemma ClosedRowsFind(db: Db, a: ReconcileAnswers, k: IssueKey)
    requires ReadsOk(a)
    ensures k in KeysOfCheck(db, a, 5) <==> k.kind.CloseUnverified? && Discrepancy(db, a, k)
  {
    Check5Finds(db.positions, |db.positions|, k);
  }

  /** The keys a run upserts are exactly the discrepancies, each of a managed type. */
  lemma FoundIffDiscrepancy(db: Db, a: ReconcileAnswers, k: IssueKey)
    requires ReadsOk(a)
    ensures Found(db, a, k) <==> Discrepancy(db, a, k)
    ensures Discrepancy(db, a, k) ==> Managed(k.kind) && k != ACCOUNT_FAILURE && k != RUN_FAILURE
  {
    FoundByACheck(db, a, k);
    RemoteSymbolsFind(db, a, k);
    LocalPositionsFind(db, a, k);
    RemoteOrdersFind(db, a, k);
    LocalOrdersFind(db, a, k);
    InferredBuysFind(db, a, k);
    ClosedRowsFind(db, a, k);
  }

  // ----------------------------------------------------- the issue table

  predicate IsOpen(issues: seq<Issue>, k: IssueKey) {
    exists i :: 0 <= i < |issues| && issues[i].open && issues[i].key == k
  }

  /** Row `i` is the one a lookup of its key finds. */
  predicate LookedUp(issues: seq<Issue>, i: nat)
    requires i < |issues|
  {
    FindIssue(issues, issues[i].key) == Some(i)
  }

  /** The keys that get a new row: those with no open row in the committed table, each time they occur. */
  function NewKeys(b: seq<Issue>, ks: seq<IssueKey>): seq<IssueKey> {
    if ks == [] then []
    else if FindIssue(b, ks[|ks| - 1]).Some? then NewKeys(b, ks[..|ks| - 1])
    else NewKeys(b, ks[..|ks| - 1]) + [ks[|ks| - 1]]
  }

  lemma {:induction false} NewKeyMembers(b: seq<Issue>, ks: seq<IssueKey>)
    ensures forall k :: k in NewKeys(b, ks) <==> k in ks && FindIssue(b, k).None?
  {
    if ks != [] {
      NewKeyMembers(b, ks[..|ks| - 1]);
      assert ks == ks[..|ks| - 1] + [ks[|ks| - 1]];
    }
  }

  /** `r` is `b` with the rows of `ks` refreshed in place, and a new row for every new key. */
  ghost predicate Refreshed(b: seq<Issue>, ks: seq<IssueKey>, now: Time, r: seq<Issue>) {
    && |r| == |b| + |NewKeys(b, ks)|
    && (forall i :: 0 <= i < |b| ==> r[i] == if LookedUp(b, i) && b[i].key in ks then Touched(b[i], now) else b[i])
    && forall i :: |b| <= i < |r| ==> r[i] == NewIssue(NewKeys(b, ks)[i - |b|], now)
  }

  lemma UpsertRefreshes(b: seq<Issue>, ks: seq<IssueKey>, now: Time, m: seq<Issue>, k: IssueKey)
    requires Refreshed(b, ks, now, m)
    ensures Refreshed(b, ks + [k], now, UpsertIn(b, m, k, now))
  {
    hide SeverityOf, FindIssue;
    assert (ks + [k])[..|ks|] == ks;
    var r, at := UpsertIn(b, m, k, now), FindIssue(b, k);
    forall i | 0 <= i < |b| ensures r[i] == if LookedUp(b, i) && b[i].key in ks + [k] then Touched(b[i], now) else b[i] {
      assert b[i].key == k && LookedUp(b, i) ==> at == Some(i);
    }
  }

  lemma {:induction false} UpsertAllRefreshes(b: seq<Issue>, ks: seq<IssueKey>, now: Time)
    ensures Refreshed(b, ks, now, UpsertAll(b, ks, now))
  {
    if ks != [] {
      var init, k := ks[..|ks| - 1], ks[|ks| - 1];
      assert ks == init + [k];
      UpsertAllRefreshes(b, init, now);
      hide Refreshed;
      UpsertRefreshes(b, init, now, UpsertAll(b, init, now), k);
    }
  }

  // -------------------------------------------------- the main results

  /** The discrepancies of the current ledgers. */
  ghost function Discrepancies(db: Db, a: ReconcileAnswers): iset<IssueKey>
    requires ReadsOk(a)
  {
    iset k | Discrepancy(db, a, k)
  }

  /** What a run does to one row; `lookedUp` says that it is the row an upsert of its key finds. */
  predicate RowAfterRun(before: Issue, after: Issue, lookedUp: bool, discrepant: bool, now: Time) {
    if !before.open || !Managed(before.key.kind) then after == before
    else if !discrepant then after == before.(open := false, resolvedAt := Some(now), lastSeen := now)
    else if lookedUp then after == Touched(before, now)
    else after == before
  }

  /**
   The whole effect of a run on the issue table `b`, given the discrepancies `d` of the ledgers: the
   open managed issues are exactly `d`; rows of continuing issues keep their first sighting, rows of
   vanished ones are resolved, unmanaged and resolved rows stay as they were, and only discrepancies
   without an open row get a new one.
   */
  ghost predicate RunEffect(b: seq<Issue>, d: iset<IssueKey>, now: Time, r: seq<Issue>) {
    && |b| <= |r|
    && (forall k: IssueKey :: Managed(k.kind) ==> (IsOpen(r, k) <==> k in d))
    && (forall i :: 0 <= i < |b| ==> RowAfterRun(b[i], r[i], LookedUp(b, i), b[i].key in d, now))
    && (forall i :: |b| <= i < |r| ==> r[i] == NewIssue(r[i].key, now) && !IsOpen(b, r[i].key) && r[i].key in d)
  }

  lemma FoundIsOpen(issues: seq<Issue>, k: IssueKey)
    ensures FindIssue(issues, k).Some? <==> IsOpen(issues, k)
  {
  }

  lemma ResolveKeepsTheSeen(b: seq<Issue>, ks: seq<IssueKey>, now: Time, m: seq<Issue>, k: IssueKey)
    requires Refreshed(b, ks, now, m) && Managed(k.kind)
    ensures IsOpen(Resolve(m, Keys(ks), now), k) <==> k in ks
  {
    hide SeverityOf;
    var r := Resolve(m, Keys(ks), now);
    NewKeyMembers(b, ks);
    if k in ks {
      var at := FindIssue(b, k);
      if at.Some? {
        assert r[at.value] == m[at.value] && r[at.value].open && r[at.value].key == k;
      } else {
        var w :| 0 <= w < |NewKeys(b, ks)| && NewKeys(b, ks)[w] == k;
        assert m[|b| + w] == NewIssue(k, now);
        assert r[|b| + w] == m[|b| + w];
      }
    }
  }

  lemma ResolveAfterUpsert(b: seq<Issue>, ks: seq<IssueKey>, now: Time, d: iset<IssueKey>)
    requires (forall k :: k in ks <==> k in d) && forall k: IssueKey :: k in d ==> Managed(k.kind)
    ensures RunEffect(b, d, now, Resolve(UpsertAll(b, ks, now), Keys(ks), now))
  {
    hide UpsertAll, SeverityOf, Managed, FindIssue, IsOpen;
    var m := UpsertAll(b, ks, now);
    var r := Resolve(m, Keys(ks), now);
    UpsertAllRefreshes(b, ks, now);
    NewKeyMembers(b, ks);
    forall k: IssueKey | Managed(k.kind) ensures IsOpen(r, k) <==> k in d {
      ResolveKeepsTheSeen(b, ks, now, m, k);
    }
    forall k ensures FindIssue(b, k).Some? <==> IsOpen(b, k) {
      FoundIsOpen(b, k);
    }
    assert forall i :: 0 <= i < |m| ==> r[i] == ResolvedIssue(m[i], Keys(ks), now);
    assert forall i :: |b| <= i < |m| ==> m[i].key == NewKeys(b, ks)[i - |b|] && m[i].key in NewKeys(b, ks);
  }

  /** One run refines detection from scratch, on any issue table. */
  lemma RunMatchesDetection(db: Db, a: ReconcileAnswers)
    requires RunReturns(a)
    ensures RunEffect(db.issues, Discrepancies(db, a), a.now, Reconcile(db, a).issues)
    ensures forall k: IssueKey :: k in Discrepancies(db, a) ==> Managed(k.kind) && k != ACCOUNT_FAILURE && k != RUN_FAILURE
  {
    forall k ensures k in KeysUpTo(db, a, 6) <==> k in Discrepancies(db, a)
      ensures k in Discrepancies(db, a) ==> Managed(k.kind) && k != ACCOUNT_FAILURE && k != RUN_FAILURE
    {
      FoundIffDiscrepancy(db, a, k);
    }
    hide KeysUpTo, Discrepancy, UpsertAll, RunEffect;
    ResolveAfterUpsert(db.issues, KeysUpTo(db, a, 6), a.now, Discrepancies(db, a));
  }

  predicate SameReads(a: ReconcileAnswers, a': ReconcileAnswers) {
    a.positions == a'.positions && a.orders == a'.orders && a.deals == a'.deals
  }

  lemma DiscrepanciesOfLedgers(db: Db, db': Db, a: ReconcileAnswers, a': ReconcileAnswers)
    requires ReadsOk(a) && SameReads(a, a') && db.orders == db'.orders && db.positions == db'.positions
    ensures Discrepancies(db, a) == Discrepancies(db', a')
  {
    forall k ensures Discrepancy(db, a, k) <==> Discrepancy(db', a', k) {
      FoundIffDiscrepancy(db, a, k);
      FoundIffDiscrepancy(db', a', k);
      KeysOfLedgers(db, db', a, a', 6);
    }
  }

  lemma {:induction false} KeysOfLedgers(db: Db, db': Db, a: ReconcileAnswers, a': ReconcileAnswers, c: nat)
    requires ReadsOk(a) && SameReads(a, a') && db.orders == db'.orders && db.positions == db'.positions
    ensures KeysUpTo(db, a, c) == KeysUpTo(db', a', c)
  {
    if c > 0 {
      KeysOfLedgers(db, db', a, a', c - 1);
    }
  }

  lemma {:induction false} NothingStale(issues: seq<Issue>, seen: set<IssueKey>)
    requires forall i :: 0 <= i < |issues| && issues[i].open && Managed(issues[i].key.kind) ==> issues[i].key in seen
    ensures Stale(issues, seen) == 0
  {
    if issues != [] {
      var init := issues[..|issues| - 1];
      assert forall i :: 0 <= i < |init| ==> init[i] == issues[i];
      NothingStale(init, seen);
    }
  }

  function SeenAgain(issues: seq<Issue>, i: nat, now: Time): Issue
    requires i < |issues|
  {
    if issues[i].open && Managed(issues[i].key.kind) && LookedUp(issues, i) then issues[i].(lastSeen := now) else issues[i]
  }

  lemma NewRowNeedsNewKey(b: seq<Issue>, d: iset<IssueKey>, now: Time, r: seq<Issue>)
    requires RunEffect(b, d, now, r) && |b| < |r|
    ensures exists k: IssueKey :: k in d && !IsOpen(b, k)
  {
    assert r[|b|].key in d;
  }

  /** The row a lookup finds after a run is one the run touched or added. */
  lemma LookedUpIsFresh(b: seq<Issue>, d: iset<IssueKey>, now: Time, r: seq<Issue>, i: nat)
    requires RunEffect(b, d, now, r) && i < |r| && r[i].open && Managed(r[i].key.kind) && LookedUp(r, i)
    ensures r[i].severity == SeverityOf(r[i].key.kind) && r[i].resolvedAt.None?
  {
    assert IsOpen(r, r[i].key);
    if i < |b| {
      assert RowAfterRun(b[i], r[i], LookedUp(b, i), b[i].key in d, now);
      FirstRowIsFound(b, r, i);
    }
  }

  /** `FindIssue` finds the first open row. */
  lemma {:induction false} FoundIsFirst(issues: seq<Issue>, k: IssueKey, i: nat)
    requires i < |issues| && issues[i].open && issues[i].key == k
    ensures FindIssue(issues, k).Some? && FindIssue(issues, k).value <= i
  {
    if i < |issues| - 1 {
      FoundIsFirst(issues[..|issues| - 1], k, i);
    }
  }

  lemma FirstRowIsFound(b: seq<Issue>, r: seq<Issue>, i: nat)
    requires i < |b| <= |r| && b[i].open && b[i].key == r[i].key && LookedUp(r, i)
    requires forall j :: 0 <= j < |b| && b[j].open && b[j].key == b[i].key ==> r[j].open && r[j].key == b[j].key
    ensures LookedUp(b, i)
  {
    FoundIsFirst(b, b[i].key, i);
    var at := FindIssue(b, b[i].key);
    if at.Some? {
      FoundIsFirst(r, r[i].key, at.value);
    }
  }

  /** A second run on the same discrepancies opens nothing, resolves nothing and only moves `lastSeen`. */
  lemma SecondEffectIsQuiet(b: seq<Issue>, d: iset<IssueKey>, now: Time, r: seq<Issue>, now': Time, r': seq<Issue>)
    requires RunEffect(b, d, now, r) && RunEffect(r, d, now', r')
    requires forall k: IssueKey :: k in d ==> Managed(k.kind)
    ensures |r'| == |r| && forall i :: 0 <= i < |r| ==> r'[i] == SeenAgain(r, i, now')
  {
    if |r| < |r'| {
      NewRowNeedsNewKey(r, d, now', r');
      assert false;
    }
    forall i | 0 <= i < |r| ensures r'[i] == SeenAgain(r, i, now') {
      assert RowAfterRun(r[i], r'[i], LookedUp(r, i), r[i].key in d, now');
      assert r[i].open ==> IsOpen(r, r[i].key);
      if r[i].open && Managed(r[i].key.kind) && LookedUp(r, i) {
        LookedUpIsFresh(b, d, now, r, i);
      }
    }
  }

  lemma {:induction false} NothingStaleAgain(db: Db, a: ReconcileAnswers)
    requires RunReturns(a)
    requires forall i :: 0 <= i < |db.issues| && db.issues[i].open && Managed(db.issues[i].key.kind) ==>
      db.issues[i].key in Discrepancies(db, a)
    ensures Stale(UpsertAll(db.issues, KeysUpTo(db, a, 6), a.now), Keys(KeysUpTo(db, a, 6))) == 0
  {
    hide FindIssue, Discrepancy, SeverityOf;
    var ks := KeysUpTo(db, a, 6);
    var m := UpsertAll(db.issues, ks, a.now);
    UpsertAllRefreshes(db.issues, ks, a.now);
    NewKeyMembers(db.issues, ks);
    forall i | 0 <= i < |m| && m[i].open && Managed(m[i].key.kind) ensures m[i].key in Keys(ks) {
      if i < |db.issues| {
        FoundIffDiscrepancy(db, a, db.issues[i].key);
      } else {
        assert m[i].key in NewKeys(db.issues, ks);
      }
    }
    NothingStale(m, Keys(ks));
  }

  /** Reconciling twice on the same ledgers: the second run reports nothing opened, nothing resolved. */
  lemma {:induction false} RepeatRunIsQuiet(db: Db, a: ReconcileAnswers, a': ReconcileAnswers)
    requires RunReturns(a) && RunReturns(a') && SameReads(a, a')
    ensures var once := Reconcile(db, a);
      var twice := Reconcile(once, a');
      && |twice.issues| == |once.issues|
      && (forall i :: 0 <= i < |once.issues| ==> twice.issues[i] == SeenAgain(once.issues, i, a'.now))
      && Stale(UpsertAll(once.issues, KeysUpTo(once, a', 6), a'.now), Keys(KeysUpTo(once, a', 6))) == 0
  {
    hide FindIssue, KeysUpTo, UpsertAll;
    var once := Reconcile(db, a);
    var d := Discrepancies(db, a);
    RunMatchesDetection(db, a);
    RunMatchesDetection(once, a');
    DiscrepanciesOfLedgers(db, once, a, a');
    SecondEffectIsQuiet(db.issues, d, a.now, once.issues, a'.now, Reconcile(once, a').issues);
    forall i | 0 <= i < |once.issues| && once.issues[i].open && Managed(once.issues[i].key.kind)
      ensures once.issues[i].key in Discrepancies(once, a')
    {
      assert IsOpen(once.issues, once.issues[i].key);
    }
    NothingStaleAgain(once, a');
  }

  // ------------------------------------------------------- over every run

  /** One iteration as the issue table sees it: the ledgers of the moment and the answers. */
  datatype Turn = Turn(ledgers: Db, answers: ReconcileAnswers)

  /** The issue table after a history of iterations, starting from `issues`. */
  function IssuesAfter(issues: seq<Issue>, history: seq<Turn>): seq<Issue> {
    if history == [] then issues
    else
      var turn := history[|history| - 1];
      Reconcile(turn.ledgers.(issues := IssuesAfter(issues, history[..|history| - 1])), turn.answers).issues
  }

  /**
   From an empty issue table, after any history whose last run returned, the open managed issues
   are exactly the discrepancies of the ledgers that run saw.
   */
  lemma {:induction false} EveryHistoryMatchesDetection(history: seq<Turn>)
    requires history != [] && RunReturns(history[|history| - 1].answers)
    ensures var last := history[|history| - 1];
      RunEffect(IssuesAfter([], history[..|history| - 1]), Discrepancies(last.ledgers, last.answers), last.answers.now, IssuesAfter([], history))
  {
    hide Reconcile, RunEffect, Discrepancy;
    var last := history[|history| - 1];
    var db := last.ledgers.(issues := IssuesAfter([], history[..|history| - 1]));
    RunMatchesDetection(db, last.answers);
    DiscrepanciesOfLedgers(db, last.ledgers, last.answers, last.answers);
  }

  // ---------------------------------------------------- failure and recovery

  /** Every row that was open stays open, under its key. */
  ghost predicate StillOpen(b: seq<Issue>, r: seq<Issue>) {
    |b| <= |r| && forall i :: 0 <= i < |b| ==> r[i].open == b[i].open && r[i].key == b[i].key
  }

  /** The open row of a CRITICAL issue blocks, and closes the gate. */
  lemma {:induction false} CriticalRowBlocks(issues: seq<Issue>, w: nat)
    requires w < |issues| && issues[w].open && issues[w].severity.Critical?
    ensures !NothingBlocks(issues) && HealthGate(issues).severity.Critical? && HealthGate(issues).mode.SyncFailed?
  {
    assert Rank(issues[w].severity) <= Rank(MaxSeverity(issues));
  }

  /** Upserting a failure issue leaves every other row as it was, and an open CRITICAL row. */
  lemma FailureUpsert(committed: seq<Issue>, issues: seq<Issue>, k: IssueKey, now: Time) returns (w: nat)
    requires |committed| <= |issues| && SeverityOf(k.kind).Critical?
    requires forall i :: 0 <= i < |committed| ==> issues[i].open == committed[i].open && issues[i].key == committed[i].key
    ensures var r := UpsertIn(committed, issues, k, now);
      && w < |r| && r[w].open && r[w].key == k && r[w].severity.Critical? && StillOpen(issues, r)
  {
    var at := FindIssue(committed, k);
    w := if at.Some? then at.value else |issues|;
  }

  /** A failed read resolves nothing, keeps every open issue open and closes the gate. */
  lemma FailedReadClosesGate(db: Db, a: ReconcileAnswers)
    requires !ReadsOk(a)
    ensures var r := Reconcile(db, a);
      && StillOpen(db.issues, r.issues) && IsOpen(r.issues, ACCOUNT_FAILURE)
      && (a.crash.None? ==> r.gate.value.mode.SyncFailed?)
      && !r.gate.value.allow && !AllowsNewEntries(r)
  {
    hide FindIssue, UpsertIn, HealthGate;
    var m := Upsert(db.issues, ACCOUNT_FAILURE, a.now);
    var w := FailureUpsert(db.issues, db.issues, ACCOUNT_FAILURE, a.now);
    CriticalRowBlocks(m, w);
    var r := Upsert(m, RUN_FAILURE, a.now);
    var v := FailureUpsert(m, m, RUN_FAILURE, a.now);
    assert r[w].open && r[w].key == ACCOUNT_FAILURE;
    assert !NothingBlocks(r);
    HealthGateOf(m);
  }

  lemma HealthGateOf(issues: seq<Issue>)
    ensures HealthGate(issues).allow == NothingBlocks(issues)
  {
  }

  lemma PartialRunStaysOpen(b: seq<Issue>, ks: seq<IssueKey>, now: Time)
    ensures StillOpen(b, UpsertAll(b, ks, now))
  {
    UpsertAllRefreshes(b, ks, now);
  }

  /** A run that raises before its last step resolves nothing and closes the gate. */
  lemma {:induction false} RaisedRunClosesGate(db: Db, a: ReconcileAnswers)
    requires ReadsOk(a) && a.crash.Some?
    ensures var r := Reconcile(db, a);
      && IsOpen(r.issues, RUN_FAILURE) && !r.gate.value.allow && !AllowsNewEntries(r)
      && (a.crash.value.checks <= 6 ==> StillOpen(db.issues, r.issues))
  {
    hide KeysUpTo, Resolve, UpsertAll, UpsertIn, FindIssue;
    var ks, whole := KeysUpTo(db, a, a.crash.value.checks), IssuesAfterRun(db, a);
    var r := IssuesAfterRaise(db, a);
    PartialRunStaysOpen(db.issues, ks, a.now);
    var v := FailureUpsert(whole, whole, RUN_FAILURE, a.now);
    var w := FailureUpsert(db.issues, UpsertAll(db.issues, ks, a.now), RUN_FAILURE, a.now);
    assert exists i :: 0 <= i < |r| && r[i].open && r[i].key == RUN_FAILURE && r[i].severity.Critical? by {
      assert r[if a.crash.value.checks >= 7 then v else w].open;
    }
  }

  predicate UnmanagedBlocks(issues: seq<Issue>) {
    exists i :: 0 <= i < |issues| && issues[i].open && !Managed(issues[i].key.kind) && Blocking(issues[i].severity)
  }

  predicate BlockingKind(t: IssueType) {
    Managed(t) && Blocking(SeverityOf(t))
  }

  ghost predicate BlockingDiscrepancy(d: iset<IssueKey>) {
    exists k: IssueKey :: k in d && BlockingKind(k.kind)
  }

  /** Every open managed row has the severity of its type, as every upsert writes it. */
  ghost predicate SeveritiesFit(issues: seq<Issue>) {
    forall i :: 0 <= i < |issues| && issues[i].open && Managed(issues[i].key.kind) ==> issues[i].severity == SeverityOf(issues[i].key.kind)
  }

  lemma RunKeepsSeverities(b: seq<Issue>, d: iset<IssueKey>, now: Time, r: seq<Issue>)
    requires RunEffect(b, d, now, r) && SeveritiesFit(b)
    ensures SeveritiesFit(r)
  {
    hide FindIssue, SeverityOf;
    forall i | 0 <= i < |b| ensures RowAfterRun(b[i], r[i], LookedUp(b, i), b[i].key in d, now) {
    }
  }

  lemma UpsertKeepsSeverities(committed: seq<Issue>, issues: seq<Issue>, k: IssueKey, now: Time)
    requires |committed| <= |issues| && SeveritiesFit(issues)
    ensures SeveritiesFit(UpsertIn(committed, issues, k, now))
  {
    hide FindIssue, SeverityOf;
  }

  lemma {:induction false} UpsertAllKeepsSeverities(b: seq<Issue>, ks: seq<IssueKey>, now: Time)
    requires SeveritiesFit(b)
    ensures SeveritiesFit(UpsertAll(b, ks, now))
  {
    hide UpsertIn, SeveritiesFit;
    if ks != [] {
      UpsertAllKeepsSeverities(b, ks[..|ks| - 1], now);
      UpsertKeepsSeverities(b, UpsertAll(b, ks[..|ks| - 1], now), ks[|ks| - 1], now);
    }
  }

  lemma ResolveKeepsSeverities(issues: seq<Issue>, seen: set<IssueKey>, now: Time)
    requires SeveritiesFit(issues)
    ensures SeveritiesFit(Resolve(issues, seen, now))
  {
    hide SeverityOf;
  }

  /** Whatever the account answers, and whether the run returns or raises, the severities stay those of the types. */
  lemma ReconcileKeepsSeverities(db: Db, a: ReconcileAnswers)
    requires SeveritiesFit(db.issues)
    ensures SeveritiesFit(Reconcile(db, a).issues)
  {
    hide UpsertIn, SeveritiesFit, KeysUpTo, UpsertAll, Resolve, HealthGate;
    if ReadsOk(a) {
      var ks := KeysUpTo(db, a, 6);
      UpsertAllKeepsSeverities(db.issues, ks, a.now);
      ResolveKeepsSeverities(UpsertAll(db.issues, ks, a.now), Keys(ks), a.now);
      UpsertKeepsSeverities(IssuesAfterRun(db, a), IssuesAfterRun(db, a), RUN_FAILURE, a.now);
      if a.crash.Some? {
        var partial := UpsertAll(db.issues, KeysUpTo(db, a, a.crash.value.checks), a.now);
        UpsertAllKeepsSeverities(db.issues, KeysUpTo(db, a, a.crash.value.checks), a.now);
        UpsertKeepsSeverities(db.issues, partial, RUN_FAILURE, a.now);
      }
    } else {
      var m := Upsert(db.issues, ACCOUNT_FAILURE, a.now);
      UpsertKeepsSeverities(db.issues, db.issues, ACCOUNT_FAILURE, a.now);
      UpsertKeepsSeverities(m, m, RUN_FAILURE, a.now);
    }
  }

  /** After a run, something blocks exactly when a blocking discrepancy or an unmanaged issue does. */
  lemma NothingBlocksIff(b: seq<Issue>, d: iset<IssueKey>, now: Time, r: seq<Issue>)
    requires RunEffect(b, d, now, r) && SeveritiesFit(b) && forall k: IssueKey :: k in d ==> Managed(k.kind)
    ensures NothingBlocks(r) <==> !BlockingDiscrepancy(d) && !UnmanagedBlocks(b)
  {
    hide FindIssue, SeverityOf;
    RunKeepsSeverities(b, d, now, r);
    if UnmanagedBlocks(b) {
      var i :| 0 <= i < |b| && b[i].open && !Managed(b[i].key.kind) && Blocking(b[i].severity);
      assert RowAfterRun(b[i], r[i], LookedUp(b, i), b[i].key in d, now);
      assert r[i].open && Blocking(r[i].severity);
    } else if BlockingDiscrepancy(d) {
      var k: IssueKey :| k in d && BlockingKind(k.kind);
      assert IsOpen(r, k);
      var i :| 0 <= i < |r| && r[i].open && r[i].key == k;
      assert Blocking(r[i].severity);
    } else {
      forall i | 0 <= i < |r| && r[i].open ensures !Blocking(r[i].severity) {
        assert IsOpen(r, r[i].key);
        assert i < |b| ==> RowAfterRun(b[i], r[i], LookedUp(b, i), b[i].key in d, now);
        assert Managed(r[i].key.kind) ==> !BlockingKind(r[i].key.kind);
      }
    }
  }

  /**
   The first run that returns and finds no discrepancy resolves every managed issue, the failure
   issues included, and opens the gate unless an unmanaged HIGH or CRITICAL issue is open.
   */
  lemma CleanRunRecovers(db: Db, a: ReconcileAnswers)
    requires SeveritiesFit(db.issues) && RunReturns(a) && Discrepancies(db, a) == iset{}
    ensures var r := Reconcile(db, a);
      && |r.issues| == |db.issues|
      && (forall i :: 0 <= i < |r.issues| && Managed(r.issues[i].key.kind) ==> !r.issues[i].open)
      && (AllowsNewEntries(r) <==> !UnmanagedBlocks(db.issues))
      && (r.gate.value.allow <==> !UnmanagedBlocks(db.issues))
  {
    var b, d, r := db.issues, Discrepancies(db, a), Reconcile(db, a);
    RunMatchesDetection(db, a);
    forall i | 0 <= i < |r.issues| && r.issues[i].open ensures !Managed(r.issues[i].key.kind) {
      assert IsOpen(r.issues, r.issues[i].key);
    }
    assert !BlockingDiscrepancy(d);
    NothingBlocksIff(b, d, a.now, r.issues);
  }

  // ------------------------------------------------------- the open gate

  /** The ledgers agree: what an open gate stands for. */
  ghost predicate LedgersAgree(db: Db, a: ReconcileAnswers)
    requires ReadsOk(a)
  {
    && (forall s :: HeldRemotely(a, s) ==> HeldLocally(db, s))
    && (forall i :: 0 <= i < |db.positions| && db.positions[i].status.Open? ==>
          exists j :: LastWord(a.positions.rows, j) && a.positions.rows[j].symbol == db.positions[i].symbol
            && a.positions.rows[j].qty == db.positions[i].shares)
    && (forall i :: 0 <= i < |db.orders| && db.orders[i].side.Sell? && Unresolved(db.orders[i].status) ==>
          ConfirmedRemotely(db.orders[i], a.orders.rows, DealRows(a.deals)))
  }

  /** New entries are allowed exactly when the run returned, the ledgers agree and nothing unmanaged blocks. */
  lemma OpenGateMeansAgreement(db: Db, a: ReconcileAnswers)
    requires SeveritiesFit(db.issues)
    ensures AllowsNewEntries(Reconcile(db, a)) <==> RunReturns(a) && LedgersAgree(db, a) && !UnmanagedBlocks(db.issues)
  {
    if !ReadsOk(a) {
      FailedReadClosesGate(db, a);
    } else if a.crash.Some? {
      RaisedRunClosesGate(db, a);
    } else {
      RunMatchesDetection(db, a);
      NothingBlocksIff(db.issues, Discrepancies(db, a), a.now, Reconcile(db, a).issues);
      AgreementIffNoBlockingDiscrepancy(db, a);
    }
  }

  lemma AgreementIffNoBlockingDiscrepancy(db: Db, a: ReconcileAnswers)
    requires ReadsOk(a)
    ensures LedgersAgree(db, a) <==> !BlockingDiscrepancy(Discrepancies(db, a))
  {
    if BlockingDiscrepancy(Discrepancies(db, a)) {
      var k: IssueKey :| k in Discrepancies(db, a) && BlockingKind(k.kind);
      assert Discrepancy(db, a, k);
    }
    if !LedgersAgree(db, a) {
      var k := DisagreementIsADiscrepancy(db, a);
      assert k in Discrepancies(db, a);
    }
  }

  predicate StuckSell(o: Order, a: ReconcileAnswers)
    requires ReadsOk(a)
  {
    o.side.Sell? && Unresolved(o.status) && !ConfirmedRemotely(o, a.orders.rows, DealRows(a.deals))
  }

  lemma DisagreementIsADiscrepancy(db: Db, a: ReconcileAnswers) returns (k: IssueKey)
    requires ReadsOk(a) && !LedgersAgree(db, a)
    ensures Discrepancy(db, a, k) && BlockingKind(k.kind)
  {
    var rows := a.positions.rows;
    if s :| HeldRemotely(a, s) && !HeldLocally(db, s) {
      k := SymbolKey(RemotePositionWithoutLocal, s);
    } else if i :| 0 <= i < |db.orders| && StuckSell(db.orders[i], a) {
      k := OrderKey(SellOrderStuck, db.orders[i], i);
    } else {
      var i :| 0 <= i < |db.positions| && db.positions[i].status.Open?
        && !exists j :: LastWord(rows, j) && rows[j].symbol == db.positions[i].symbol && rows[j].qty == db.positions[i].shares;
      var p := db.positions[i];
      HoldingIsLastWord(rows, p.symbol);
      if Holding(rows, p.symbol).None? {
        k := PositionKey(LocalPositionMissingRemote, p, i);
      } else {
        k := PositionKey(PositionQtyMismatch, p, i);
        var j :| LastWord(rows, j) && rows[j] == Holding(rows, p.symbol).value;
        assert Disagrees(k.kind, p, rows[j]);
      }
    }
  }
}
