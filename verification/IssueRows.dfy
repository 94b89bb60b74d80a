/** When a key has one open issue row: every lookup of a run misses the rows the run itself has added. */
module IssueRows {
  import opened Common
  import opened Ledger
  import opened Reconciler
  import opened ReconcilerTheorems

  ghost predicate OneOpenPerKey(issues: seq<Issue>) {
    forall i, j :: 0 <= i < j < |issues| && issues[i].open && issues[j].open ==> issues[i].key != issues[j].key
  }

  ghost predicate Distinct(ks: seq<IssueKey>) {
    forall i, j :: 0 <= i < j < |ks| ==> ks[i] != ks[j]
  }

  /** A key that occurs twice already has an open row, so that both lookups find it. */
  ghost predicate RepeatsAreKnown(b: seq<Issue>, ks: seq<IssueKey>) {
    forall i, j :: 0 <= i < j < |ks| && ks[i] == ks[j] ==> IsOpen(b, ks[i])
  }

  // ------------------------------------------------ new rows and new keys

  lemma RepeatsOfSnoc(b: seq<Issue>, ks: seq<IssueKey>, k: IssueKey)
    ensures RepeatsAreKnown(b, ks + [k]) <==> RepeatsAreKnown(b, ks) && (k in ks ==> IsOpen(b, k))
  {
    hide IsOpen;
    var all := ks + [k];
    assert all[|ks|] == k && forall i :: 0 <= i < |ks| ==> all[i] == ks[i];
    if RepeatsAreKnown(b, all) {
      forall i, j | 0 <= i < j < |ks| && ks[i] == ks[j] ensures IsOpen(b, ks[i]) {
        assert all[i] == all[j];
      }
      if k in ks {
        var i :| 0 <= i < |ks| && ks[i] == k;
        assert all[i] == all[|ks|];
      }
    }
  }

  lemma DistinctSnoc(ks: seq<IssueKey>, k: IssueKey)
    ensures Distinct(ks + [k]) <==> Distinct(ks) && k !in ks
  {
    var all := ks + [k];
    assert all[|ks|] == k && forall i :: 0 <= i < |ks| ==> all[i] == ks[i];
    if Distinct(all) {
      forall i, j | 0 <= i < j < |ks| ensures ks[i] != ks[j] {
        assert all[i] != all[j];
      }
      forall i | 0 <= i < |ks| ensures ks[i] != k {
        assert all[i] != all[|ks|];
      }
    }
  }

  /** The new rows have distinct keys exactly when every repeated key is known. */
  lemma {:induction false} NewKeysDistinctIff(b: seq<Issue>, ks: seq<IssueKey>)
    ensures Distinct(NewKeys(b, ks)) <==> RepeatsAreKnown(b, ks)
  {
    if ks != [] {
      var init, k := ks[..|ks| - 1], ks[|ks| - 1];
      assert ks == init + [k];
      NewKeysDistinctIff(b, init);
      RepeatsOfSnoc(b, init, k);
      DistinctSnoc(NewKeys(b, init), k);
      NewKeyMembers(b, init);
      FoundIsOpen(b, k);
      hide IsOpen, Distinct, RepeatsAreKnown;
    }
  }

  /** A run keeps one open row a key exactly when the keys it adds rows for are distinct. */
  lemma OneRowAKeyIffDistinct(b: seq<Issue>, ks: seq<IssueKey>, now: Time)
    requires OneOpenPerKey(b) && forall k :: k in ks ==> Managed(k.kind)
    ensures OneOpenPerKey(Resolve(UpsertAll(b, ks, now), Keys(ks), now)) <==> Distinct(NewKeys(b, ks))
    ensures OneOpenPerKey(UpsertAll(b, ks, now)) <==> Distinct(NewKeys(b, ks))
  {
    hide FindIssue, SeverityOf, UpsertAll;
    var added, m := NewKeys(b, ks), UpsertAll(b, ks, now);
    var r := Resolve(m, Keys(ks), now);
    UpsertAllRefreshes(b, ks, now);
    NewKeyMembers(b, ks);
    forall i | 0 <= i < |m| ensures r[i] == ResolvedIssue(m[i], Keys(ks), now) {
    }
    NewRowsDecide(b, ks, now, m, m);
    forall i | |b| <= i < |m| ensures r[i] == m[i] {
      assert m[i].key == added[i - |b|] && m[i].key in added;
    }
    NewRowsDecide(b, ks, now, m, r);
  }

  /** `r` is `m` with some old rows closed. */
  lemma NewRowsDecide(b: seq<Issue>, ks: seq<IssueKey>, now: Time, m: seq<Issue>, r: seq<Issue>)
    requires OneOpenPerKey(b) && Refreshed(b, ks, now, m) && |r| == |m|
    requires forall i :: 0 <= i < |b| ==> r[i].key == b[i].key && (r[i].open ==> b[i].open)
    requires forall i :: |b| <= i < |m| ==> r[i] == m[i]
    ensures OneOpenPerKey(r) <==> Distinct(NewKeys(b, ks))
  {
    hide SeverityOf;
    var added := NewKeys(b, ks);
    NewKeyMembers(b, ks);
    forall i | |b| <= i < |m| ensures r[i].open && r[i].key == added[i - |b|] && FindIssue(b, r[i].key).None? {
      assert m[i] == NewIssue(added[i - |b|], now) && added[i - |b|] in added;
    }
    if OneOpenPerKey(r) {
      forall i, j | 0 <= i < j < |added| ensures added[i] != added[j] {
        assert r[|b| + i].key != r[|b| + j].key;
      }
    }
    if Distinct(added) {
      forall i, j | 0 <= i < j < |r| && r[i].open && r[j].open ensures r[i].key != r[j].key {
        if |b| <= i {
          assert added[i - |b|] != added[j - |b|];
        } else if j < |b| {
          assert b[i].key != b[j].key;
        }
      }
    }
  }

  // ------------------------------------------- which keys a run can repeat

  lemma {:induction false} HeldSymbolsDistinct(rows: seq<RemotePosition>)
    ensures forall i, j :: 0 <= i < j < |HeldSymbols(rows)| ==> HeldSymbols(rows)[i] != HeldSymbols(rows)[j]
  {
    if rows != [] {
      HeldSymbolsDistinct(rows[..|rows| - 1]);
    }
  }

  lemma {:induction false} Check1Distinct(ps: seq<Position>, ss: seq<Symbol>, n: nat)
    requires n <= |ss| && forall i, j :: 0 <= i < j < |ss| ==> ss[i] != ss[j]
    ensures Distinct(Check1(ps, ss, n))
  {
    if n > 0 {
      var k := SymbolKey(RemotePositionWithoutLocal, ss[n - 1]);
      Check1Distinct(ps, ss, n - 1);
      Check1Finds(ps, ss, n - 1, k);
      DistinctSnoc(Check1(ps, ss, n - 1), k);
      hide Distinct, FindOpen;
    }
  }

  lemma DistinctConcat(ks: seq<IssueKey>, more: seq<IssueKey>)
    requires Distinct(ks) && Distinct(more) && forall k :: k in ks ==> k !in more
    ensures Distinct(ks + more)
  {
    var all := ks + more;
    assert forall i :: 0 <= i < |ks| ==> all[i] == ks[i] && all[i] in ks;
    assert forall i :: |ks| <= i < |all| ==> all[i] == more[i - |ks|] && all[i] in more;
  }

  lemma PositionKeysDistinct(p: Position, i: nat, rows: seq<RemotePosition>)
    ensures Distinct(KeysOfPosition(p, i, rows)) && forall k :: k in KeysOfPosition(p, i, rows) ==> k.positionId == Some(i)
  {
    hide Holding, CostDiffers;
  }

  lemma {:induction false} Check2Distinct(ps: seq<Position>, rows: seq<RemotePosition>, n: nat)
    requires n <= |ps|
    ensures Distinct(Check2(ps, rows, n))
    ensures forall k :: k in Check2(ps, rows, n) ==> k.positionId.Some? && k.positionId.value < n
  {
    hide KeysOfPosition, Distinct;
    if n == 0 {
      NothingIsDistinct();
    } else {
      Check2Distinct(ps, rows, n - 1);
      PositionKeysDistinct(ps[n - 1], n - 1, rows);
      DistinctConcat(Check2(ps, rows, n - 1), KeysOfPosition(ps[n - 1], n - 1, rows));
    }
  }

  lemma {:induction false} Check4Distinct(os: seq<Order>, orders: seq<RemoteOrder>, deals: seq<RemoteDeal>, n: nat)
    requires n <= |os|
    ensures Distinct(Check4(os, orders, deals, n))
    ensures forall k :: k in Check4(os, orders, deals, n) ==> k.orderId.Some? && k.orderId.value < n
  {
    if n > 0 {
      hide ConfirmedRemotely;
      Check4Distinct(os, orders, deals, n - 1);
    }
  }

  lemma {:induction false} Check5Distinct(ps: seq<Position>, n: nat)
    requires n <= |ps|
    ensures Distinct(Check5(ps, n))
    ensures forall k :: k in Check5(ps, n) ==> k.positionId.Some? && k.positionId.value < n
  {
    if n > 0 {
      Check5Distinct(ps, n - 1);
    }
  }

  lemma {:induction false} Check6Distinct(os: seq<Order>, n: nat)
    requires n <= |os|
    ensures Distinct(Check6(os, n))
    ensures forall k :: k in Check6(os, n) ==> k.orderId.Some? && k.orderId.value < n
  {
    if n > 0 {
      Check6Distinct(os, n - 1);
    }
  }

  predicate UnknownRow(os: seq<Order>, row: RemoteOrder) {
    row.id != "" && FindByFutuId(os, row.id).None?
  }

  /** Two of the first `n` rows are the same unknown order, one without an open issue. */
  ghost predicate RepeatsUnknown(b: seq<Issue>, os: seq<Order>, rows: seq<RemoteOrder>, n: nat)
    requires n <= |rows|
  {
    exists i, j :: 0 <= i < j < n && UnknownRow(os, rows[i]) && RemoteOrderKey(rows[i]) == RemoteOrderKey(rows[j])
      && !IsOpen(b, RemoteOrderKey(rows[i]))
  }

  lemma {:induction false} Check3RepeatsIff(b: seq<Issue>, os: seq<Order>, rows: seq<RemoteOrder>, n: nat)
    requires n <= |rows|
    ensures RepeatsAreKnown(b, Check3(os, rows, n)) <==> !RepeatsUnknown(b, os, rows, n)
  {
    hide IsOpen, RepeatsAreKnown, RepeatsUnknown, FindByFutuId, UnknownRow, Check3;
    if n == 0 {
      NothingRepeats(b, os, rows);
    } else {
      var k := RemoteOrderKey(rows[n - 1]);
      Check3RepeatsIff(b, os, rows, n - 1);
      Check3Snoc(os, rows, n);
      RepeatsOfSnoc(b, Check3(os, rows, n - 1), k);
      LastRowRepeats(b, os, rows, n);
    }
  }

  lemma NothingRepeats(b: seq<Issue>, os: seq<Order>, rows: seq<RemoteOrder>)
    ensures RepeatsAreKnown(b, Check3(os, rows, 0)) && !RepeatsUnknown(b, os, rows, 0)
  {
  }

  lemma Check3Snoc(os: seq<Order>, rows: seq<RemoteOrder>, n: nat)
    requires 0 < n <= |rows|
    ensures var init := Check3(os, rows, n - 1);
      Check3(os, rows, n) == if UnknownRow(os, rows[n - 1]) then init + [RemoteOrderKey(rows[n - 1])] else init
  {
    hide FindByFutuId;
  }

  lemma LastRowRepeats(b: seq<Issue>, os: seq<Order>, rows: seq<RemoteOrder>, n: nat)
    requires 0 < n <= |rows|
    ensures var k := RemoteOrderKey(rows[n - 1]);
      var again := UnknownRow(os, rows[n - 1]) && !IsOpen(b, k) && k in Check3(os, rows, n - 1);
      RepeatsUnknown(b, os, rows, n) <==> RepeatsUnknown(b, os, rows, n - 1) || again
  {
    hide IsOpen, FindByFutuId;
    Check3Finds(os, rows, n - 1, RemoteOrderKey(rows[n - 1]));
  }

  lemma {:induction false} DistinctRepeatsNothing(b: seq<Issue>, ks: seq<IssueKey>)
    requires Distinct(ks)
    ensures RepeatsAreKnown(b, ks)
  {
  }

  lemma {:induction false} RepeatsOfConcat(b: seq<Issue>, ks: seq<IssueKey>, more: seq<IssueKey>)
    requires forall k :: k in ks ==> k !in more
    ensures RepeatsAreKnown(b, ks + more) <==> RepeatsAreKnown(b, ks) && RepeatsAreKnown(b, more)
  {
    var all := ks + more;
    assert forall i :: 0 <= i < |ks| ==> all[i] == ks[i] && all[i] in ks;
    assert forall i :: |ks| <= i < |all| ==> all[i] == more[i - |ks|] && all[i] in more;
    if RepeatsAreKnown(b, all) {
      forall i, j | 0 <= i < j < |more| && more[i] == more[j] ensures IsOpen(b, more[i]) {
        assert all[|ks| + i] == all[|ks| + j];
      }
      forall i, j | 0 <= i < j < |ks| && ks[i] == ks[j] ensures IsOpen(b, ks[i]) {
        assert all[i] == all[j];
      }
    }
  }

  /** The check that upserts the issues of a type. */
  function CheckOf(t: IssueType): nat {
    match t
    case RemotePositionWithoutLocal => 1
    case LocalPositionMissingRemote => 2
    case PositionQtyMismatch => 2
    case PositionCostMismatch => 2
    case RemoteOrderWithoutLocal => 3
    case SellOrderStuck => 4
    case LocalOrderMissingRemote => 4
    case CloseUnverified => 5
    case BuyOrderInferredFilled => 6
    case _ => 7
  }

  lemma KindsOfCheck(db: Db, a: ReconcileAnswers, c: nat, k: IssueKey)
    requires ReadsOk(a) && k in KeysOfCheck(db, a, c)
    ensures CheckOf(k.kind) == c
  {
    hide Discrepancy, KeysOfCheck;
    match c
    case 1 => RemoteSymbolsFind(db, a, k);
    case 2 => LocalPositionsFind(db, a, k);
    case 3 => RemoteOrdersFind(db, a, k);
    case 4 => LocalOrdersFind(db, a, k);
    case 5 => ClosedRowsFind(db, a, k);
    case 6 => InferredBuysFind(db, a, k);
    case _ => NoSuchCheck(db, a, c);
  }

  lemma NoSuchCheck(db: Db, a: ReconcileAnswers, c: nat)
    requires ReadsOk(a) && !(1 <= c <= 6)
    ensures KeysOfCheck(db, a, c) == []
  {
  }

  lemma OtherChecksDistinct(db: Db, a: ReconcileAnswers, c: nat)
    requires ReadsOk(a) && c != 3
    ensures Distinct(KeysOfCheck(db, a, c))
  {
    hide Distinct;
    match c
    case 1 =>
      HeldSymbolsDistinct(a.positions.rows);
      Check1Distinct(db.positions, HeldSymbols(a.positions.rows), |HeldSymbols(a.positions.rows)|);
    case 2 => Check2Distinct(db.positions, a.positions.rows, |db.positions|);
    case 4 => Check4Distinct(db.orders, a.orders.rows, DealRows(a.deals), |db.orders|);
    case 5 => Check5Distinct(db.positions, |db.positions|);
    case 6 => Check6Distinct(db.orders, |db.orders|);
    case _ => assert Distinct([]) by { NothingIsDistinct(); }
  }

  lemma NothingIsDistinct()
    ensures Distinct([])
  {
  }

  /** The answer names one unknown order twice, by id and symbol, and that order has no open issue yet. */
  ghost predicate RepeatsUnknownOrder(db: Db, a: ReconcileAnswers)
    requires ReadsOk(a)
  {
    RepeatsUnknown(db.issues, db.orders, a.orders.rows, |a.orders.rows|)
  }

  /** One more check: only the third can add a repeat. */
  lemma OneMoreCheck(db: Db, a: ReconcileAnswers, c: nat, ks: seq<IssueKey>)
    requires ReadsOk(a) && 1 <= c <= 6 && forall k :: k in ks ==> 1 <= CheckOf(k.kind) < c
    ensures var more := KeysOfCheck(db, a, c);
      && (RepeatsAreKnown(db.issues, ks + more) <==> RepeatsAreKnown(db.issues, ks) && (c == 3 ==> !RepeatsUnknownOrder(db, a)))
      && forall k :: k in more ==> CheckOf(k.kind) == c
  {
    hide RepeatsAreKnown, RepeatsUnknown, Distinct, KeysOfCheck, CheckOf;
    var more := KeysOfCheck(db, a, c);
    forall k | k in more ensures CheckOf(k.kind) == c {
      KindsOfCheck(db, a, c, k);
    }
    RepeatsOfConcat(db.issues, ks, more);
    if c == 3 {
      ThirdCheckRepeats(db, a);
    } else {
      OtherChecksDistinct(db, a, c);
      DistinctRepeatsNothing(db.issues, more);
    }
  }

  lemma ThirdCheckRepeats(db: Db, a: ReconcileAnswers)
    requires ReadsOk(a)
    ensures RepeatsAreKnown(db.issues, KeysOfCheck(db, a, 3)) <==> !RepeatsUnknownOrder(db, a)
  {
    hide RepeatsAreKnown, RepeatsUnknown, Check3;
    Check3RepeatsIff(db.issues, db.orders, a.orders.rows, |a.orders.rows|);
  }

  /** Up to check `c`, the only keys that can repeat are those of the unknown remote orders. */
  lemma {:induction false} RepeatsUpTo(db: Db, a: ReconcileAnswers, c: nat)
    requires ReadsOk(a) && c <= 6
    ensures RepeatsAreKnown(db.issues, KeysUpTo(db, a, c)) <==> (c >= 3 ==> !RepeatsUnknownOrder(db, a))
    ensures forall k :: k in KeysUpTo(db, a, c) ==> 1 <= CheckOf(k.kind) <= c
  {
    hide KeysOfCheck, RepeatsUnknownOrder, CheckOf;
    if c > 0 {
      RepeatsUpTo(db, a, c - 1);
      OneMoreCheck(db, a, c, KeysUpTo(db, a, c - 1));
      hide RepeatsAreKnown;
    }
  }

  // ----------------------------------------------------- one row a key

  lemma KeysAreManaged(db: Db, a: ReconcileAnswers, c: nat)
    requires ReadsOk(a) && c <= 6
    ensures forall k :: k in KeysUpTo(db, a, c) ==> Managed(k.kind) && k != RUN_FAILURE
  {
    hide KeysUpTo, RepeatsUnknown, RepeatsAreKnown;
    RepeatsUpTo(db, a, c);
  }

  /** A run that returns keeps one open row a key exactly when the answer repeats no unknown order. */
  lemma OneRowAKeyIff(db: Db, a: ReconcileAnswers)
    requires OneOpenPerKey(db.issues) && RunReturns(a)
    ensures OneOpenPerKey(Reconcile(db, a).issues) <==> !RepeatsUnknownOrder(db, a)
  {
    hide KeysUpTo, OneOpenPerKey, RepeatsUnknown, UpsertAll, Resolve, Distinct, RepeatsAreKnown;
    var ks := KeysUpTo(db, a, 6);
    KeysAreManaged(db, a, 6);
    OneRowAKeyIffDistinct(db.issues, ks, a.now);
    NewKeysDistinctIff(db.issues, ks);
    RepeatsUpTo(db, a, 6);
  }

  /** Such an answer: the same order twice. */
  lemma RepeatedOrderOpensTwoRows(db: Db, a: ReconcileAnswers, row: RemoteOrder)
    requires RunReturns(a) && OneOpenPerKey(db.issues)
    requires a.orders.rows == [row, row] && row.id != "" && FindByFutuId(db.orders, row.id).None? && !IsOpen(db.issues, RemoteOrderKey(row))
    ensures !OneOpenPerKey(Reconcile(db, a).issues)
  {
    hide Reconcile, OneOpenPerKey;
    var rows := a.orders.rows;
    assert rows[0] == row && rows[1] == row && UnknownRow(db.orders, rows[0]);
    assert RepeatsUnknownOrder(db, a);
    OneRowAKeyIff(db, a);
  }

  lemma UpsertKeepsOneRow(committed: seq<Issue>, issues: seq<Issue>, k: IssueKey, now: Time)
    requires |committed| <= |issues| && OneOpenPerKey(issues)
    requires forall i :: 0 <= i < |issues| && issues[i].open && issues[i].key == k ==> i < |committed| && committed[i].open && committed[i].key == k
    requires forall i :: 0 <= i < |committed| ==> issues[i].key == committed[i].key && (committed[i].open ==> issues[i].open)
    ensures OneOpenPerKey(UpsertIn(committed, issues, k, now))
  {
    hide SeverityOf;
  }

  /** Whatever an iteration's run does, returns or raises, one open row a key stays so unless the answer repeats an unknown order. */
  lemma ReconcileKeepsOneOpenPerKey(db: Db, a: ReconcileAnswers)
    requires OneOpenPerKey(db.issues) && (ReadsOk(a) ==> !RepeatsUnknownOrder(db, a))
    ensures OneOpenPerKey(Reconcile(db, a).issues)
  {
    hide KeysUpTo, UpsertIn, RepeatsUnknown, Resolve, FindIssue;
    if !ReadsOk(a) {
      var m := Upsert(db.issues, ACCOUNT_FAILURE, a.now);
      UpsertKeepsOneRow(db.issues, db.issues, ACCOUNT_FAILURE, a.now);
      UpsertKeepsOneRow(m, m, RUN_FAILURE, a.now);
    } else {
      OneRowAKeyIff(db, a.(crash := None));
      KeysOfLedgers(db, db, a, a.(crash := None), 6);
      assert OneOpenPerKey(IssuesAfterRun(db, a));
      if a.crash.Some? {
        UpsertKeepsOneRow(IssuesAfterRun(db, a), IssuesAfterRun(db, a), RUN_FAILURE, a.now);
        if a.crash.value.checks <= 6 {
          PartialRunKeepsOneRow(db, a, a.crash.value.checks);
        }
      }
    }
  }

  lemma PartialRunKeepsOneRow(db: Db, a: ReconcileAnswers, c: nat)
    requires OneOpenPerKey(db.issues) && ReadsOk(a) && c <= 6 && !RepeatsUnknownOrder(db, a)
    ensures OneOpenPerKey(UpsertIn(db.issues, UpsertAll(db.issues, KeysUpTo(db, a, c), a.now), RUN_FAILURE, a.now))
  {
    hide KeysUpTo, RepeatsUnknown, FindIssue, SeverityOf, UpsertIn;
    var ks := KeysUpTo(db, a, c);
    var m := UpsertAll(db.issues, ks, a.now);
    KeysAreManaged(db, a, c);
    RepeatsUpTo(db, a, c);
    NewKeysDistinctIff(db.issues, ks);
    OneRowAKeyIffDistinct(db.issues, ks, a.now);
    UpsertAllRefreshes(db.issues, ks, a.now);
    NewKeyMembers(db.issues, ks);
    forall i | |db.issues| <= i < |m| ensures m[i].key != RUN_FAILURE {
      assert m[i].key == NewKeys(db.issues, ks)[i - |db.issues|] && m[i].key in NewKeys(db.issues, ks);
    }
    UpsertKeepsOneRow(db.issues, m, RUN_FAILURE, a.now);
  }

  // ------------------------------------------------------- over every run

  /** No answer of the history repeats an unknown order that has no open issue when it comes. */
  ghost predicate NeverRepeats(history: seq<Turn>) {
    forall n :: 0 <= n < |history| && ReadsOk(history[n].answers) ==>
      !RepeatsUnknownOrder(history[n].ledgers.(issues := IssuesAfter([], history[..n])), history[n].answers)
  }

  /** From an empty issue table, one open row a key, as long as no answer repeats an unknown order. */
  lemma {:induction false} EveryHistoryKeepsOneOpenPerKey(history: seq<Turn>)
    requires NeverRepeats(history)
    ensures OneOpenPerKey(IssuesAfter([], history))
  {
    if history != [] {
      hide Reconcile, RepeatsUnknownOrder;
      var n, init, turn := |history| - 1, history[..|history| - 1], history[|history| - 1];
      forall k | 0 <= k < n ensures init[..k] == history[..k] && init[k] == history[k] {
      }
      EveryHistoryKeepsOneOpenPerKey(init);
      ReconcileKeepsOneOpenPerKey(turn.ledgers.(issues := IssuesAfter([], init)), turn.answers);
    }
  }
}
