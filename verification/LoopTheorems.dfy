/** Guarantees over every run of the loop, whatever the remote account answers. */
module LoopTheorems {
  import opened Common
  import opened Ledger
  import opened OrderSync
  import opened PositionSync
  import opened PositionManager
  import opened Reconciler
  import opened ReconcilerTheorems
  import opened IssueRows
  import opened Approval
  import opened SimLoop
  import opened EntryTheorems
  import opened ApprovalRules

  // --------------------------------------------------- the issue table invariant

  lemma SyncKeepsControlTables(db: Db, a: LoopAnswers, cfg: Config)
    requires SyncOrders(db, a.orders, cfg.entryTimeout).Got?
    ensures SyncedDb(db, a, cfg).issues == db.issues && SyncedDb(db, a, cfg).buyLog == db.buyLog
  {
  }

  lemma EntryStagesKeepIssues(managed: Db, a: LoopAnswers, cfg: Config)
    ensures EntryStages(managed, a, cfg).db.issues == managed.issues
  {
    hide Review, Execute, Validate, ApplyPortfolio, PortfolioOf, PlanIds, TriggeredOf, ExecutableOf;
  }

  lemma IterateIssues(db: Db, a: LoopAnswers, cfg: Config)
    ensures var r := Iterate(db, a, cfg).db;
      if cfg.enableReal || SyncOrders(db, a.orders, cfg.entryTimeout).ReadError? then r == db
      else r.issues == ReconciledDb(db, a, cfg).issues && SyncedDb(db, a, cfg).issues == db.issues
  {
    hide SyncOrders, SyncPositions, Reconcile, EntryStages;
    if SyncOrders(db, a.orders, cfg.entryTimeout).Got? {
      SyncKeepsControlTables(db, a, cfg);
      EntryStagesKeepIssues(ManagedDb(db, a, cfg), a, cfg);
    }
  }

  lemma {:induction false} RunKeepsSeverities(db: Db, run: seq<LoopAnswers>, cfg: Config)
    requires SeveritiesFit(db.issues)
    ensures SeveritiesFit(Run(db, run, cfg).issues)
  {
    hide SeveritiesFit, Iterate;
    if run != [] {
      var before, a := Run(db, run[..|run| - 1], cfg), run[|run| - 1];
      RunKeepsSeverities(db, run[..|run| - 1], cfg);
      IterateIssues(before, a, cfg);
      if SyncOrders(before, a.orders, cfg.entryTimeout).Got? {
        ReconcileKeepsSeverities(SyncedDb(before, a, cfg), a.reconcile);
      }
    }
  }

  /** The open orders an iteration reconciles with repeat an order that is unknown locally and has no open issue. */
  ghost predicate RepeatsUnknownIn(db: Db, a: LoopAnswers, cfg: Config) {
    SyncOrders(db, a.orders, cfg.entryTimeout).Got? && ReadsOk(a.reconcile) && RepeatsUnknownOrder(SyncedDb(db, a, cfg), a.reconcile)
  }

  /** Every run of the loop keeps one open issue row a key, as long as no answer repeats an unknown order. */
  lemma {:induction false} RunKeepsOneOpenPerKey(db: Db, run: seq<LoopAnswers>, cfg: Config)
    requires OneOpenPerKey(db.issues)
    requires forall n :: 0 <= n < |run| ==> !RepeatsUnknownIn(Run(db, run[..n], cfg), run[n], cfg)
    ensures OneOpenPerKey(Run(db, run, cfg).issues)
  {
    hide OneOpenPerKey, Iterate, RepeatsUnknownOrder;
    if run != [] {
      var n, init, a := |run| - 1, run[..|run| - 1], run[|run| - 1];
      var before := Run(db, init, cfg);
      forall k | 0 <= k < n ensures init[..k] == run[..k] && init[k] == run[k] {
      }
      RunKeepsOneOpenPerKey(db, init, cfg);
      assert !RepeatsUnknownIn(before, run[n], cfg);
      IterateIssues(before, a, cfg);
      if SyncOrders(before, a.orders, cfg.entryTimeout).Got? {
        ReconcileKeepsOneOpenPerKey(SyncedDb(before, a, cfg), a.reconcile);
      }
    }
  }

  // ------------------------------------------------------- approval soundness

  lemma ManagingKeepsControlTables(db: Db, a: LoopAnswers, cfg: Config)
    requires SyncOrders(db, a.orders, cfg.entryTimeout).Got?
    ensures var managed, rec := ManagedDb(db, a, cfg), ReconciledDb(db, a, cfg);
      managed.issues == rec.issues && managed.gate == rec.gate && managed.buyLog == db.buyLog
  {
  }

  /** The gate that management leaves lets entries through exactly when the ledgers agreed and nothing unmanaged blocks. */
  lemma GateMeansAgreement(db: Db, a: LoopAnswers, cfg: Config)
    requires SeveritiesFit(db.issues) && SyncOrders(db, a.orders, cfg.entryTimeout).Got?
    ensures GatePasses(ManagedDb(db, a, cfg)) <==>
      RunReturns(a.reconcile) && LedgersAgree(SyncedDb(db, a, cfg), a.reconcile) && !UnmanagedBlocks(db.issues)
  {
    hide Reconcile, SyncOrders, LedgersAgree;
    GateIsSaved(db, a, cfg);
    GatePassesIff(ReconciledDb(db, a, cfg));
    SyncKeepsControlTables(db, a, cfg);
    OpenGateMeansAgreement(SyncedDb(db, a, cfg), a.reconcile);
  }

  /** The run of this iteration returned, the ledgers it read agree, and nothing unmanaged blocks. */
  ghost predicate LedgersAgreed(db: Db, a: LoopAnswers, cfg: Config) {
    && SyncOrders(db, a.orders, cfg.entryTimeout).Got?
    && RunReturns(a.reconcile) && LedgersAgree(SyncedDb(db, a, cfg), a.reconcile) && !UnmanagedBlocks(db.issues)
  }

  /** The plan's budget is the account's equity times the symbol share. */
  predicate Budgets(plans: seq<Plan>, p: nat, a: AccountAnswers, cfg: Config) {
    && a.account.Got? && p < |plans| && plans[p].maxNewPositionValue.Some?
    && plans[p].maxNewPositionValue.value == a.account.rows.equity * cfg.maxSymbolPct
  }

  /**
   What an iteration that starts from `db` approves: the first plan that passes every rule, if it gets
   as far as its review, and nothing else; then the ledgers agreed and the plan has its budget.
   */
  ghost predicate ApprovesSoundly(db: Db, a: LoopAnswers, cfg: Config) {
    var it := Iterate(db, a, cfg);
    && (forall p: nat :: it.approved == Some(p) <==> Approves(db, a, cfg, p))
    && (it.approved.Some? ==> LedgersAgreed(db, a, cfg) && Budgets(it.db.plans, it.approved.value, a.account, cfg))
  }

  /** One iteration: an approval means the ledgers agreed and the plan passed every rule just now. */
  lemma {:induction false} IterationApprovalIsSound(db: Db, a: LoopAnswers, cfg: Config)
    requires SeveritiesFit(db.issues)
    ensures ApprovesSoundly(db, a, cfg)
  {
    hide Iterate, Approves, GatePasses, ManagedDb, SyncedDb, SyncOrders, LedgersAgree, UnmanagedBlocks;
    var it := Iterate(db, a, cfg);
    forall p: nat ensures it.approved == Some(p) <==> Approves(db, a, cfg, p) {
      ApprovesIffPassesFirst(db, a, cfg, p);
    }
    if it.approved.Some? {
      FirstPassesGate(db, a, cfg, it.approved.value);
      GateMeansAgreement(db, a, cfg);
      BudgetOfApproved(db, a, cfg, it.approved.value);
    }
  }

  lemma FirstPassesGate(db: Db, a: LoopAnswers, cfg: Config, p: nat)
    requires Approves(db, a, cfg, p)
    ensures SyncOrders(db, a.orders, cfg.entryTimeout).Got? && GatePasses(ManagedDb(db, a, cfg))
    ensures BuysOn(ManagedDb(db, a, cfg).buyLog, a.review(p).now / 86400) < cfg.maxDailyTrades
  {
    hide ManagedDb, SyncOrders;
  }

  /** Every approval of every run, from any issue table whose open rows have the severities of their types. */
  lemma {:induction false} EveryApprovalIsSound(db: Db, run: seq<LoopAnswers>, a: LoopAnswers, cfg: Config)
    requires SeveritiesFit(db.issues)
    ensures ApprovesSoundly(Run(db, run, cfg), a, cfg)
  {
    hide ApprovesSoundly;
    RunKeepsSeverities(db, run, cfg);
    IterationApprovalIsSound(Run(db, run, cfg), a, cfg);
  }

  // ---------------------------------------------------- what an iteration buys

  /** What the entry stages buy: only on an approval, and at most one accepted BUY. */
  ghost predicate BuysSoundly(managed: Db, a: LoopAnswers, cfg: Config, it: Iteration) {
    && (it.attempts != [] || it.accepted.Some? ==> it.approved.Some?)
    && (it.approved.Some? ==> BuysTheApproved(ReviewedDb(managed, a, cfg).0, it.approved, Execution(it.db, it.attempts, it.accepted), cfg))
    && it.db.buyLog == managed.buyLog + (if it.accepted.Some? then [a.execution.at(it.accepted.value)] else [])
  }

  lemma EntryStagesBuySoundly(managed: Db, a: LoopAnswers, cfg: Config)
    ensures BuysSoundly(managed, a, cfg, EntryStages(managed, a, cfg))
  {
    hide Review, ExecuteApproved, EntrySize, Validate, ApplyPortfolio, PortfolioOf, Contexts;
    var validated := ValidatedDb(FundedDb(managed, a, cfg), a);
    ApprovalAndExecutionAgree(validated, Setting(managed, a, cfg), a.execution, cfg);
  }

  /** In every iteration nothing is bought without an approval, and at most one BUY is accepted. */
  lemma {:induction false} IterationBuysTheApproved(db: Db, a: LoopAnswers, cfg: Config)
    ensures var it := Iterate(db, a, cfg);
      if it.approved.Some? then
        SyncOrders(db, a.orders, cfg.entryTimeout).Got? && BuysSoundly(ManagedDb(db, a, cfg), a, cfg, it)
      else it.attempts == [] && it.accepted.None? && it.db.buyLog == db.buyLog
  {
    hide EntryStages, BuysTheApproved, ReviewedDb, SyncOrders, SyncPositions, Reconcile, ManageAll;
    if !cfg.enableReal && SyncOrders(db, a.orders, cfg.entryTimeout).Got? {
      SyncKeepsControlTables(db, a, cfg);
      ManagingKeepsControlTables(db, a, cfg);
      EntryStagesBuySoundly(ManagedDb(db, a, cfg), a, cfg);
    }
  }

  /** The buy log after one iteration: unchanged, or one entry more under a review that allowed it. */
  lemma {:induction false} IterationLog(db: Db, a: LoopAnswers, cfg: Config)
    ensures var log := Iterate(db, a, cfg).db.buyLog;
      log == db.buyLog || exists i, j :: BuysOn(db.buyLog, a.review(i).now / 86400) < cfg.maxDailyTrades && log == db.buyLog + [a.execution.at(j)]
  {
    hide Iterate, ManagedDb, BuysTheApproved, Approves, SyncOrders;
    var it := Iterate(db, a, cfg);
    IterationBuysTheApproved(db, a, cfg);
    if it.approved.Some? {
      ManagingKeepsControlTables(db, a, cfg);
    }
    if it.accepted.Some? {
      var i, j := it.approved.value, it.accepted.value;
      ApprovesIffPassesFirst(db, a, cfg, i);
      FirstPassesGate(db, a, cfg, i);
      assert BuysOn(db.buyLog, a.review(i).now / 86400) < cfg.maxDailyTrades && it.db.buyLog == db.buyLog + [a.execution.at(j)];
    }
  }

  // ------------------------------------------------------------ the daily cap

  /** The clock never runs backwards: inside an iteration and from one to the next. */
  ghost predicate Timely(run: seq<LoopAnswers>) {
    && (forall k, i, j :: 0 <= k < |run| ==> run[k].review(i).now <= run[k].execution.at(j))
    && (forall k, m, i, j :: 0 <= k < m < |run| ==> run[k].execution.at(j) <= run[m].review(i).now)
  }

  ghost predicate LogBefore(log: seq<Time>, run: seq<LoopAnswers>) {
    forall t, k, i :: t in log && 0 <= k < |run| ==> t <= run[k].review(i).now
  }

  ghost predicate CapHolds(log: seq<Time>, cfg: Config) {
    forall day :: BuysOn(log, day) <= MaxInt(0, cfg.maxDailyTrades)
  }

  lemma NothingBoughtLater(log: seq<Time>, now: Time, day: int)
    requires (forall t :: t in log ==> t <= now) && now / 86400 < day
    ensures BuysOn(log, day) == 0
  {
    forall k | 0 <= k < |log| ensures log[k] / 86400 != day {
      assert log[k] in log;
      DaysAreMonotone(log[k], now);
    }
    assert (set k | 0 <= k < |log| && log[k] / 86400 == day) == {};
  }

  lemma DaysAreMonotone(t: Time, u: Time)
    requires t <= u
    ensures t / 86400 <= u / 86400
  {
  }

  /** One more BUY at `t`, allowed by a review at `now <= t`, stays within the cap. */
  lemma OneMoreBuyKeepsCap(log: seq<Time>, now: Time, t: Time, cfg: Config)
    requires CapHolds(log, cfg) && (forall x :: x in log ==> x <= now) && now <= t
    requires BuysOn(log, now / 86400) < cfg.maxDailyTrades
    ensures CapHolds(log + [t], cfg)
  {
    hide BuysOn;
    DaysAreMonotone(now, t);
    if now / 86400 < t / 86400 {
      NothingBoughtLater(log, now, t / 86400);
    }
    forall day ensures BuysOn(log + [t], day) <= MaxInt(0, cfg.maxDailyTrades) {
      OneMoreBuy(log, t, day);
    }
  }

  ghost predicate Logged(t: Time, run: seq<LoopAnswers>) {
    exists k, j :: 0 <= k < |run| && t == run[k].execution.at(j)
  }

  lemma LoggedEarlier(t: Time, run: seq<LoopAnswers>, n: nat)
    requires n <= |run| && Logged(t, run[..n])
    ensures Logged(t, run)
  {
    var k, j :| 0 <= k < |run[..n]| && t == run[..n][k].execution.at(j);
    assert run[k] == run[..n][k];
  }

  /** Over every run on a forward clock, no UTC day sees more accepted BUYs than the daily limit. */
  lemma {:induction false} DailyCapHolds(db: Db, run: seq<LoopAnswers>, cfg: Config)
    requires CapHolds(db.buyLog, cfg) && Timely(run) && LogBefore(db.buyLog, run)
    ensures CapHolds(Run(db, run, cfg).buyLog, cfg)
    ensures forall t :: t in Run(db, run, cfg).buyLog ==> t in db.buyLog || Logged(t, run)
  {
    hide Iterate, BuysOn, CapHolds;
    if run != [] {
      var n := |run| - 1;
      var init, a, before := run[..n], run[n], Run(db, run[..n], cfg);
      assert Timely(init) && LogBefore(db.buyLog, init);
      DailyCapHolds(db, init, cfg);
      IterationLog(before, a, cfg);
      forall t | t in before.buyLog && t !in db.buyLog ensures Logged(t, run) {
        LoggedEarlier(t, run, n);
      }
      var log := Iterate(before, a, cfg).db.buyLog;
      if log != before.buyLog {
        var i, j :| BuysOn(before.buyLog, a.review(i).now / 86400) < cfg.maxDailyTrades && log == before.buyLog + [a.execution.at(j)];
        forall x | x in before.buyLog ensures x <= a.review(i).now {
          if x !in db.buyLog {
            var k, m :| 0 <= k < |init| && x == init[k].execution.at(m);
            assert run[k] == init[k];
          }
        }
        OneMoreBuyKeepsCap(before.buyLog, a.review(i).now, a.execution.at(j), cfg);
        assert a.execution.at(j) == run[n].execution.at(j);
      }
    }
  }
}
