/** One iteration of the simulated-trading loop, and every run of it: app/services/sim_loop.py. */
module SimLoop {
  import opened Common
  import opened Ledger
  import opened OrderSync
  import opened PositionSync
  import opened PositionManager
  import opened Reconciler
  import opened Approval

  /** Everything one iteration reads from outside; none of it is trusted. */
  datatype LoopAnswers = LoopAnswers(
    orders: OrderAnswers,
    positions: PositionAnswers,
    reconcile: ReconcileAnswers,
    quotesOk: bool,
    manage: nat -> ManageAnswers,
    account: AccountAnswers,
    validation: ValidationAnswers,
    review: nat -> ReviewAnswers,
    execution: ExecutionAnswers)

  /** What one iteration did. `aborted` means an exception left the loop early. */
  datatype Iteration = Iteration(
    db: Db,
    aborted: bool,
    approved: Option<nat>,
    attempts: seq<nat>,
    accepted: Option<nat>)

  function Stopped(db: Db): Iteration {
    Iteration(db, true, None, [], None)
  }

  predicate AnyOpen(ps: seq<Position>) {
    exists i :: 0 <= i < |ps| && ps[i].status.Open?
  }

  predicate AnyUnderValidation(plans: seq<Plan>) {
    exists i :: 0 <= i < |plans| && UnderValidation(plans[i])
  }

  // ----------------------------------------------- the stages, in their order

  /** After order sync and position sync. */
  function SyncedDb(db: Db, a: LoopAnswers, cfg: Config): Db
    requires SyncOrders(db, a.orders, cfg.entryTimeout).Got?
  {
    SyncPositions(SyncOrders(db, a.orders, cfg.entryTimeout).rows, a.positions, cfg)
  }

  function ReconciledDb(db: Db, a: LoopAnswers, cfg: Config): Db
    requires SyncOrders(db, a.orders, cfg.entryTimeout).Got?
  {
    Reconcile(SyncedDb(db, a, cfg), a.reconcile)
  }

  function ManagedDb(db: Db, a: LoopAnswers, cfg: Config): Db
    requires SyncOrders(db, a.orders, cfg.entryTimeout).Got?
  {
    ManageAll(ReconciledDb(db, a, cfg), a.manage, cfg)
  }

  function FundedDb(managed: Db, a: LoopAnswers, cfg: Config): Db {
    managed.(plans := ApplyPortfolio(managed.plans, PortfolioOf(managed.positions, a.account, cfg), cfg))
  }

  function ValidatedDb(funded: Db, a: LoopAnswers): Db {
    funded.(plans := Validate(funded.plans, a.validation))
  }

  function Setting(managed: Db, a: LoopAnswers, cfg: Config): ReviewSetting {
    ReviewSetting(Contexts(FundedDb(managed, a, cfg).plans, a.validation), PortfolioOf(managed.positions, a.account, cfg), a.review)
  }

  /** The approval loop over the triggered plans. */
  function ReviewedDb(managed: Db, a: LoopAnswers, cfg: Config): (r: (Db, Option<nat>)) {
    var db := ValidatedDb(FundedDb(managed, a, cfg), a);
    Review(db, TriggeredOf(db.plans, PlanIds(db.plans)), Setting(managed, a, cfg), cfg)
  }

  /** Portfolio, validation, approval and execution. */
  function EntryStages(managed: Db, a: LoopAnswers, cfg: Config): Iteration {
    var funded := FundedDb(managed, a, cfg);
    if AnyUnderValidation(funded.plans) && !a.validation.snapshotOk then Stopped(funded)
    else
      var (reviewed, approved) := ReviewedDb(managed, a, cfg);
      var e := ExecuteApproved(reviewed, a.execution, cfg);
      Iteration(e.db, false, approved, e.attempts, e.accepted)
  }

  /** `run_sim_loop`. */
  function Iterate(db: Db, a: LoopAnswers, cfg: Config): Iteration {
    if cfg.enableReal || SyncOrders(db, a.orders, cfg.entryTimeout).ReadError? then Stopped(db)
    else if AnyOpen(ReconciledDb(db, a, cfg).positions) && !a.quotesOk then Stopped(ReconciledDb(db, a, cfg))
    else EntryStages(ManagedDb(db, a, cfg), a, cfg)
  }

  /** The tables after a run of iterations. */
  function Run(db: Db, run: seq<LoopAnswers>, cfg: Config): Db {
    if run == [] then db else Iterate(Run(db, run[..|run| - 1], cfg), run[|run| - 1], cfg).db
  }

  // ------------------------------------------------------- the method form

  method RunEntryStages(store: Store, a: LoopAnswers, cfg: Config)
    returns (aborted: bool, approved: Option<nat>, attempts: seq<nat>, accepted: Option<nat>)
    modifies store
    ensures Iteration(store.Snapshot(), aborted, approved, attempts, accepted) == EntryStages(old(store.Snapshot()), a, cfg)
  {
    hide Review, TriggeredOf, PlanIds, ExecuteApproved, Validate, Contexts, ApplyPortfolio, PortfolioOf, AnyUnderValidation;
    var portfolio := ReadPortfolio(store, a.account, cfg);
    if AnyUnderValidation(store.plans) && !a.validation.snapshotOk {
      return true, None, [], None;
    }
    var contexts := ValidatePlans(store, a.validation);
    approved := ApprovePlans(store, ReviewSetting(contexts, portfolio, a.review), cfg);
    attempts, accepted := ExecuteApprovedOrders(store, a.execution, cfg);
    aborted := false;
  }

  method RunSimLoop(store: Store, a: LoopAnswers, cfg: Config)
    returns (aborted: bool, approved: Option<nat>, attempts: seq<nat>, accepted: Option<nat>)
    modifies store
    ensures Iteration(store.Snapshot(), aborted, approved, attempts, accepted) == Iterate(old(store.Snapshot()), a, cfg)
  {
    hide SyncOrders, SyncPositions, Reconcile, ManageAll, EntryStages, AnyOpen;
    if cfg.enableReal {
      return true, None, [], None;
    }
    var synced := SyncSimOrders(store, a.orders, cfg.entryTimeout);
    if !synced {
      return true, None, [], None;
    }
    SyncFutuPositions(store, a.positions, cfg);
    var added, resolved := RunReconciliation(store, a.reconcile);
    if AnyOpen(store.positions) && !a.quotesOk {
      return true, None, [], None;
    }
    var submitted := ManagePositions(store, a.manage, cfg);
    aborted, approved, attempts, accepted := RunEntryStages(store, a, cfg);
  }

  /** The scheduler: one iteration after another on the same tables. */
  method RunLoop(store: Store, run: seq<LoopAnswers>, cfg: Config)
    modifies store
    ensures store.Snapshot() == Run(old(store.Snapshot()), run, cfg)
  {
    hide Iterate;
    for i := 0 to |run|
      invariant store.Snapshot() == Run(old(store.Snapshot()), run[..i], cfg)
    {
      var aborted, approved, attempts, accepted := RunSimLoop(store, run[i], cfg);
      assert run[..i + 1][..i] == run[..i];
    }
    assert run[..|run|] == run;
  }
}
