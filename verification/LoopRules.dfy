/** Which BUY an iteration sends, and that every stage of the loop takes place, on the tables (sim_loop.py, sim_order_executor.py). */
module LoopRules {
  import opened Common
  import opened Ledger
  import opened OrderSync
  import opened PositionSync
  import opened PositionManager
  import opened Reconciler
  import opened Approval
  import opened SimLoop
  import opened EntryTheorems
  import opened ApprovalRules
  import opened ExitRules

  // --------------------------------------------------------------- the BUY

  /** The suggested shares, or the whole number that risks no more than the risk share of the plan's equity. */
  predicate SharesFor(p: Plan, cfg: Config, n: int) {
    if p.suggestedShares.Some? && p.suggestedShares.value > 0 then n == p.suggestedShares.value
    else
      var risk := (if p.breakout.Some? then p.breakout.value else 0.0) - p.stopPrice;
      var budget := if p.maxNewPositionValue.Some? then p.maxNewPositionValue.value else 0.0;
      var equity := if cfg.maxSymbolPct > 0.0 then budget / cfg.maxSymbolPct else 0.0;
      if risk > 0.0 then n as real * risk <= cfg.riskPct * equity < (n + 1) as real * risk else n == 0
  }

  /** At the plan's price, or its breakout, and no higher than its no-chase price. */
  predicate PricedFor(p: Plan, current: real, limit: real) {
    && current == (if IsSet(p.currentPrice) then p.currentPrice.value else if p.breakout.Some? then p.breakout.value else 0.0)
    && limit == if IsSet(p.noChaseAbove) && p.noChaseAbove.value < current then p.noChaseAbove.value else current
  }

  /** The BUY of plan `i`, submitted under the broker's id, or failed. */
  ghost predicate IsBuy(o: Order, p: Plan, i: nat, n: int, answer: PlaceAnswer, at: Time) {
    && PricedFor(p, o.submittedPrice, o.limitPrice) && o.planId == Some(i) && o.symbol == p.symbol && o.side.Buy? && o.qty == n && o.submittedAt == at
    && o.dealtQty == 0 && o.dealtAvg.None? && o.retryCount == 0
    && match answer
       case Accepted(id) => o.status.Submitted? && o.futuId == id && o.note.EntryNote?
       case Refused => o.status.Failed? && o.futuId == "" && o.note.OtherNote?
  }

  predicate OrderWorks(os: seq<Order>, s: Symbol) {
    exists k :: 0 <= k < |os| && os[k].symbol == s && (os[k].status.Submitted? || os[k].status.PartiallyFilled?)
  }

  /** Blocked without a share, else bought or refused. */
  ghost predicate BuysShares(db: Db, i: nat, n: int, a: ExecutionAnswers, r: Execution)
    requires i < |db.plans|
  {
    var p := db.plans[i];
    if n <= 0 then r == Execution(db.(plans := db.plans[i := p.(status := Blocked)]), [], None)
    else
      && |r.db.orders| == |db.orders| + 1 && r.db.orders[..|db.orders|] == db.orders && IsBuy(r.db.orders[|db.orders|], p, i, n, a.place(i), a.at(i))
      && r.attempts == [i]
      && if a.place(i).Accepted? then
           r.accepted == Some(i)
           && r.db == db.(orders := r.db.orders, buyLog := db.buyLog + [a.at(i)],
                          plans := db.plans[i := p.(status := OrderSubmitted, simulatedOrderId := Some(|db.orders|))])
         else r.accepted.None? && r.db == db.(orders := r.db.orders, plans := db.plans[i := p.(status := Blocked)])
  }

  /** One executable plan: passed over while an order of its symbol works, else bought as its size says. */
  ghost predicate Buys(db: Db, i: nat, a: ExecutionAnswers, cfg: Config, r: Execution)
    requires i < |db.plans|
  {
    if OrderWorks(db.orders, db.plans[i].symbol) then r == Execution(db, [], None)
    else exists n :: SharesFor(db.plans[i], cfg, n) && BuysShares(db, i, n, a, r)
  }

  lemma WholeNumber(x: real, d: real, n: int)
    requires d > 0.0 && n == (x / d).Floor
    ensures n as real * d <= x < (n + 1) as real * d
  {
    var q, lo, hi := x / d, n as real, (n + 1) as real;
    Between(lo, q, hi, d);
    Exactly(x, d);
    assert q * d == x;
    assert x < hi * d;
    assert lo * d <= x;
  }

  lemma Exactly(x: real, d: real)
    requires d > 0.0
    ensures x / d * d == x
  {
  }

  lemma Between(lo: real, q: real, hi: real, d: real)
    requires lo <= q < hi && d > 0.0
    ensures lo * d <= q * d < hi * d
  {
    assert (q - lo) * d >= 0.0 && (hi - q) * d > 0.0;
  }

  lemma SharesAre(p: Plan, cfg: Config)
    ensures SharesFor(p, cfg, EntrySize(p, cfg))
  {
    var risk := OrElse(p.breakout, 0.0) - p.stopPrice;
    var equity := if cfg.maxSymbolPct > 0.0 then OrElse(p.maxNewPositionValue, 0.0) / cfg.maxSymbolPct else 0.0;
    if risk > 0.0 && !(p.suggestedShares.Some? && p.suggestedShares.value > 0) {
      WholeNumber(cfg.riskPct * equity, risk, EntrySize(p, cfg));
    }
  }

  lemma BuyIs(p: Plan, i: nat, a: ExecutionAnswers, cfg: Config)
    requires EntrySize(p, cfg) > 0
    ensures IsBuy(EntryOrder(p, i, a, cfg), p, i, EntrySize(p, cfg), a.place(i), a.at(i))
  {
    hide EntrySize;
  }

  /** Executing one plan buys as its row, the orders and the broker call for. */
  lemma BuysByRule(db: Db, i: nat, a: ExecutionAnswers, cfg: Config)
    requires i < |db.plans|
    ensures Buys(db, i, a, cfg, ExecuteOne(db, i, a, cfg))
  {
    hide SharesFor, EntrySize, EntryOrder, IsBuy;
    var p := db.plans[i];
    SharesAre(p, cfg);
    if EntrySize(p, cfg) > 0 {
      BuyIs(p, i, a, cfg);
    }
    assert !OrderWorks(db.orders, p.symbol) ==> BuysShares(db, i, EntrySize(p, cfg), a, ExecuteOne(db, i, a, cfg));
  }

  /** The loop takes the executable plans in their order, each on the tables the one before left, and stops at the first accepted BUY. */
  lemma ExecutionGoesInOrder(db: Db, ids: seq<nat>, a: ExecutionAnswers, cfg: Config)
    requires forall k :: 0 <= k < |ids| ==> ids[k] < |db.plans|
    ensures ids == [] ==> Execute(db, ids, a, cfg) == Execution(db, [], None)
    ensures ids != [] ==>
      exists one: Execution :: Buys(db, ids[0], a, cfg, one) && GoesOn(db, ids, a, cfg, one)
  {
    if ids != [] {
      hide Buys, ExecuteOne;
      BuysByRule(db, ids[0], a, cfg);
      var one := ExecuteOne(db, ids[0], a, cfg);
      assert Buys(db, ids[0], a, cfg, one) && GoesOn(db, ids, a, cfg, one);
    }
  }

  /** The first plan's outcome is the whole one if its BUY was accepted, else the rest follows on its tables. */
  ghost predicate GoesOn(db: Db, ids: seq<nat>, a: ExecutionAnswers, cfg: Config, one: Execution)
    requires ids != [] && forall k :: 0 <= k < |ids| ==> ids[k] < |db.plans|
  {
    if one.accepted.Some? then Execute(db, ids, a, cfg) == one
    else
      |one.db.plans| == |db.plans| &&
      var rest := Execute(one.db, ids[1..], a, cfg);
      Execute(db, ids, a, cfg) == Execution(rest.db, one.attempts + rest.attempts, rest.accepted)
  }

  /** A plan that was never validated comes first, then by time of validation, then by id. */
  predicate ComesBefore(plans: seq<Plan>, i: nat, j: nat)
    requires i < |plans| && j < |plans|
  {
    var a, b := plans[i].lastValidated, plans[j].lastValidated;
    if a == b then i < j else if a.None? then true else b.Some? && a.value < b.value
  }

  /** The execution loop: nothing while simulated trading is off, else the triggered and approved plans to buy, in their order, each once. */
  lemma ExecutionListIs(db: Db, a: ExecutionAnswers, cfg: Config)
    ensures !cfg.enableSim ==> ExecuteApproved(db, a, cfg) == Execution(db, [], None)
    ensures cfg.enableSim ==>
      var list := ExecutableOf(db.plans, PlanIds(db.plans));
      && ExecuteApproved(db, a, cfg) == Execute(db, list, a, cfg)
      && (forall i: nat :: i in list <==> i < |db.plans| && db.plans[i].status.Triggered? && db.plans[i].approval.Approved? && db.plans[i].direction.Long?)
      && forall j, k :: 0 <= j < k < |list| ==> ComesBefore(db.plans, list[j], list[k])
  {
    hide ExecutableOf, PlanIds, Execute;
    AllPlansListed(db.plans);
    ExecutableIsSorted(db.plans, PlanIds(db.plans));
    hide SortedPlans;
    InOrder(db.plans, ExecutableOf(db.plans, PlanIds(db.plans)));
  }

  lemma AllPlansListed(plans: seq<Plan>)
    ensures SortedPlans(plans, PlanIds(plans)) && forall i: nat :: i in PlanIds(plans) <==> i < |plans|
  {
    IdsAreSorted(plans, |plans|);
  }

  lemma InOrder(plans: seq<Plan>, ids: seq<nat>)
    requires SortedPlans(plans, ids)
    ensures forall k :: 0 <= k < |ids| ==> ids[k] < |plans|
    ensures forall j, k :: 0 <= j < k < |ids| ==> ComesBefore(plans, ids[j], ids[k])
  {
  }

  // ------------------------------------------------------------- the stages

  predicate SomeOpen(ps: seq<Position>) {
    exists k :: 0 <= k < |ps| && ps[k].status.Open?
  }

  /**
   Every iteration that may trade syncs orders, then positions, reconciles, manages every position, and
   leaves the positions, the issues and the gate as management left them; entries only add orders.
   */
  lemma IterationTakesItsSteps(db: Db, a: LoopAnswers, cfg: Config)
    ensures cfg.enableReal || SyncOrders(db, a.orders, cfg.entryTimeout).ReadError? ==> Iterate(db, a, cfg) == Iteration(db, true, None, [], None)
    ensures !cfg.enableReal && SyncOrders(db, a.orders, cfg.entryTimeout).Got? ==>
      var ordered := SyncOrders(db, a.orders, cfg.entryTimeout).rows;
      var reconciled := Reconcile(SyncPositions(ordered, a.positions, cfg), a.reconcile);
      var it := Iterate(db, a, cfg);
      if SomeOpen(reconciled.positions) && !a.quotesOk then it == Iteration(reconciled, true, None, [], None)
      else
        var managed := ManageAll(reconciled, a.manage, cfg);
        && it.db.positions == managed.positions && it.db.issues == managed.issues && it.db.gate == managed.gate && it.db.deals == managed.deals
        && |managed.orders| <= |it.db.orders| && it.db.orders[..|managed.orders|] == managed.orders
  {
    hide SyncOrders, SyncPositions, Reconcile, ManageAll, ReviewedDb, ApplyPortfolio, PortfolioOf, Validate, PlanIds, ExecutableOf;
    if !cfg.enableReal && SyncOrders(db, a.orders, cfg.entryTimeout).Got? {
      var managed := ManagedDb(db, a, cfg);
      EntriesKeepTables(managed, a, cfg);
    }
  }

  /** An iteration is cut short exactly when it does not get to its review; then it approves and buys nothing. */
  lemma CutShortIff(db: Db, a: LoopAnswers, cfg: Config)
    ensures var it := Iterate(db, a, cfg);
      && (it.aborted <==> !Reviews(db, a, cfg))
      && (it.aborted ==> it.approved.None? && it.attempts == [] && it.accepted.None?)
  {
    hide SyncOrders, ReviewedDb, ExecuteApproved, ManagedDb, ReconciledDb, PositionBudget;
    if !cfg.enableReal && SyncOrders(db, a.orders, cfg.entryTimeout).Got? {
      FundingKeepsEligible(ManagedDb(db, a, cfg), a, cfg);
    }
  }

  lemma EntriesKeepTables(managed: Db, a: LoopAnswers, cfg: Config)
    ensures var r := EntryStages(managed, a, cfg).db;
      && r.positions == managed.positions && r.issues == managed.issues && r.gate == managed.gate && r.deals == managed.deals
      && |managed.orders| <= |r.orders| && r.orders[..|managed.orders|] == managed.orders
  {
    hide Review, Execute, ApplyPortfolio, PortfolioOf, Validate, PlanIds, ExecutableOf, Contexts;
    var reviewed := ReviewedDb(managed, a, cfg).0;
    ExecutionKeepsTables(reviewed, ExecutableOf(reviewed.plans, PlanIds(reviewed.plans)), a.execution, cfg);
  }

  lemma {:induction false} ExecutionKeepsTables(db: Db, ids: seq<nat>, a: ExecutionAnswers, cfg: Config)
    requires forall k :: 0 <= k < |ids| ==> ids[k] < |db.plans|
    ensures Execute(db, ids, a, cfg).db.gate == db.gate && Execute(db, ids, a, cfg).db.deals == db.deals
    decreases ids
  {
    hide EntrySize, HasWorkingOrder;
    if ids != [] {
      var one := ExecuteOne(db, ids[0], a, cfg);
      if one.accepted.None? {
        ExecutionKeepsTables(one.db, ids[1..], a, cfg);
      }
    }
  }

  // ----------------------------------------------------- every open position

  /** Row `k` is managed from `before` to `after`, on the orders of the tables and those sent for the rows before it. */
  ghost predicate InTurn(db: Db, a: ManageAnswers, cfg: Config, k: nat, price: real, before: Db, after: Db, end: Db)
    requires k < |db.positions|
  {
    && k < |before.positions| == |after.positions| == |end.positions| && ManagedRightly(before, k, a, cfg, price, after)
    && before.positions[k] == db.positions[k] && db.orders <= before.orders
    && after.positions[k] == end.positions[k] && after.orders <= end.orders
  }

  /** In one pass of management every row is managed, once. */
  lemma {:induction false} EveryRowIsManaged(db: Db, a: nat -> ManageAnswers, cfg: Config, k: nat, price: real)
    requires k < |db.positions| && ValuedAt(db.positions[k], a(k).quote, price)
    ensures exists before: Db, after: Db :: InTurn(db, a(k), cfg, k, price, before, after, ManageAll(db, a, cfg))
  {
    hide ManageOne, ManagedRightly;
    var n := |db.positions|;
    var before, after := ManageUpTo(db, a, cfg, k), ManageUpTo(db, a, cfg, k + 1);
    OtherRowsStay(db, a, cfg, 0, k, k);
    ManagingSendsWhatIsDue(before, k, a(k), cfg, price);
    OrdersOnlyGrow(db, a, cfg, 0, k);
    OrdersOnlyGrow(db, a, cfg, k + 1, n);
    OtherRowsStay(db, a, cfg, k + 1, n, k);
    assert InTurn(db, a(k), cfg, k, price, before, after, ManageAll(db, a, cfg));
  }

  lemma OnlyThatRow(db: Db, k: nat, a: ManageAnswers, cfg: Config, j: nat)
    requires k < |db.positions| && j < |db.positions| && j != k
    ensures ManageOne(db, k, a, cfg).positions[j] == db.positions[j]
  {
    hide Marked, Trailed, FinalIntent, ExitSlot, CurrentPrice, ExitOrder;
  }

  /** The turns from `m` up to `n` leave row `j` alone, if it is not one of them. */
  lemma {:induction false} OtherRowsStay(db: Db, a: nat -> ManageAnswers, cfg: Config, m: nat, n: nat, j: nat)
    requires m <= n <= |db.positions| && j < |db.positions| && !(m <= j < n)
    ensures ManageUpTo(db, a, cfg, n).positions[j] == ManageUpTo(db, a, cfg, m).positions[j]
  {
    hide ManageOne;
    if m < n {
      OtherRowsStay(db, a, cfg, m, n - 1, j);
      OnlyThatRow(ManageUpTo(db, a, cfg, n - 1), n - 1, a(n - 1), cfg, j);
    }
  }

  lemma {:induction false} OrdersOnlyGrow(db: Db, a: nat -> ManageAnswers, cfg: Config, m: nat, n: nat)
    requires m <= n <= |db.positions|
    ensures ManageUpTo(db, a, cfg, m).orders <= ManageUpTo(db, a, cfg, n).orders
  {
    hide ManageOne;
    if m < n {
      OrdersOnlyGrow(db, a, cfg, m, n - 1);
    }
  }
}
