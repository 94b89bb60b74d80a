/** When an iteration approves a plan, on the rows and the answers themselves (rules_approval.py, portfolio_manager.py). */
module ApprovalRules {
  import opened Common
  import opened Ledger
  import opened OrderSync
  import opened Reconciler
  import opened Approval
  import opened SimLoop
  import opened EntryTheorems

  // --------------------------------------------------------------- the rules

  /** An S or A plan to buy that is up for validation. */
  predicate Eligible(p: Plan) {
    && (p.priority.S? || p.priority.A?) && p.direction.Long?
    && (p.status.Active? || p.status.Armed? || p.status.WaitPullback? || p.status.Planned? || p.status.Waitlist?
        || p.status.MissedByCapital? || p.status.NoChase?)
  }

  /** Above the stop, from the breakout up to the no-chase price, at a known and small spread, with volume, in an unbroken short trend. */
  predicate PricePasses(p: Plan, q: PlanQuote, maxSpread: real) {
    && p.stopPrice < q.current
    && p.breakout.Some? && p.breakout.value != 0.0 && p.breakout.value <= q.current
    && q.current <= (if p.noChaseAbove.Some? then p.noChaseAbove.value else 0.0)
    && q.current != 0.0 && 0.0 < q.bid <= q.ask && (q.ask - q.bid) / q.current <= maxSpread
    && q.volume > 0.0 && q.shortTrend == Some(true)
  }

  /** All three account reads came back, with fewer positions than the limit on either side, cash and equity. */
  predicate CapitalPasses(ps: seq<Position>, a: AccountAnswers, limit: int) {
    && a.account.Got? && a.positions.Got? && a.orders.Got?
    && |set k | 0 <= k < |ps| && ps[k].status.Open?| < limit
    && |set k | 0 <= k < |a.positions.rows| && a.positions.rows[k].qty > 0| < limit
    && a.account.rows.cash > 0.0 && a.account.rows.equity > 0.0
  }

  /** No open position and no working order of the symbol. */
  predicate SymbolIsFree(db: Db, s: Symbol) {
    && (forall k :: 0 <= k < |db.positions| && db.positions[k].symbol == s ==> !db.positions[k].status.Open?)
    && forall k :: 0 <= k < |db.orders| && db.orders[k].symbol == s ==> !db.orders[k].status.Submitted? && !db.orders[k].status.PartiallyFilled?
  }

  /** The entries of a log that fall on a UTC day. */
  ghost function BuysOn(log: seq<Time>, day: int): nat {
    |set k | 0 <= k < |log| && log[k] / 86400 == day|
  }

  /** A weekday, after the first minutes of the session and before its last; the daily limit and the loss rule leave room. */
  ghost predicate DayPasses(log: seq<Time>, r: ReviewAnswers, cfg: Config) {
    && r.weekday < 5 && 570 + cfg.noEntryAfterOpen <= r.minute < 960 - cfg.noEntryBeforeClose
    && BuysOn(log, r.now / 86400) < cfg.maxDailyTrades && !r.lossBlock
  }

  predicate GatePasses(db: Db) {
    && db.gate.Some? && db.gate.value.allow
    && forall k :: 0 <= k < |db.issues| && db.issues[k].open ==> !db.issues[k].severity.High? && !db.issues[k].severity.Critical?
  }

  /** Every rule for plan `p`, on the tables as management left them. */
  ghost predicate Passes(managed: Db, a: LoopAnswers, cfg: Config, p: nat) {
    p < |managed.plans| &&
    var plan := managed.plans[p];
    var quote := a.validation.quote(plan.symbol);
    && cfg.enableSim && !cfg.enableReal && Eligible(plan) && !a.validation.cooling(plan.symbol)
    && quote.Some? && PricePasses(plan, quote.value, cfg.maxSpreadPct)
    && a.validation.marketCurrent && !a.validation.market.RiskOff?
    && CapitalPasses(managed.positions, a.account, cfg.maxPositions) && SymbolIsFree(managed, plan.symbol)
    && DayPasses(managed.buyLog, a.review(p), cfg) && GatePasses(managed)
  }

  // ----------------------------------------------------------- the counts

  lemma {:induction false} OpenRowsCounted(ps: seq<Position>)
    ensures CountOpenPositions(ps) == |set k | 0 <= k < |ps| && ps[k].status.Open?|
  {
    var rows := set k | 0 <= k < |ps| && ps[k].status.Open?;
    if ps != [] {
      var n, init := |ps| - 1, ps[..|ps| - 1];
      OpenRowsCounted(init);
      var before := set k | 0 <= k < |init| && init[k].status.Open?;
      if ps[n].status.Open? {
        assert rows == before + {n};
      } else {
        assert rows == before;
      }
    }
  }

  lemma {:induction false} HeldRowsCounted(rows: seq<RemotePosition>)
    ensures CountHeld(rows) == |set k | 0 <= k < |rows| && rows[k].qty > 0|
  {
    var held := set k | 0 <= k < |rows| && rows[k].qty > 0;
    if rows != [] {
      var n, init := |rows| - 1, rows[..|rows| - 1];
      HeldRowsCounted(init);
      var before := set k | 0 <= k < |init| && init[k].qty > 0;
      if rows[n].qty > 0 {
        assert held == before + {n};
      } else {
        assert held == before;
      }
    }
  }

  /** The BUYs a day has seen. */
  lemma {:induction false} BuysCounted(log: seq<Time>, day: int)
    ensures BoughtOn(log, day) == BuysOn(log, day)
  {
    hide BuysOn;
    if log == [] {
      NoBuys(day);
    } else {
      var init := log[..|log| - 1];
      BuysCounted(init, day);
      OneMoreBuy(init, log[|log| - 1], day);
      assert log == init + [log[|log| - 1]];
    }
  }

  lemma NoBuys(day: int)
    ensures BuysOn([], day) == 0
  {
  }

  lemma OneMoreBuy(log: seq<Time>, t: Time, day: int)
    ensures BuysOn(log + [t], day) == BuysOn(log, day) + if t / 86400 == day then 1 else 0
  {
    var n, r := |log|, log + [t];
    var buys, before := set k | 0 <= k < |r| && r[k] / 86400 == day, set k | 0 <= k < |log| && log[k] / 86400 == day;
    assert buys == before + if t / 86400 == day then {n} else {};
  }

  // ------------------------------------------------------ one plan's decision

  lemma CapitalPassesIff(db: Db, p: Plan, a: AccountAnswers, cfg: Config)
    ensures CapitalAllows(db, p, PortfolioOf(db.positions, a, cfg), cfg) <==> CapitalPasses(db.positions, a, cfg.maxPositions) && SymbolIsFree(db, p.symbol)
  {
    OpenRowsCounted(db.positions);
    if a.positions.Got? {
      HeldRowsCounted(a.positions.rows);
    }
  }

  /** The larger of what is open locally and held remotely. */
  ghost predicate IsHeld(ps: seq<Position>, rows: seq<RemotePosition>, held: int) {
    var local, remote := |set k | 0 <= k < |ps| && ps[k].status.Open?|, |set k | 0 <= k < |rows| && rows[k].qty > 0|;
    held == if local < remote then remote else local
  }

  /** The state of the account: unknown when a read failed; full, unknown, short of cash or available otherwise, in this order. */
  lemma PortfolioIs(ps: seq<Position>, a: AccountAnswers, cfg: Config)
    ensures var st := PortfolioOf(ps, a, cfg);
      if a.account.Got? && a.positions.Got? && a.orders.Got? then
        && st.synced && st.cash == a.account.rows.cash && st.equity == a.account.rows.equity && IsHeld(ps, a.positions.rows, st.openPositions)
        && st.status == (if st.openPositions >= cfg.maxPositions then CapitalFull else if st.equity <= 0.0 then CapitalUnknown
                         else if st.cash <= 0.0 then CapitalLimited else CapitalAvailable)
      else st == Portfolio(CapitalUnknown, 0.0, 0.0, 0, false)
  {
    OpenRowsCounted(ps);
    if a.positions.Got? {
      HeldRowsCounted(a.positions.rows);
    }
  }

  /** Funding writes the equity times the symbol share, or zero, on every S or A plan that may still be bought, and touches no other. */
  lemma FundingWritesBudgets(managed: Db, a: LoopAnswers, cfg: Config, p: nat)
    requires p < |managed.plans|
    ensures var plan, funded := managed.plans[p], FundedDb(managed, a, cfg).plans[p];
      var equity := if a.account.account.Got? && a.account.positions.Got? && a.account.orders.Got? then a.account.account.rows.equity else 0.0;
      if (plan.priority.S? || plan.priority.A?)
         && (plan.status.Active? || plan.status.Planned? || plan.status.Armed? || plan.status.Triggered? || plan.status.Waitlist?
             || plan.status.MissedByCapital? || plan.status.NoChase? || plan.status.WaitPullback?)
      then
        funded == plan.(maxNewPositionValue := funded.maxNewPositionValue) && funded.maxNewPositionValue.Some?
        && funded.maxNewPositionValue.value == if equity > 0.0 then equity * cfg.maxSymbolPct else 0.0
      else funded == plan
  {
    PortfolioIs(managed.positions, a.account, cfg);
  }

  /** What validation makes of a plan: paused without a quote or while cooling; else priced and placed by its levels; others stay. */
  lemma ValidationPlaces(p: Plan, i: nat, a: ValidationAnswers)
    ensures var q, v := a.quote(p.symbol), ValidatedPlan(p, i, a);
      if !Eligible(p) then v == p
      else if q.None? then v == p.(status := Paused)
      else
        var now, breakout := q.value.current, if p.breakout.Some? then p.breakout.value else 0.0;
        && v == p.(currentPrice := Some(now), lastValidated := Some(a.at(i)), status := v.status)
        && v.status == if a.cooling(p.symbol) then Paused
             else if now <= p.stopPrice then Invalidated
             else if p.noChaseAbove.Some? && p.noChaseAbove.value != 0.0 && now > p.noChaseAbove.value then NoChase
             else if breakout != 0.0 && now >= breakout then Triggered
             else if breakout != 0.0 && now >= breakout * 0.995 then Armed
             else Active
  {
  }

  /** What a review makes of its plan: missed for want of capital, or marked with its decision. */
  lemma ReviewMarks(p: Plan, d: Decision)
    ensures Reviewed(p, d) ==
      if d.RejectedByCapital? then p.(status := if p.status.Triggered? then MissedByCapital else Waitlist) else p.(approval := d)
  {
  }

  /** Which decision a review takes: the first rule that fails names it. */
  lemma DecisionIs(db: Db, p: Plan, ctx: Option<Context>, st: Portfolio, r: ReviewAnswers, cfg: Config)
    ensures var d, now := Decide(db, p, ctx, st, r, cfg), if ctx.Some? then ctx.value.current else 0.0;
      d == if BuysOn(db.buyLog, r.now / 86400) >= cfg.maxDailyTrades || r.lossBlock then RejectedByRisk
           else if !cfg.enableSim || cfg.enableReal || !(p.priority.S? || p.priority.A?) || !p.direction.Long? then RejectedByRisk
           else if !p.status.Triggered? || now < (if p.breakout.Some? then p.breakout.value else 0.0)
                   || now > (if p.noChaseAbove.Some? then p.noChaseAbove.value else 0.0) then RejectedByPrice
           else if ctx.None? || !ctx.value.spreadAvailable || ctx.value.spreadPct > cfg.maxSpreadPct || !ctx.value.volumeOk
                   || ctx.value.shortTrend.None? then RejectedByData
           else if !ctx.value.shortTrend.value then RejectedByPrice
           else if !ctx.value.marketAvailable then RejectedByData
           else if ctx.value.market.RiskOff? then RejectedByMarket
           else if r.weekday >= 5 || r.minute < 570 + cfg.noEntryAfterOpen || r.minute >= 960 - cfg.noEntryBeforeClose then RejectedByRisk
           else if !(CapitalAllows(db, p, st, cfg)) then RejectedByCapital
           else if !AllowsNewEntries(db) then RejectedByReconciliation
           else Approved
  {
    hide CapitalAllows, AllowsNewEntries, BuysOn;
    BuysCounted(db.buyLog, r.now / 86400);
  }

  lemma GatePassesIff(db: Db)
    requires db.gate.Some?
    ensures AllowsNewEntries(db) <==> GatePasses(db)
  {
  }

  /** The plan is triggered, and every realtime rule holds for it. */
  predicate RealtimeRulesHeld(p: Plan, ctx: Context, r: ReviewAnswers, cfg: Config) {
    && (p.priority.S? || p.priority.A?) && p.direction.Long? && p.status.Triggered?
    && OrElse(p.breakout, 0.0) <= ctx.current <= OrElse(p.noChaseAbove, 0.0)
    && ctx.spreadAvailable && ctx.spreadPct <= cfg.maxSpreadPct && ctx.volumeOk && ctx.shortTrend == Some(true)
    && ctx.marketAvailable && !ctx.market.RiskOff? && EntryTimeAllowed(r, cfg)
  }

  lemma RulesPassIff(plan: Plan, ctx: Option<Context>, r: ReviewAnswers, cfg: Config)
    ensures RuleFailure(plan, ctx, r, cfg).None? <==>
      && cfg.enableSim && !cfg.enableReal && ctx.Some? && RealtimeRulesHeld(plan, ctx.value, r, cfg)
    ensures RuleFailure(plan, ctx, r, cfg) != Some(Approved)
  {
  }

  /** What funding and validation make of a plan that is up for validation. */
  lemma ValidatedPasses(managed: Db, a: LoopAnswers, cfg: Config, p: nat)
    requires p < |managed.plans|
    ensures var plan, funded := managed.plans[p], FundedDb(managed, a, cfg).plans[p];
      var quote := a.validation.quote(plan.symbol);
      && funded.symbol == ValidatedPlan(funded, p, a.validation).symbol == plan.symbol && (UnderValidation(funded) <==> Eligible(plan))
      && (Eligible(plan) && quote.Some? ==>
            (RealtimeRulesHeld(ValidatedPlan(funded, p, a.validation), ContextOf(quote.value, a.validation), a.review(p), cfg) <==>
               && !a.validation.cooling(plan.symbol) && PricePasses(plan, quote.value, cfg.maxSpreadPct)
               && a.validation.marketCurrent && !a.validation.market.RiskOff? && EntryTimeAllowed(a.review(p), cfg)))
  {
    hide EntryTimeAllowed, PositionBudget;
  }

  /** The decision on a plan approves it exactly when every rule passes. */
  lemma ApprovedIffPasses(managed: Db, a: LoopAnswers, cfg: Config, p: nat)
    requires managed.gate.Some? && p < |managed.plans|
    ensures DecisionFor(ValidatedDb(FundedDb(managed, a, cfg), a), p, Setting(managed, a, cfg), cfg).Approved? <==> Passes(managed, a, cfg, p)
  {
    hide PortfolioOf, CapitalAllows, BoughtOn, RuleFailure, CapitalPasses, AllowsNewEntries, PricePasses, ContextOf, ValidatedPlan, Eligible, UnderValidation;
    var rs := Setting(managed, a, cfg);
    var db := ValidatedDb(FundedDb(managed, a, cfg), a);
    var plan := Budgeted(db.plans[p], rs, cfg);
    ValidatedPasses(managed, a, cfg, p);
    RulesPassIff(plan, ContextFor(rs, p), a.review(p), cfg);
    CapitalPassesIff(db, plan, a.account, cfg);
    GatePassesIff(db);
    BuysCounted(db.buyLog, a.review(p).now / 86400);
    var ctx, funded := ContextFor(rs, p), FundedDb(managed, a, cfg).plans[p];
    var quote := a.validation.quote(managed.plans[p].symbol);
    assert ctx == if Eligible(managed.plans[p]) && quote.Some? then Some(ContextOf(quote.value, a.validation)) else None;
    assert db.plans[p] == ValidatedPlan(funded, p, a.validation);
    assert plan.symbol == managed.plans[p].symbol;
    assert ctx.Some? ==> (RealtimeRulesHeld(plan, ctx.value, a.review(p), cfg) <==> RealtimeRulesHeld(db.plans[p], ctx.value, a.review(p), cfg));
    assert CapitalAllows(db, plan, rs.portfolio, cfg) <==> CapitalPasses(managed.positions, a.account, cfg.maxPositions) && SymbolIsFree(managed, managed.plans[p].symbol);
    assert AllowsNewEntries(db) <==> GatePasses(managed);
  }

  // --------------------------------------------------------- the whole review

  /** Plan `p` passes, and every other plan that does was validated later, or at the same time with a greater id. */
  ghost predicate PassesFirst(managed: Db, a: LoopAnswers, cfg: Config, p: nat) {
    && Passes(managed, a, cfg, p)
    && forall q: nat :: q != p && Passes(managed, a, cfg, q) ==>
         a.validation.at(p) < a.validation.at(q) || (a.validation.at(p) == a.validation.at(q) && p < q)
  }

  /** The loop stops at the first plan whose decision, taken on the tables as they were, is an approval. */
  lemma {:induction false} ReviewStopsAtFirst(db: Db, ids: seq<nat>, rs: ReviewSetting, cfg: Config)
    requires SortedPlans(db.plans, ids)
    ensures var approved := Review(db, ids, rs, cfg).1;
      match approved
      case None => forall k :: 0 <= k < |ids| ==> !DecisionFor(db, ids[k], rs, cfg).Approved?
      case Some(p) => exists m :: 0 <= m < |ids| && ids[m] == p && DecisionFor(db, p, rs, cfg).Approved?
                        && forall k :: 0 <= k < m ==> !DecisionFor(db, ids[k], rs, cfg).Approved?
    decreases ids
  {
    hide DecisionFor, PlanBefore;
    if ids != [] {
      var one, rest := ReviewOne(db, ids[0], rs, cfg), ids[1..];
      ReviewOneEffect(db, ids[0], rs, cfg);
      FirstIsNotLater(db.plans, ids);
      if !DecisionFor(db, ids[0], rs, cfg).Approved? {
        RestIsSorted(db.plans, one.plans, ids);
        ReviewStopsAtFirst(one, rest, rs, cfg);
        forall k | 0 < k < |ids| ensures DecisionFor(one, ids[k], rs, cfg) == DecisionFor(db, ids[k], rs, cfg) {
          assert ids[k] == rest[k - 1] && ids[k] in rest;
        }
        var approved := Review(db, ids, rs, cfg).1;
        if approved.Some? {
          var m :| 0 <= m < |rest| && rest[m] == approved.value && DecisionFor(one, rest[m], rs, cfg).Approved?
            && forall k :: 0 <= k < m ==> !DecisionFor(one, rest[k], rs, cfg).Approved?;
          assert ids[m + 1] == approved.value;
          forall k | 0 <= k < m + 1 ensures !DecisionFor(db, ids[k], rs, cfg).Approved? {
            assert k > 0 ==> ids[k] == rest[k - 1];
          }
        } else {
          forall k | 0 <= k < |ids| ensures !DecisionFor(db, ids[k], rs, cfg).Approved? {
            assert k > 0 ==> ids[k] == rest[k - 1];
          }
        }
      }
    }
  }

  lemma RestIsSorted(plans: seq<Plan>, later: seq<Plan>, ids: seq<nat>)
    requires ids != [] && SortedPlans(plans, ids) && SameIdentities(plans, later)
    ensures SortedPlans(later, ids[1..])
  {
    var rest := ids[1..];
    forall j, k | 0 <= j < k < |rest| ensures PlanBefore(later, rest[j], rest[k]) {
      assert PlanBefore(plans, ids[j + 1], ids[k + 1]);
    }
  }

  /** A plan that passes was validated just now, and triggered. */
  lemma PassingIsTriggered(managed: Db, a: LoopAnswers, cfg: Config, p: nat)
    requires Passes(managed, a, cfg, p)
    ensures var plan := ValidatedDb(FundedDb(managed, a, cfg), a).plans[p];
      plan.status.Triggered? && plan.lastValidated == Some(a.validation.at(p))
  {
    hide CapitalPasses, SymbolIsFree, DayPasses, GatePasses, PositionBudget;
  }

  /** The review approves a plan exactly when it is the first that passes. */
  lemma ReviewApprovesFirst(managed: Db, a: LoopAnswers, cfg: Config, p: nat)
    requires managed.gate.Some?
    ensures ReviewedDb(managed, a, cfg).1 == Some(p) <==> PassesFirst(managed, a, cfg, p)
  {
    hide DecisionFor, Passes, Review, TriggeredOf, PlanIds, ValidatedDb, FundedDb, Setting;
    var db, rs := ValidatedDb(FundedDb(managed, a, cfg), a), Setting(managed, a, cfg);
    var ids := TriggeredOf(db.plans, PlanIds(db.plans));
    SamePlans(managed, a, cfg);
    AllIds(db.plans);
    TriggeredIsSorted(db.plans, PlanIds(db.plans));
    ReviewStopsAtFirst(db, ids, rs, cfg);
    forall q: nat ensures q < |db.plans| ==> (DecisionFor(db, q, rs, cfg).Approved? <==> Passes(managed, a, cfg, q))
      ensures Passes(managed, a, cfg, q) ==> q < |db.plans| && q in ids && db.plans[q].lastValidated == Some(a.validation.at(q))
    {
      if q < |db.plans| {
        ApprovedIffPasses(managed, a, cfg, q);
      }
      PassesARow(managed, a, cfg, q);
      if Passes(managed, a, cfg, q) {
        PassingIsTriggered(managed, a, cfg, q);
      }
    }
    FirstApproved(db, ids, rs, cfg, managed, a, p);
  }

  lemma SamePlans(managed: Db, a: LoopAnswers, cfg: Config)
    ensures |ValidatedDb(FundedDb(managed, a, cfg), a).plans| == |managed.plans|
  {
  }

  lemma AllIds(plans: seq<Plan>)
    ensures SortedPlans(plans, PlanIds(plans)) && forall q: nat :: q in PlanIds(plans) <==> q < |plans|
  {
    IdsAreSorted(plans, |plans|);
  }

  lemma PassesARow(managed: Db, a: LoopAnswers, cfg: Config, q: nat)
    ensures Passes(managed, a, cfg, q) ==> q < |managed.plans|
  {
  }

  lemma FirstApproved(db: Db, ids: seq<nat>, rs: ReviewSetting, cfg: Config, managed: Db, a: LoopAnswers, p: nat)
    requires SortedPlans(db.plans, ids)
    requires forall q: nat :: q < |db.plans| ==> (DecisionFor(db, q, rs, cfg).Approved? <==> Passes(managed, a, cfg, q))
    requires forall q: nat :: Passes(managed, a, cfg, q) ==> q < |db.plans| && q in ids && db.plans[q].lastValidated == Some(a.validation.at(q))
    ensures Review(db, ids, rs, cfg).1 == Some(p) <==> PassesFirst(managed, a, cfg, p)
  {
    hide DecisionFor, Passes, Review;
    ReviewStopsAtFirst(db, ids, rs, cfg);
    var approved := Review(db, ids, rs, cfg).1;
    if approved.Some? {
      var r := approved.value;
      var m :| 0 <= m < |ids| && ids[m] == r && DecisionFor(db, r, rs, cfg).Approved?
        && forall k :: 0 <= k < m ==> !DecisionFor(db, ids[k], rs, cfg).Approved?;
      forall q: nat | q != r && Passes(managed, a, cfg, q)
        ensures a.validation.at(r) < a.validation.at(q) || (a.validation.at(r) == a.validation.at(q) && r < q)
      {
        var k :| 0 <= k < |ids| && ids[k] == q;
        assert k > m;
        assert PlanBefore(db.plans, ids[m], ids[k]);
      }
    }
  }

  // -------------------------------------------------------- the whole iteration

  /** The iteration gets as far as its review. */
  predicate Reviews(db: Db, a: LoopAnswers, cfg: Config) {
    && !cfg.enableReal && SyncOrders(db, a.orders, cfg.entryTimeout).Got?
    && ((exists k :: 0 <= k < |ReconciledDb(db, a, cfg).positions| && ReconciledDb(db, a, cfg).positions[k].status.Open?) ==> a.quotesOk)
    && ((exists k :: 0 <= k < |ManagedDb(db, a, cfg).plans| && Eligible(ManagedDb(db, a, cfg).plans[k])) ==> a.validation.snapshotOk)
  }

  /** It gets that far, and plan `p` is the first that passes every rule. */
  ghost predicate Approves(db: Db, a: LoopAnswers, cfg: Config, p: nat) {
    Reviews(db, a, cfg) && PassesFirst(ManagedDb(db, a, cfg), a, cfg, p)
  }

  /** An iteration approves a plan exactly when it gets that far and the plan is the first that passes every rule. */
  lemma ApprovesIffPassesFirst(db: Db, a: LoopAnswers, cfg: Config, p: nat)
    ensures Iterate(db, a, cfg).approved == Some(p) <==> Approves(db, a, cfg, p)
  {
    hide SyncOrders, ReviewedDb, ExecuteApproved, PassesFirst, ManagedDb, ReconciledDb, PositionBudget;
    if !cfg.enableReal && SyncOrders(db, a.orders, cfg.entryTimeout).Got? {
      var managed := ManagedDb(db, a, cfg);
      GateIsSaved(db, a, cfg);
      ReviewApprovesFirst(managed, a, cfg, p);
      FundingKeepsEligible(managed, a, cfg);
    }
  }

  lemma GateIsSaved(db: Db, a: LoopAnswers, cfg: Config)
    requires SyncOrders(db, a.orders, cfg.entryTimeout).Got?
    ensures ManagedDb(db, a, cfg).gate.Some? && ManagedDb(db, a, cfg).gate == ReconciledDb(db, a, cfg).gate
    ensures ManagedDb(db, a, cfg).issues == ReconciledDb(db, a, cfg).issues
  {
    hide Reconcile, SyncOrders;
  }

  lemma FundingKeepsEligible(managed: Db, a: LoopAnswers, cfg: Config)
    ensures AnyUnderValidation(FundedDb(managed, a, cfg).plans) <==> exists k :: 0 <= k < |managed.plans| && Eligible(managed.plans[k])
  {
    hide PositionBudget, PortfolioOf;
    var funded := FundedDb(managed, a, cfg).plans;
    assert forall k :: 0 <= k < |funded| ==> (UnderValidation(funded[k]) <==> Eligible(managed.plans[k]));
  }

  // -------------------------------------------------------------- the budget

  lemma {:induction false} ExecutionKeepsBudgets(db: Db, ids: seq<nat>, a: ExecutionAnswers, cfg: Config)
    requires forall k :: 0 <= k < |ids| ==> ids[k] < |db.plans|
    ensures forall k :: 0 <= k < |db.plans| ==> Execute(db, ids, a, cfg).db.plans[k].maxNewPositionValue == db.plans[k].maxNewPositionValue
    decreases ids
  {
    hide EntrySize, HasWorkingOrder;
    if ids != [] {
      var one := ExecuteOne(db, ids[0], a, cfg);
      if one.accepted.None? {
        ExecutionKeepsBudgets(one.db, ids[1..], a, cfg);
      }
    }
  }

  /** The approved plan leaves the iteration with the account's equity times the symbol share as its budget. */
  lemma BudgetOfApproved(db: Db, a: LoopAnswers, cfg: Config, p: nat)
    requires Iterate(db, a, cfg).approved == Some(p)
    ensures a.account.account.Got? && p < |Iterate(db, a, cfg).db.plans|
    ensures var budget := Iterate(db, a, cfg).db.plans[p].maxNewPositionValue;
      budget.Some? && budget.value == a.account.account.rows.equity * cfg.maxSymbolPct
  {
    ApprovesIffPassesFirst(db, a, cfg, p);
    hide SyncOrders, ReviewedDb, ManagedDb, ReconciledDb, Execute, PlanIds, ExecutableOf;
    var managed := ManagedDb(db, a, cfg);
    ApprovedBudget(managed, a, cfg, p);
    var reviewed := ReviewedDb(managed, a, cfg).0;
    ExecutionKeepsBudgets(reviewed, ExecutableOf(reviewed.plans, PlanIds(reviewed.plans)), a.execution, cfg);
  }

  lemma ApprovedBudget(managed: Db, a: LoopAnswers, cfg: Config, p: nat)
    requires ReviewedDb(managed, a, cfg).1 == Some(p) && a.account.account.Got? && a.account.positions.Got? && a.account.orders.Got?
    ensures p < |ReviewedDb(managed, a, cfg).0.plans|
    ensures var budget := ReviewedDb(managed, a, cfg).0.plans[p].maxNewPositionValue;
      budget.Some? && budget.value == a.account.account.rows.equity * cfg.maxSymbolPct
  {
    hide DecisionFor, Review, TriggeredOf, PlanIds, ValidatedDb, FundedDb;
    var db, rs := ValidatedDb(FundedDb(managed, a, cfg), a), Setting(managed, a, cfg);
    ExecutionListAfterReview(db, rs, cfg);
    assert rs.portfolio.equity == a.account.account.rows.equity;
    assert ReviewedDb(managed, a, cfg).0.plans[p] == Reviewed(Budgeted(db.plans[p], rs, cfg), Approved);
  }
}
