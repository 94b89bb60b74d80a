/**
 From a validated plan to a BUY order: portfolio_manager.py, realtime_execution_validator.py,
 rules_approval.py and sim_order_executor.py (all in app/services).
 */
module Approval {
  import opened Common
  import opened Ledger
  import opened PositionSync
  import opened PositionManager
  import opened Reconciler

  // ------------------------------------------------------------- portfolio

  datatype Account = Account(cash: real, equity: real)

  datatype AccountAnswers = AccountAnswers(
    account: Read<Account>,
    positions: Read<seq<RemotePosition>>,
    orders: Read<seq<RemoteOrder>>)

  datatype CapitalStatus = CapitalAvailable | CapitalFull | CapitalLimited | CapitalUnknown

  datatype Portfolio = Portfolio(status: CapitalStatus, cash: real, equity: real, openPositions: nat, synced: bool)

  function CountHeld(rows: seq<RemotePosition>): nat {
    if rows == [] then 0 else CountHeld(rows[..|rows| - 1]) + if rows[|rows| - 1].qty > 0 then 1 else 0
  }

  function CountOpenPositions(ps: seq<Position>): nat {
    if ps == [] then 0 else CountOpenPositions(ps[..|ps| - 1]) + if ps[|ps| - 1].status.Open? then 1 else 0
  }

  function PortfolioOf(ps: seq<Position>, a: AccountAnswers, cfg: Config): Portfolio {
    if a.account.ReadError? || a.positions.ReadError? || a.orders.ReadError? then Portfolio(CapitalUnknown, 0.0, 0.0, 0, false)
    else
      var held := MaxInt(CountOpenPositions(ps), CountHeld(a.positions.rows));
      var acc := a.account.rows;
      var status :=
        if held >= cfg.maxPositions then CapitalFull
        else if acc.equity <= 0.0 then CapitalUnknown
        else if acc.cash <= 0.0 then CapitalLimited
        else CapitalAvailable;
      Portfolio(status, acc.cash, acc.equity, held, true)
  }

  predicate TakesPortfolio(p: Plan) {
    (p.priority.S? || p.priority.A?)
    && (p.status.Active? || p.status.Planned? || p.status.Armed? || p.status.Triggered? || p.status.Waitlist?
        || p.status.MissedByCapital? || p.status.NoChase? || p.status.WaitPullback?)
  }

  /** The largest position value a plan may take. */
  function PositionBudget(st: Portfolio, cfg: Config): real {
    if st.equity > 0.0 then st.equity * cfg.maxSymbolPct else 0.0
  }

  function WithPortfolio(p: Plan, st: Portfolio, cfg: Config): Plan {
    if TakesPortfolio(p) then p.(maxNewPositionValue := Some(PositionBudget(st, cfg))) else p
  }

  function ApplyPortfolio(plans: seq<Plan>, st: Portfolio, cfg: Config): (r: seq<Plan>)
    ensures |r| == |plans|
  {
    seq(|plans|, i requires 0 <= i < |plans| => WithPortfolio(plans[i], st, cfg))
  }

  // ------------------------------------------------------------ validation

  datatype MarketState = RiskOn | NeutralPositive | NeutralNegative | RiskOff | MarketUnknown

  datatype PlanQuote = PlanQuote(current: real, bid: real, ask: real, volume: real, shortTrend: Option<bool>)

  datatype ValidationAnswers = ValidationAnswers(
    snapshotOk: bool,
    quote: Symbol -> Option<PlanQuote>,
    market: MarketState,
    marketCurrent: bool,
    cooling: Symbol -> bool,
    at: nat -> Time)

  /** The realtime context of one plan. */
  datatype Context = Context(
    current: real,
    spreadAvailable: bool,
    spreadPct: real,
    volumeOk: bool,
    shortTrend: Option<bool>,
    marketAvailable: bool,
    market: MarketState)

  predicate UnderValidation(p: Plan) {
    (p.priority.S? || p.priority.A?) && p.direction.Long?
    && (p.status.Active? || p.status.Armed? || p.status.WaitPullback? || p.status.Planned? || p.status.Waitlist?
        || p.status.MissedByCapital? || p.status.NoChase?)
  }

  function ContextOf(q: PlanQuote, a: ValidationAnswers): Context {
    var spread := q.current != 0.0 && q.bid > 0.0 && q.ask >= q.bid;
    Context(q.current, spread, if spread then (q.ask - q.bid) / q.current else 0.0, q.volume > 0.0, q.shortTrend, a.marketCurrent, a.market)
  }

  function PriceStatus(p: Plan, current: real): PlanStatus {
    var breakout := OrElse(p.breakout, 0.0);
    if current <= p.stopPrice then Invalidated
    else if OrElse(p.noChaseAbove, 0.0) != 0.0 && current > p.noChaseAbove.value then NoChase
    else if breakout != 0.0 && current >= breakout then Triggered
    else if breakout != 0.0 && current >= breakout * 0.995 then Armed
    else Active
  }

  /** One plan after validation. */
  function ValidatedPlan(p: Plan, i: nat, a: ValidationAnswers): Plan {
    if !UnderValidation(p) then p
    else
      var q := a.quote(p.symbol);
      if q.None? then p.(status := Paused)
      else
        p.(currentPrice := Some(q.value.current), lastValidated := Some(a.at(i)),
           status := if a.cooling(p.symbol) then Paused else PriceStatus(p, q.value.current))
  }

  function Validate(plans: seq<Plan>, a: ValidationAnswers): (r: seq<Plan>)
    ensures |r| == |plans|
  {
    seq(|plans|, i requires 0 <= i < |plans| => ValidatedPlan(plans[i], i, a))
  }

  /** `contexts`: only the plans validated in this iteration have one. */
  function Contexts(plans: seq<Plan>, a: ValidationAnswers): map<nat, Context> {
    map i: nat | i < |plans| && UnderValidation(plans[i]) && a.quote(plans[i].symbol).Some? :: ContextOf(a.quote(plans[i].symbol).value, a)
  }

  // -------------------------------------------------------- the order of plans

  /** `last_validated_at asc`: a missing time sorts first. */
  predicate TimeLess(a: Option<Time>, b: Option<Time>) {
    b.Some? && (a.None? || a.value < b.value)
  }

  predicate PlanBefore(plans: seq<Plan>, i: nat, j: nat)
    requires i < |plans| && j < |plans|
  {
    TimeLess(plans[i].lastValidated, plans[j].lastValidated)
    || (plans[i].lastValidated == plans[j].lastValidated && i < j)
  }

  function InsertId(plans: seq<Plan>, ids: seq<nat>, i: nat): (r: seq<nat>)
    requires i < |plans| && forall k :: 0 <= k < |ids| ==> ids[k] < i
    ensures |r| == |ids| + 1 && forall k :: 0 <= k < |r| ==> r[k] == i || r[k] in ids
  {
    if ids == [] || !TimeLess(plans[i].lastValidated, plans[ids[|ids| - 1]].lastValidated) then ids + [i]
    else InsertId(plans, ids[..|ids| - 1], i) + [ids[|ids| - 1]]
  }

  /** The ids of the first `n` plans by validation time, then id. */
  function IdsUpTo(plans: seq<Plan>, n: nat): (r: seq<nat>)
    requires n <= |plans|
    ensures forall k :: 0 <= k < |r| ==> r[k] < n
  {
    if n == 0 then [] else InsertId(plans, IdsUpTo(plans, n - 1), n - 1)
  }

  function PlanIds(plans: seq<Plan>): (r: seq<nat>)
    ensures forall k :: 0 <= k < |r| ==> r[k] < |plans|
  {
    IdsUpTo(plans, |plans|)
  }

  predicate Executable(p: Plan) {
    p.status.Triggered? && p.approval.Approved? && p.direction.Long?
  }

  function TriggeredOf(plans: seq<Plan>, ids: seq<nat>): (r: seq<nat>)
    requires forall k :: 0 <= k < |ids| ==> ids[k] < |plans|
    ensures forall i :: i in r <==> i in ids && plans[i].status.Triggered?
    ensures forall k :: 0 <= k < |r| ==> r[k] < |plans|
  {
    if ids == [] then []
    else TriggeredOf(plans, ids[..|ids| - 1]) + if plans[ids[|ids| - 1]].status.Triggered? then [ids[|ids| - 1]] else []
  }

  function ExecutableOf(plans: seq<Plan>, ids: seq<nat>): (r: seq<nat>)
    requires forall k :: 0 <= k < |ids| ==> ids[k] < |plans|
    ensures forall i :: i in r <==> i in ids && Executable(plans[i])
    ensures forall k :: 0 <= k < |r| ==> r[k] < |plans|
  {
    if ids == [] then []
    else ExecutableOf(plans, ids[..|ids| - 1]) + if Executable(plans[ids[|ids| - 1]]) then [ids[|ids| - 1]] else []
  }

  // -------------------------------------------------------------- approval

  /** The clocks and the loss rule one review reads. */
  datatype ReviewAnswers = ReviewAnswers(now: Time, weekday: int, minute: int, lossBlock: bool)

  function BoughtOn(log: seq<Time>, day: int): nat {
    if log == [] then 0 else BoughtOn(log[..|log| - 1], day) + if log[|log| - 1] / DAY == day then 1 else 0
  }

  predicate EntryTimeAllowed(a: ReviewAnswers, cfg: Config) {
    a.weekday < 5 && a.minute >= 9 * 60 + 30 + cfg.noEntryAfterOpen && a.minute < 16 * 60 - cfg.noEntryBeforeClose
  }

  predicate HasWorkingOrder(os: seq<Order>, s: Symbol) {
    exists i :: 0 <= i < |os| && os[i].symbol == s && Working(os[i].status)
  }

  /** The first realtime rule a plan fails. */
  function RuleFailure(p: Plan, ctx: Option<Context>, a: ReviewAnswers, cfg: Config): Option<Decision> {
    var current := if ctx.Some? then ctx.value.current else 0.0;
    if !cfg.enableSim || cfg.enableReal then Some(RejectedByRisk)
    else if !(p.priority.S? || p.priority.A?) || !p.direction.Long? then Some(RejectedByRisk)
    else if !p.status.Triggered? then Some(RejectedByPrice)
    else if current < OrElse(p.breakout, 0.0) || current > OrElse(p.noChaseAbove, 0.0) then Some(RejectedByPrice)
    else if ctx.None? || !ctx.value.spreadAvailable || ctx.value.spreadPct > cfg.maxSpreadPct then Some(RejectedByData)
    else if !ctx.value.volumeOk || ctx.value.shortTrend.None? then Some(RejectedByData)
    else if !ctx.value.shortTrend.value then Some(RejectedByPrice)
    else if !ctx.value.marketAvailable then Some(RejectedByData)
    else if ctx.value.market.RiskOff? then Some(RejectedByMarket)
    else if !EntryTimeAllowed(a, cfg) then Some(RejectedByRisk)
    else None
  }

  predicate CapitalAllows(db: Db, p: Plan, st: Portfolio, cfg: Config) {
    st.status.CapitalAvailable? && st.synced && st.equity > 0.0
    && FindOpen(db.positions, p.symbol).None? && !HasWorkingOrder(db.orders, p.symbol)
    && st.openPositions < cfg.maxPositions
  }

  /** `rules_approve_trade_plan`. */
  function Decide(db: Db, p: Plan, ctx: Option<Context>, st: Portfolio, a: ReviewAnswers, cfg: Config): Decision {
    if BoughtOn(db.buyLog, a.now / DAY) >= cfg.maxDailyTrades || a.lossBlock then RejectedByRisk
    else
      var failure := RuleFailure(p, ctx, a, cfg);
      if failure.Some? then failure.value
      else if !CapitalAllows(db, p, st, cfg) then RejectedByCapital
      else if !AllowsNewEntries(db) then RejectedByReconciliation
      else Approved
  }

  function Reviewed(p: Plan, d: Decision): Plan {
    if d.RejectedByCapital? then p.(status := if p.status.Triggered? then MissedByCapital else Waitlist) else p.(approval := d)
  }

  /** The answers the approval loop works with. */
  datatype ReviewSetting = ReviewSetting(contexts: map<nat, Context>, portfolio: Portfolio, answers: nat -> ReviewAnswers)

  function ContextFor(rs: ReviewSetting, i: nat): Option<Context> {
    if i in rs.contexts then Some(rs.contexts[i]) else None
  }

  function Budgeted(p: Plan, rs: ReviewSetting, cfg: Config): Plan {
    p.(maxNewPositionValue := Some(rs.portfolio.equity * cfg.maxSymbolPct))
  }

  function DecisionFor(db: Db, i: nat, rs: ReviewSetting, cfg: Config): Decision
    requires i < |db.plans|
  {
    Decide(db, Budgeted(db.plans[i], rs, cfg), ContextFor(rs, i), rs.portfolio, rs.answers(i), cfg)
  }

  function ReviewOne(db: Db, i: nat, rs: ReviewSetting, cfg: Config): (r: Db)
    requires i < |db.plans|
    ensures |r.plans| == |db.plans| && r == db.(plans := r.plans)
  {
    db.(plans := db.plans[i := Reviewed(Budgeted(db.plans[i], rs, cfg), DecisionFor(db, i, rs, cfg))])
  }

  /** The approval loop: review in order, stop at the first approval. */
  function Review(db: Db, ids: seq<nat>, rs: ReviewSetting, cfg: Config): (r: (Db, Option<nat>))
    requires forall k :: 0 <= k < |ids| ==> ids[k] < |db.plans|
    ensures |r.0.plans| == |db.plans| && r.0 == db.(plans := r.0.plans)
    decreases ids
  {
    if ids == [] then (db, None)
    else if DecisionFor(db, ids[0], rs, cfg).Approved? then (ReviewOne(db, ids[0], rs, cfg), Some(ids[0]))
    else Review(ReviewOne(db, ids[0], rs, cfg), ids[1..], rs, cfg)
  }

  // ------------------------------------------------------------- execution

  datatype ExecutionAnswers = ExecutionAnswers(place: nat -> PlaceAnswer, at: nat -> Time)

  /** The quantity of an entry: the suggestion, or the risk budget over the risk per share. */
  function EntrySize(p: Plan, cfg: Config): int {
    if p.suggestedShares.Some? && p.suggestedShares.value > 0 then p.suggestedShares.value
    else
      var risk := OrElse(p.breakout, 0.0) - p.stopPrice;
      var equity := if cfg.maxSymbolPct > 0.0 then OrElse(p.maxNewPositionValue, 0.0) / cfg.maxSymbolPct else 0.0;
      if risk > 0.0 then (cfg.riskPct * equity / risk).Floor else 0
  }

  function EntryOrder(p: Plan, i: nat, a: ExecutionAnswers, cfg: Config): Order
    requires EntrySize(p, cfg) > 0
  {
    var current := OrElse(p.currentPrice, OrElse(p.breakout, 0.0));
    var accepted := a.place(i).Accepted?;
    Order(Some(i), p.symbol, Buy, EntrySize(p, cfg), MinReal(current, OrElse(p.noChaseAbove, current)), current, a.at(i),
          if accepted then a.place(i).id else "", if accepted then Submitted else Failed,
          if accepted then EntryNote else OtherNote, 0, None, 0)
  }

  /** What the execution loop did: the tables, the plans a BUY was attempted for, the accepted one. */
  datatype Execution = Execution(db: Db, attempts: seq<nat>, accepted: Option<nat>)

  function ExecuteOne(db: Db, i: nat, a: ExecutionAnswers, cfg: Config): (r: Execution)
    requires i < |db.plans|
    ensures |r.db.plans| == |db.plans| && r.db.positions == db.positions && r.db.issues == db.issues
    ensures |db.orders| <= |r.db.orders| && r.db.orders[..|db.orders|] == db.orders
  {
    var p := db.plans[i];
    if HasWorkingOrder(db.orders, p.symbol) then Execution(db, [], None)
    else if EntrySize(p, cfg) <= 0 then Execution(db.(plans := db.plans[i := p.(status := Blocked)]), [], None)
    else
      var orders := db.orders + [EntryOrder(p, i, a, cfg)];
      if a.place(i).Accepted? then
        Execution(db.(orders := orders, buyLog := db.buyLog + [a.at(i)],
                      plans := db.plans[i := p.(status := OrderSubmitted, simulatedOrderId := Some(|db.orders|))]), [i], Some(i))
      else
        Execution(db.(orders := orders, plans := db.plans[i := p.(status := Blocked)]), [i], None)
  }

  /** The execution loop: stop at the first accepted BUY. */
  function Execute(db: Db, ids: seq<nat>, a: ExecutionAnswers, cfg: Config): (r: Execution)
    requires forall k :: 0 <= k < |ids| ==> ids[k] < |db.plans|
    ensures |r.db.plans| == |db.plans| && r.db.positions == db.positions && r.db.issues == db.issues
    ensures |db.orders| <= |r.db.orders| && r.db.orders[..|db.orders|] == db.orders
    decreases ids
  {
    if ids == [] then Execution(db, [], None)
    else
      var one := ExecuteOne(db, ids[0], a, cfg);
      if one.accepted.Some? then one
      else
        var rest := Execute(one.db, ids[1..], a, cfg);
        Execution(rest.db, one.attempts + rest.attempts, rest.accepted)
  }

  function ExecuteApproved(db: Db, a: ExecutionAnswers, cfg: Config): Execution {
    if !cfg.enableSim then Execution(db, [], None) else Execute(db, ExecutableOf(db.plans, PlanIds(db.plans)), a, cfg)
  }

  // ------------------------------------------------------- the method form

  /** `get_portfolio_state`: the state, and the position value it leaves on the plans. */
  method ReadPortfolio(store: Store, a: AccountAnswers, cfg: Config) returns (st: Portfolio)
    modifies store`plans
    ensures st == PortfolioOf(store.positions, a, cfg)
    ensures store.plans == ApplyPortfolio(old(store.plans), st, cfg)
  {
    st := PortfolioOf(store.positions, a, cfg);
    var before := store.plans;
    for i := 0 to |before|
      invariant |store.plans| == |before|
      invariant forall j :: 0 <= j < i ==> store.plans[j] == WithPortfolio(before[j], st, cfg)
      invariant forall j :: i <= j < |before| ==> store.plans[j] == before[j]
    {
      if TakesPortfolio(before[i]) {
        store.plans := store.plans[i := before[i].(maxNewPositionValue := Some(PositionBudget(st, cfg)))];
      }
    }
  }

  /** `validate_active_trade_plans`: the loop over the plans, and the contexts it hands on. */
  method ValidatePlans(store: Store, a: ValidationAnswers) returns (contexts: map<nat, Context>)
    modifies store`plans
    ensures store.plans == Validate(old(store.plans), a)
    ensures contexts == Contexts(old(store.plans), a)
  {
    var before := store.plans;
    contexts := map[];
    for i := 0 to |before|
      invariant |store.plans| == |before|
      invariant forall j :: 0 <= j < i ==> store.plans[j] == ValidatedPlan(before[j], j, a)
      invariant forall j :: i <= j < |before| ==> store.plans[j] == before[j]
      invariant forall j: nat :: j in contexts <==> j < i && UnderValidation(before[j]) && a.quote(before[j].symbol).Some?
      invariant forall j :: j in contexts ==> contexts[j] == ContextOf(a.quote(before[j].symbol).value, a)
    {
      var plan := before[i];
      if UnderValidation(plan) {
        var quote := a.quote(plan.symbol);
        if quote.None? {
          plan := plan.(status := Paused);
        } else {
          contexts := contexts[i := ContextOf(quote.value, a)];
          plan := plan.(currentPrice := Some(quote.value.current), lastValidated := Some(a.at(i)));
          plan := plan.(status := PriceStatus(plan, quote.value.current));
          if a.cooling(plan.symbol) {
            plan := plan.(status := Paused);
          }
        }
        store.plans := store.plans[i := plan];
      }
    }
  }

  /** The approval loop of `run_sim_loop`: review in order and break at the first approval. */
  method ApprovePlans(store: Store, rs: ReviewSetting, cfg: Config) returns (approved: Option<nat>)
    modifies store`plans
    ensures var db := old(store.Snapshot());
      (store.Snapshot(), approved) == Review(db, TriggeredOf(db.plans, PlanIds(db.plans)), rs, cfg)
  {
    var ids := TriggeredOf(store.plans, PlanIds(store.plans));
    ghost var all := Review(store.Snapshot(), ids, rs, cfg);
    approved := None;
    var n := 0;
    while n < |ids|
      invariant n <= |ids| && |store.plans| == |old(store.plans)| && approved == None
      invariant Review(store.Snapshot(), ids[n..], rs, cfg) == all
    {
      var i := ids[n];
      var plan := Budgeted(store.plans[i], rs, cfg);
      var db := Db(store.orders, store.positions, store.plans, store.deals, store.issues, store.gate, store.buyLog, store.fillLog);
      var decision := Decide(db, plan, ContextFor(rs, i), rs.portfolio, rs.answers(i), cfg);
      store.plans := store.plans[i := Reviewed(plan, decision)];
      assert ids[n..][0] == i && ids[n..][1..] == ids[n + 1..];
      if decision.Approved? {
        approved := Some(i);
        return;
      }
      n := n + 1;
    }
  }

  /** One turn of `execute_approved_sim_orders`. */
  method ExecutePlan(store: Store, i: nat, a: ExecutionAnswers, cfg: Config) returns (attempts: seq<nat>, accepted: Option<nat>)
    requires i < |store.plans|
    modifies store`orders, store`plans, store`buyLog
    ensures Execution(store.Snapshot(), attempts, accepted) == ExecuteOne(old(store.Snapshot()), i, a, cfg)
  {
    var plan := store.plans[i];
    if HasWorkingOrder(store.orders, plan.symbol) {
      return [], None;
    }
    if EntrySize(plan, cfg) <= 0 {
      store.plans := store.plans[i := plan.(status := Blocked)];
      return [], None;
    }
    var orderId := |store.orders|;
    store.orders := store.orders + [EntryOrder(plan, i, a, cfg)];
    match a.place(i)
    case Accepted(_) =>
      store.plans := store.plans[i := plan.(status := OrderSubmitted, simulatedOrderId := Some(orderId))];
      store.buyLog := store.buyLog + [a.at(i)];
      return [i], Some(i);
    case Refused =>
      store.plans := store.plans[i := plan.(status := Blocked)];
      return [i], None;
  }

  /** `execute_approved_sim_orders`: the loop, stopped by the first accepted BUY. */
  method ExecuteApprovedOrders(store: Store, a: ExecutionAnswers, cfg: Config) returns (attempts: seq<nat>, accepted: Option<nat>)
    modifies store`orders, store`plans, store`buyLog
    ensures Execution(store.Snapshot(), attempts, accepted) == ExecuteApproved(old(store.Snapshot()), a, cfg)
  {
    hide ExecuteOne, ExecutableOf, PlanIds;
    attempts, accepted := [], None;
    if !cfg.enableSim {
      return;
    }
    var ids := ExecutableOf(store.plans, PlanIds(store.plans));
    ghost var all := Execute(store.Snapshot(), ids, a, cfg);
    var n := 0;
    while n < |ids|
      invariant n <= |ids| && |store.plans| == |old(store.plans)| && accepted == None
      invariant var rest := Execute(store.Snapshot(), ids[n..], a, cfg);
        all == Execution(rest.db, attempts + rest.attempts, rest.accepted)
    {
      ghost var db, so_far := store.Snapshot(), attempts;
      assert ids[n..][0] == ids[n] && ids[n..][1..] == ids[n + 1..];
      var more;
      more, accepted := ExecutePlan(store, ids[n], a, cfg);
      attempts := attempts + more;
      if accepted.Some? {
        return;
      }
      ghost var rest := Execute(store.Snapshot(), ids[n + 1..], a, cfg);
      assert so_far + (more + rest.attempts) == attempts + rest.attempts;
      n := n + 1;
    }
    assert attempts + [] == attempts;
  }
}
