/**
 The local ledgers of the simulated-trading loop and the answers of the remote account.

 A table is a sequence whose index is the row id: the loop never deletes a row.  Symbols are
 canonical keys, prices are reals and times are integer seconds.
 */
module Ledger {
  import opened Common

  type Symbol = string
  type Time = int

  // ---------------------------------------------------------------- orders

  datatype Side = Buy | Sell

  datatype OrderStatus =
    | Submitted
    | PartiallyFilled
    | UnknownRemoteMissing
    | SellWaiting            // SELL_WAITING_RECONCILIATION
    | Filled
    | FilledInferred
    | Cancelled
    | Failed

  /** The statuses order sync and reconciliation still look at. */
  predicate Unresolved(s: OrderStatus) {
    s.Submitted? || s.PartiallyFilled? || s.UnknownRemoteMissing? || s.SellWaiting?
  }

  /** The statuses that count as a working order at the broker. */
  predicate Working(s: OrderStatus) {
    s.Submitted? || s.PartiallyFilled?
  }

  datatype ExitKind = HardStop | OrphanTakeProfit | Target2OrTrailing | ForcedIntraday | Target1Partial

  /** The reason text of an order, as far as the code ever branches on it. */
  datatype OrderNote =
    | EntryNote
    | ExitNote(kind: ExitKind, waiting: bool)  // `waiting`: the reconciliation note was appended
    | OtherNote

  datatype Order = Order(
    planId: Option<nat>,
    symbol: Symbol,
    side: Side,
    qty: nat,
    limitPrice: real,
    submittedPrice: real,
    submittedAt: Time,
    futuId: string,
    status: OrderStatus,
    note: OrderNote,
    dealtQty: nat,
    dealtAvg: Option<real>,
    retryCount: nat)

  /** `dealt_qty or qty`. */
  function DealtOrOrdered(o: Order): nat {
    if o.dealtQty != 0 then o.dealtQty else o.qty
  }

  datatype Deal = Deal(orderId: nat, qty: nat, dealId: string)

  // ------------------------------------------------------------- positions

  datatype PositionStatus = Open | Closed | ClosedUnverified

  datatype Source = LocalStrategy | FutuDetected | LocalAndFutuConfirmed

  datatype ExitMark = NoExit | ExitBy(kind: ExitKind) | Vanished

  datatype Position = Position(
    symbol: Symbol,
    status: PositionStatus,
    entryPrice: real,
    stopPrice: real,
    trailingStop: Option<real>,
    shares: int,
    availableShares: int,
    source: Source,
    isOrphan: bool,
    planId: Option<nat>,
    entryOrderId: Option<nat>,
    exitOrderId: Option<nat>,
    target1: Option<real>,
    target2: Option<real>,
    partialExitDone: bool,
    takePct: Option<real>,
    stopPct: Option<real>,
    currentPrice: Option<real>,
    currentR: real,
    maxR: real,
    minR: real,
    lastSynced: Option<Time>,
    exitMark: ExitMark,
    exitPrice: Option<real>,
    realizedPnl: Option<real>,
    closeVerified: bool)

  /** A position is linked once it names the plan or the order that opened it. */
  predicate Linked(p: Position) {
    p.planId.Some? || p.entryOrderId.Some?
  }

  // ----------------------------------------------------------------- plans

  datatype Priority = S | A | B | C

  datatype PlanStatus =
    | Active | Armed | Planned | WaitPullback | Waitlist | MissedByCapital | NoChase
    | Triggered | OrderSubmitted | InPosition | CoolingDown | Blocked | Invalidated | Paused

  datatype Decision =
    | NotReviewed
    | RejectedByRisk | RejectedByPrice | RejectedByData | RejectedByMarket
    | RejectedByCapital | RejectedByReconciliation
    | Approved

  datatype Plan = Plan(
    symbol: Symbol,
    direction: Direction,
    priority: Priority,
    status: PlanStatus,
    breakout: Option<real>,
    noChaseAbove: Option<real>,
    stopPrice: real,
    target1: real,
    target2: real,
    currentPrice: Option<real>,
    lastValidated: Option<Time>,
    approval: Decision,
    suggestedShares: Option<int>,
    maxNewPositionValue: Option<real>,
    simulatedOrderId: Option<nat>)

  // ---------------------------------------------------------------- issues

  datatype IssueType =
    | RemotePositionWithoutLocal
    | LocalPositionMissingRemote
    | RemoteOrderWithoutLocal
    | LocalOrderMissingRemote
    | PositionQtyMismatch
    | PositionCostMismatch
    | SellOrderStuck
    | BuyOrderInferredFilled
    | CloseUnverified
    | OrderStatusUnknown
    | AccountSyncFailed
    | ReconciliationRunFailed
    | Unmanaged(name: string)

  predicate Managed(t: IssueType) {
    !t.Unmanaged?
  }

  datatype Severity = Info | Warn | High | Critical

  predicate Blocking(s: Severity) {
    s.High? || s.Critical?
  }

  datatype IssueKey = IssueKey(
    kind: IssueType,
    symbol: Symbol,
    remoteOrderId: string,
    orderId: Option<nat>,
    positionId: Option<nat>,
    planId: Option<nat>)

  datatype Issue = Issue(
    key: IssueKey,
    severity: Severity,
    open: bool,
    firstSeen: Time,
    lastSeen: Time,
    resolvedAt: Option<Time>)

  datatype GateMode = Normal | Degraded | Protective | SyncFailed

  datatype Gate = Gate(
    allow: bool,
    severity: Severity,
    mode: GateMode,
    openIssues: nat,
    highIssues: nat,
    criticalIssues: nat)

  // -------------------------------------------------------------- settings

  datatype Config = Config(
    entryTimeout: int,          // entry_order_timeout_seconds
    sellRetry: int,             // sell_reconcile_retry_seconds
    maxExitRetries: int,
    matchWindow: int,           // buy_order_match_window_minutes, in seconds
    orphanTakePct: real,
    orphanStopPct: real,
    forceIntraday: bool,
    maxPositions: int,
    maxSymbolPct: real,
    riskPct: real,
    maxSpreadPct: real,
    maxDailyTrades: int,
    enableSim: bool,
    enableReal: bool,
    noEntryAfterOpen: int,      // minutes
    noEntryBeforeClose: int)    // minutes

  // --------------------------------------------------------- remote answers

  datatype RemoteOrder = RemoteOrder(id: string, symbol: Symbol, status: string, dealtQty: nat, dealtAvg: real)

  datatype RemoteDeal = RemoteDeal(id: string, orderId: string, qty: nat, price: real)

  datatype RemotePosition = RemotePosition(
    symbol: Symbol,
    qty: int,
    cost: real,
    sellable: Option<int>,
    price: real,
    marketValue: real)

  /** The deals call: the simulated account refuses it with a known message. */
  datatype DealsRead = GotDeals(rows: seq<RemoteDeal>) | DealsUnsupported | DealsError

  function DealRows(r: DealsRead): seq<RemoteDeal> {
    if r.GotDeals? then r.rows else []
  }

  // ------------------------------------------------------------- the tables

  datatype Db = Db(
    orders: seq<Order>,
    positions: seq<Position>,
    plans: seq<Plan>,
    deals: seq<Deal>,
    issues: seq<Issue>,
    gate: Option<Gate>,
    buyLog: seq<Time>,          // times of the SIM_ORDER_SUBMITTED audit rows
    fillLog: seq<nat>)          // the orders a fill was applied for, in order

  /** The unique index on positions.symbol. */
  ghost predicate OneRowPerSymbol(ps: seq<Position>) {
    forall i, j :: 0 <= i < j < |ps| ==> ps[i].symbol != ps[j].symbol
  }

  /** The row of a symbol, whatever its status. */
  function FindPosition(ps: seq<Position>, s: Symbol): (r: Option<nat>)
    ensures r.Some? ==> r.value < |ps| && ps[r.value].symbol == s
    ensures r.None? <==> forall i :: 0 <= i < |ps| ==> ps[i].symbol != s
  {
    if ps == [] then None
    else
      var r := FindPosition(ps[..|ps| - 1], s);
      if r.Some? then r
      else if ps[|ps| - 1].symbol == s then Some(|ps| - 1)
      else None
  }

  /** The row of a symbol if some row of it is OPEN. */
  function FindOpen(ps: seq<Position>, s: Symbol): (r: Option<nat>)
    ensures r.Some? ==> r.value < |ps| && ps[r.value].symbol == s && ps[r.value].status.Open?
    ensures r.None? <==> forall i :: 0 <= i < |ps| && ps[i].symbol == s ==> !ps[i].status.Open?
  {
    if ps == [] then None
    else
      var r := FindOpen(ps[..|ps| - 1], s);
      if r.Some? then r
      else if ps[|ps| - 1].symbol == s && ps[|ps| - 1].status.Open? then Some(|ps| - 1)
      else None
  }

  /** The local order that carries a broker id. */
  function FindByFutuId(os: seq<Order>, id: string): (r: Option<nat>)
    ensures r.Some? ==> r.value < |os| && os[r.value].futuId == id
    ensures r.None? <==> forall i :: 0 <= i < |os| ==> os[i].futuId != id
  {
    if os == [] then None
    else
      var r := FindByFutuId(os[..|os| - 1], id);
      if r.Some? then r
      else if os[|os| - 1].futuId == id then Some(|os| - 1)
      else None
  }

  /** The session: the tables the loop reads and rewrites in place. */
  class Store {
    var orders: seq<Order>
    var positions: seq<Position>
    var plans: seq<Plan>
    var deals: seq<Deal>
    var issues: seq<Issue>
    var gate: Option<Gate>
    var buyLog: seq<Time>
    var fillLog: seq<nat>

    ghost function Snapshot(): Db
      reads this
    {
      Db(orders, positions, plans, deals, issues, gate, buyLog, fillLog)
    }

    constructor (db: Db)
      ensures Snapshot() == db
    {
      orders, positions, plans := db.orders, db.positions, db.plans;
      deals, issues, gate, buyLog, fillLog := db.deals, db.issues, db.gate, db.buyLog, db.fillLog;
    }
  }
}
