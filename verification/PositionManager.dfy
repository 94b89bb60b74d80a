/** Stops, targets and exit orders of the open positions: app/services/position_manager.py. */
module PositionManager {
  import opened Common
  import opened Ledger

  datatype Quote = Quote(last: real, bid: real)

  datatype PlaceAnswer = Accepted(id: string) | Refused

  /**
   What managing one position reads: its quote, the remote holdings, the broker's reply, and the clock,
   which it reads for each of its two cutoffs and again for the submission.
   */
  datatype ManageAnswers = ManageAnswers(
    quote: Option<Quote>,
    holdings: Read<seq<RemotePosition>>,
    place: PlaceAnswer,
    nearClose: bool,
    now: Time,
    later: Time,
    submittedAt: Time)

  datatype Outcome = Held | Skipped | ExitSubmitted | Errored

  // ------------------------------------------------------------ valuation

  function CurrentPrice(p: Position, quote: Option<Quote>): real {
    if quote.Some? && quote.value.last != 0.0 then quote.value.last else OrElse(p.currentPrice, 0.0)
  }

  function TakePct(p: Position, cfg: Config): real {
    OrElse(p.takePct, cfg.orphanTakePct)
  }

  function RiskPerShare(p: Position): (risk: real)
    ensures risk >= 0.0001
  {
    MaxReal(p.entryPrice - p.stopPrice, 0.0001)
  }

  /** The position marked to `current`; an orphan's stop and target follow its entry price. */
  function Marked(p: Position, current: real, cfg: Config): Position {
    var p1 :=
      if p.isOrphan then
        p.(currentPrice := Some(current),
           stopPrice := p.entryPrice * (1.0 - OrElse(p.stopPct, cfg.orphanStopPct)),
           target1 := Some(p.entryPrice * (1.0 + TakePct(p, cfg))))
      else p.(currentPrice := Some(current));
    var r := (current - p1.entryPrice) / RiskPerShare(p1);
    p1.(currentR := r, maxR := MaxReal(p1.maxR, r), minR := MinReal(p1.minR, r))
  }

  /** The stop a price is compared with: the fixed stop or the trailing one, whichever is higher. */
  function HardStopLevel(p: Position): real {
    MaxReal(p.stopPrice, OrElse(p.trailingStop, 0.0))
  }

  function Gain(p: Position, current: real): real {
    if p.entryPrice > 0.0 then (current - p.entryPrice) / p.entryPrice else 0.0
  }

  predicate Reached(target: Option<real>, current: real) {
    target.Some? && target.value != 0.0 && current >= target.value
  }

  datatype Intent = NoIntent | Exit(qty: int, kind: ExitKind)

  /** The exit the prices call for, before the forced exit near the close. */
  function PriceIntent(p: Position, current: real, cfg: Config): Intent {
    if current <= HardStopLevel(p) then Exit(p.availableShares, HardStop)
    else if p.isOrphan && Gain(p, current) >= TakePct(p, cfg) then Exit(p.availableShares, OrphanTakeProfit)
    else if Reached(p.target2, current) then Exit(p.availableShares, Target2OrTrailing)
    else if Reached(p.target1, current) && !p.partialExitDone then
      Exit(MinInt(p.availableShares, MaxInt(1, p.shares / 2)), Target1Partial)
    else NoIntent
  }

  function FinalIntent(p: Position, current: real, nearClose: bool, cfg: Config): Intent {
    if cfg.forceIntraday && nearClose then Exit(p.availableShares, ForcedIntraday) else PriceIntent(p, current, cfg)
  }

  /** With no exit due and at least 1.5R of open profit, the trailing stop locks in half an R. */
  function Trailed(p: Position, current: real, cfg: Config): Position {
    if PriceIntent(p, current, cfg).NoIntent? && p.currentR >= 1.5 then
      p.(trailingStop := Some(MaxReal(OrElse(p.trailingStop, p.stopPrice), p.entryPrice + 0.5 * RiskPerShare(p))))
    else p
  }

  // ---------------------------------------------------- pending exit orders

  predicate IsActiveExit(o: Order, s: Symbol) {
    o.symbol == s && o.side.Sell? && Working(o.status)
  }

  predicate IsWaitingExit(o: Order, s: Symbol) {
    o.symbol == s && o.side.Sell? && o.status.SellWaiting?
  }

  predicate ActiveExitExists(os: seq<Order>, s: Symbol) {
    exists i :: 0 <= i < |os| && IsActiveExit(os[i], s)
  }

  predicate RecentWaitingExitExists(os: seq<Order>, s: Symbol, cutoff: Time) {
    exists i :: 0 <= i < |os| && IsWaitingExit(os[i], s) && os[i].submittedAt > cutoff
  }

  predicate IsRetryable(o: Order, p: Position, cutoff: Time) {
    IsWaitingExit(o, p.symbol) && o.submittedAt <= cutoff && (o.note.ExitNote? || p.exitMark.ExitBy?)
  }

  /** The newest retryable order: latest submission, then highest id. */
  function RetryableExit(os: seq<Order>, p: Position, cutoff: Time): (r: Option<nat>)
    ensures r.Some? ==> r.value < |os| && IsRetryable(os[r.value], p, cutoff)
    ensures r.Some? ==> forall i :: 0 <= i < |os| && IsRetryable(os[i], p, cutoff) ==>
      os[i].submittedAt < os[r.value].submittedAt || (os[i].submittedAt == os[r.value].submittedAt && i <= r.value)
    ensures r.None? ==> forall i :: 0 <= i < |os| ==> !IsRetryable(os[i], p, cutoff)
  {
    if os == [] then None
    else
      var n := |os| - 1;
      var best := RetryableExit(os[..n], p, cutoff);
      assert forall i :: 0 <= i < n ==> os[..n][i] == os[i];
      if IsRetryable(os[n], p, cutoff) && (best.None? || os[best.value].submittedAt <= os[n].submittedAt) then Some(n)
      else best
  }

  predicate StillHeld(p: Position, holdings: Read<seq<RemotePosition>>) {
    (holdings.Got? && exists i :: 0 <= i < |holdings.rows| && holdings.rows[i].symbol == p.symbol && holdings.rows[i].qty > 0)
    || (p.shares > 0 && p.lastSynced.Some?)
  }

  function ExitLimit(quote: Option<Quote>, current: real): real {
    var bid := if quote.Some? then quote.value.bid else 0.0;
    MaxReal(if bid > 0.0 then bid else current * 0.995, 0.01)
  }

  /** The retry count a new exit order may be submitted with, if any may be. */
  function ExitSlot(os: seq<Order>, p: Position, a: ManageAnswers, cfg: Config): Option<nat> {
    var cutoff := a.now - cfg.sellRetry;
    var retry := RetryableExit(os, p, cutoff);
    if ActiveExitExists(os, p.symbol) then None
    else if retry.Some? then
      var next := os[retry.value].retryCount + 1;
      if StillHeld(p, a.holdings) && next <= cfg.maxExitRetries then Some(next) else None
    else if RecentWaitingExitExists(os, p.symbol, a.later - cfg.sellRetry) then None
    else Some(0)
  }

  function ExitOrder(p: Position, intent: Intent, current: real, retries: nat, id: string, a: ManageAnswers): Order
    requires intent.Exit? && intent.qty > 0
  {
    var price := ExitLimit(a.quote, current);
    Order(p.planId, p.symbol, Sell, intent.qty, price, price, a.submittedAt, id, Submitted,
          ExitNote(intent.kind, false), 0, None, retries)
  }

  // ---------------------------------------------------------- one position

  /** `_manage_position` for the OPEN position in row `k`. */
  function ManageOne(db: Db, k: nat, a: ManageAnswers, cfg: Config): (r: Db)
    requires k < |db.positions|
    ensures r.plans == db.plans && r.deals == db.deals && r.issues == db.issues && r.gate == db.gate && r.buyLog == db.buyLog
    ensures |r.positions| == |db.positions| && |db.orders| <= |r.orders| <= |db.orders| + 1
    ensures r.orders[..|db.orders|] == db.orders
  {
    var p := db.positions[k];
    var current := CurrentPrice(p, a.quote);
    if !p.status.Open? || current <= 0.0 then db
    else
      var marked := Marked(p, current, cfg);
      var q := Trailed(marked, current, cfg);
      var db1 := db.(positions := db.positions[k := q]);
      var intent := FinalIntent(marked, current, a.nearClose, cfg);
      if intent.NoIntent? || q.availableShares <= 0 || intent.qty <= 0 then db1
      else
        var slot := ExitSlot(db.orders, q, a, cfg);
        if slot.None? || a.place.Refused? then db1
        else
          db.(positions := db.positions[k := q.(exitMark := ExitBy(intent.kind))],
              orders := db.orders + [ExitOrder(q, intent, current, slot.value, a.place.id, a)])
  }

  function ManageUpTo(db: Db, a: nat -> ManageAnswers, cfg: Config, n: nat): (r: Db)
    requires n <= |db.positions|
    ensures r.plans == db.plans && r.deals == db.deals && r.issues == db.issues && r.gate == db.gate && r.buyLog == db.buyLog
    ensures |r.positions| == |db.positions| && |db.orders| <= |r.orders|
  {
    if n == 0 then db else ManageOne(ManageUpTo(db, a, cfg, n - 1), n - 1, a(n - 1), cfg)
  }

  function ManageAll(db: Db, a: nat -> ManageAnswers, cfg: Config): Db {
    ManageUpTo(db, a, cfg, |db.positions|)
  }

  // ------------------------------------------------------- the method form

  /** An active order holds; an old waiting one is retried up to the limit; a recent waiting one holds. */
  method FindExitSlot(orders: seq<Order>, position: Position, a: ManageAnswers, cfg: Config) returns (slot: Option<nat>)
    ensures slot == ExitSlot(orders, position, a, cfg)
  {
    if ActiveExitExists(orders, position.symbol) {
      return None;
    }
    var cutoff := a.now - cfg.sellRetry;
    var retry := RetryableExit(orders, position, cutoff);
    if retry.Some? {
      if !StillHeld(position, a.holdings) {
        return None;
      }
      var nextRetryCount := orders[retry.value].retryCount + 1;
      if nextRetryCount > cfg.maxExitRetries {
        return None;
      }
      return Some(nextRetryCount);
    }
    var laterCutoff := a.later - cfg.sellRetry;
    if RecentWaitingExitExists(orders, position.symbol, laterCutoff) {
      return None;
    }
    slot := Some(0);
  }

  /** Value the position, move its stop, and submit an exit if one is due and none is pending. */
  method ManagePosition(store: Store, k: nat, a: ManageAnswers, cfg: Config) returns (outcome: Outcome)
    requires k < |store.positions|
    modifies store`positions, store`orders
    ensures store.Snapshot() == ManageOne(old(store.Snapshot()), k, a, cfg)
    ensures outcome.ExitSubmitted? <==> |store.orders| == |old(store.orders)| + 1
  {
    hide CurrentPrice, Marked, PriceIntent, RiskPerShare, ExitSlot, ExitOrder, OrElse, MaxReal;
    var position := store.positions[k];
    var current := CurrentPrice(position, a.quote);
    if !position.status.Open? {
      return Held;
    }
    if current <= 0.0 {
      return Errored;
    }
    position := Marked(position, current, cfg);
    var intent := PriceIntent(position, current, cfg);
    var risk := RiskPerShare(position);
    if intent.NoIntent? && position.currentR >= 1.5 {
      var floor := OrElse(position.trailingStop, position.stopPrice);
      position := position.(trailingStop := Some(MaxReal(floor, position.entryPrice + 0.5 * risk)));
    }
    if cfg.forceIntraday && a.nearClose {
      intent := Exit(position.availableShares, ForcedIntraday);
    }
    store.positions := store.positions[k := position];
    if intent.NoIntent? {
      return Held;
    }
    if position.availableShares <= 0 || intent.qty <= 0 {
      return Skipped;
    }
    var orders := store.orders;
    var slot := FindExitSlot(orders, position, a, cfg);
    if slot.None? {
      return Held;
    }
    match a.place
    case Refused =>
      return Errored;
    case Accepted(id) =>
      store.orders := orders + [ExitOrder(position, intent, current, slot.value, id, a)];
      store.positions := store.positions[k := position.(exitMark := ExitBy(intent.kind))];
      return ExitSubmitted;
  }

  /** `manage_positions`: the loop over the positions, counting the exits it submitted. */
  method ManagePositions(store: Store, a: nat -> ManageAnswers, cfg: Config) returns (submitted: nat)
    modifies store`positions, store`orders
    ensures store.Snapshot() == ManageAll(old(store.Snapshot()), a, cfg)
    ensures submitted == |store.orders| - |old(store.orders)|
  {
    hide ManageOne;
    submitted := 0;
    for k := 0 to |store.positions|
      invariant |store.positions| == |old(store.positions)|
      invariant store.Snapshot() == ManageUpTo(old(store.Snapshot()), a, cfg, k)
      invariant submitted == |store.orders| - |old(store.orders)|
    {
      var outcome := ManagePosition(store, k, a(k), cfg);
      if outcome.ExitSubmitted? {
        submitted := submitted + 1;
      }
    }
  }
}
