/** When managing a position submits an exit, and which, on the fields of the row (app/services/position_manager.py:68-254). */
module ExitRules {
  import opened Common
  import opened Ledger
  import opened PositionManager

  // ------------------------------------------------------------ the levels

  /** The price the position is valued at: a quoted price that is not zero, else its own last one. */
  predicate ValuedAt(p: Position, quote: Option<Quote>, price: real) {
    if quote.Some? && quote.value.last != 0.0 then price == quote.value.last
    else if p.currentPrice.Some? then price == p.currentPrice.value
    else price == 0.0
  }

  predicate IsSet(x: Option<real>) {
    x.Some? && x.value != 0.0
  }

  /** An orphan's fixed stop lies its stop percentage under its entry; any other is the row's own. */
  function StopOf(p: Position, cfg: Config): real {
    if p.isOrphan then p.entryPrice * (1.0 - (if IsSet(p.stopPct) then p.stopPct.value else cfg.orphanStopPct)) else p.stopPrice
  }

  function TakeProfit(p: Position, cfg: Config): real {
    if IsSet(p.takePct) then p.takePct.value else cfg.orphanTakePct
  }

  /** An orphan's first target lies its take-profit percentage over its entry. */
  predicate FirstTarget(p: Position, cfg: Config, target: Option<real>) {
    if p.isOrphan then target.Some? && target.value == p.entryPrice * (1.0 + TakeProfit(p, cfg))
    else target == p.target1
  }

  // ------------------------------------------------------------ the reasons

  predicate AtStop(p: Position, price: real, cfg: Config) {
    price <= StopOf(p, cfg) || (IsSet(p.trailingStop) && price <= p.trailingStop.value)
  }

  /** The gain of an orphan, of nothing when its entry is not positive, is at least its take-profit. */
  predicate OrphanTakes(p: Position, price: real, cfg: Config) {
    p.isOrphan && TakeProfit(p, cfg) <= if p.entryPrice > 0.0 then (price - p.entryPrice) / p.entryPrice else 0.0
  }

  predicate Hits(target: Option<real>, price: real) {
    IsSet(target) && target.value <= price
  }

  ghost predicate HitsFirst(p: Position, price: real, cfg: Config) {
    exists target :: FirstTarget(p, cfg, target) && Hits(target, price)
  }

  /** The price calls for an exit of this kind: the first that applies. */
  ghost predicate PriceCalls(p: Position, price: real, cfg: Config, kind: ExitKind) {
    match kind
    case HardStop => AtStop(p, price, cfg)
    case OrphanTakeProfit => !AtStop(p, price, cfg) && OrphanTakes(p, price, cfg)
    case Target2OrTrailing => !AtStop(p, price, cfg) && !OrphanTakes(p, price, cfg) && Hits(p.target2, price)
    case Target1Partial =>
      !AtStop(p, price, cfg) && !OrphanTakes(p, price, cfg) && !Hits(p.target2, price) && HitsFirst(p, price, cfg) && !p.partialExitDone
    case ForcedIntraday => false
  }

  /** The price calls for no exit. */
  ghost predicate NothingCalled(p: Position, price: real, cfg: Config) {
    !AtStop(p, price, cfg) && !OrphanTakes(p, price, cfg) && !Hits(p.target2, price) && (HitsFirst(p, price, cfg) ==> p.partialExitDone)
  }

  /** An exit of this kind is due: near the close the forced one, otherwise the one the price calls for. */
  ghost predicate Due(p: Position, price: real, nearClose: bool, cfg: Config, kind: ExitKind) {
    if cfg.forceIntraday && nearClose then kind.ForcedIntraday? else PriceCalls(p, price, cfg, kind)
  }

  /** Everything available; on the first target half the shares, at least one, as far as available. */
  predicate SellsShares(p: Position, kind: ExitKind, qty: int) {
    if kind.Target1Partial? then
      qty == if p.shares < 4 then (if p.availableShares < 1 then p.availableShares else 1)
             else if p.availableShares < p.shares / 2 then p.availableShares else p.shares / 2
    else qty == p.availableShares
  }

  // --------------------------------------------------- the orders in the way

  predicate WaitsFor(o: Order, s: Symbol) {
    o.symbol == s && o.side.Sell? && o.status.SellWaiting?
  }

  /** A waiting exit that has waited out the retry window. */
  predicate Retryable(o: Order, p: Position, before: Time) {
    WaitsFor(o, p.symbol) && o.submittedAt <= before && (o.note.ExitNote? || p.exitMark.ExitBy?)
  }

  predicate NewestRetryable(os: seq<Order>, p: Position, before: Time, i: int) {
    && 0 <= i < |os| && Retryable(os[i], p, before)
    && forall j :: 0 <= j < |os| && Retryable(os[j], p, before) ==>
         os[j].submittedAt < os[i].submittedAt || (os[j].submittedAt == os[i].submittedAt && j <= i)
  }

  predicate HeldStill(p: Position, holdings: Read<seq<RemotePosition>>) {
    (p.shares > 0 && p.lastSynced.Some?)
    || (holdings.Got? && exists i :: 0 <= i < |holdings.rows| && holdings.rows[i].symbol == p.symbol && holdings.rows[i].qty > 0)
  }

  /** No SELL of the symbol is working, and this is a permitted retry or, with nothing waiting, a first exit. */
  ghost predicate MaySubmit(os: seq<Order>, p: Position, a: ManageAnswers, cfg: Config, retries: nat) {
    && (forall i :: 0 <= i < |os| && os[i].symbol == p.symbol && os[i].side.Sell? ==> !os[i].status.Submitted? && !os[i].status.PartiallyFilled?)
    && if exists i :: 0 <= i < |os| && Retryable(os[i], p, a.now - cfg.sellRetry) then
         exists i :: NewestRetryable(os, p, a.now - cfg.sellRetry, i)
           && retries == os[i].retryCount + 1 <= cfg.maxExitRetries && HeldStill(p, a.holdings)
       else
         retries == 0 && forall i :: 0 <= i < |os| && WaitsFor(os[i], p.symbol) ==> os[i].submittedAt <= a.later - cfg.sellRetry
  }

  // ------------------------------------------------------------- the outcome

  /** The bid if there is one, else half a percent under the price, and at least one cent. */
  predicate LimitedAt(quote: Option<Quote>, price: real, limit: real) {
    var asked := if quote.Some? && quote.value.bid > 0.0 then quote.value.bid else price * 0.995;
    limit == if asked < 0.01 then 0.01 else asked
  }

  predicate IsExitOrder(o: Order, p: Position, kind: ExitKind, retries: nat, id: string, price: real, a: ManageAnswers) {
    && o.symbol == p.symbol && o.side.Sell? && SellsShares(p, kind, o.qty) && LimitedAt(a.quote, price, o.limitPrice)
    && o.submittedPrice == o.limitPrice && o.submittedAt == a.submittedAt && o.futuId == id && o.status.Submitted?
    && o.note == ExitNote(kind, false) && o.retryCount == retries && o.planId == p.planId && o.dealtQty == 0 && o.dealtAvg.None?
  }

  /** An exit is due and may be sent: the row is OPEN, has a price and shares to sell, and nothing is in the way. */
  ghost predicate Sends(os: seq<Order>, p: Position, a: ManageAnswers, cfg: Config, price: real, kind: ExitKind, retries: nat) {
    && p.status.Open? && price > 0.0 && p.availableShares > 0 && a.place.Accepted?
    && Due(p, price, a.nearClose, cfg, kind) && MaySubmit(os, p, a, cfg, retries)
  }

  /** The trailing stop after the update: half an R over the entry, no lower than it was, once 1.5R are open and no exit is called for. */
  ghost predicate TrailedTo(p: Position, price: real, cfg: Config, r: real, risk: real, trailing: Option<real>) {
    if NothingCalled(p, price, cfg) && r >= 1.5 then
      var base := if IsSet(p.trailingStop) then p.trailingStop.value else StopOf(p, cfg);
      trailing.Some? && trailing.value >= base && trailing.value >= p.entryPrice + 0.5 * risk
      && (trailing.value == base || trailing.value == p.entryPrice + 0.5 * risk)
    else trailing == p.trailingStop
  }

  /** The row as management leaves it, but for the mark of a submitted exit. */
  ghost predicate IsMarked(p: Position, q: Position, price: real, cfg: Config) {
    var stop := StopOf(p, cfg);
    var risk := if p.entryPrice - stop < 0.0001 then 0.0001 else p.entryPrice - stop;
    var r := (price - p.entryPrice) / risk;
    && q == p.(currentPrice := Some(price), stopPrice := q.stopPrice, target1 := q.target1, currentR := q.currentR, maxR := q.maxR, minR := q.minR,
               trailingStop := q.trailingStop, exitMark := q.exitMark)
    && q.stopPrice == stop && FirstTarget(p, cfg, q.target1) && q.currentR == r && q.maxR == (if p.maxR < r then r else p.maxR) && q.minR == (if r < p.minR then r else p.minR)
    && TrailedTo(p, price, cfg, r, risk, q.trailingStop)
  }

  // --------------------------------------------------------------- the rules

  lemma LevelsAre(p: Position, price: real, cfg: Config)
    ensures var m := Marked(p, price, cfg);
      && m.stopPrice == StopOf(p, cfg) && FirstTarget(p, cfg, m.target1) && (Hits(m.target1, price) <==> HitsFirst(p, price, cfg))
      && m.target2 == p.target2 && m.trailingStop == p.trailingStop
  {
    var m := Marked(p, price, cfg);
    assert FirstTarget(p, cfg, m.target1);
  }

  /** The intent of the code is the exit the price calls for. */
  lemma IntentIs(p: Position, price: real, cfg: Config)
    requires price > 0.0
    ensures var intent := PriceIntent(Marked(p, price, cfg), price, cfg);
      && (intent.NoIntent? <==> NothingCalled(p, price, cfg))
      && (intent.Exit? ==> PriceCalls(p, price, cfg, intent.kind) && SellsShares(p, intent.kind, intent.qty))
  {
    hide RiskPerShare;
    LevelsAre(p, price, cfg);
    hide HitsFirst, FirstTarget;
  }

  lemma FinalIntentIs(p: Position, price: real, a: ManageAnswers, cfg: Config)
    requires price > 0.0
    ensures var intent := FinalIntent(Marked(p, price, cfg), price, a.nearClose, cfg);
      && (intent.NoIntent? <==> !(cfg.forceIntraday && a.nearClose) && NothingCalled(p, price, cfg))
      && (intent.Exit? ==> Due(p, price, a.nearClose, cfg, intent.kind) && SellsShares(p, intent.kind, intent.qty))
  {
    hide PriceIntent, PriceCalls, NothingCalled;
    IntentIs(p, price, cfg);
  }

  /** At most one kind is due, and none when nothing is called for. */
  lemma OneKindIsDue(p: Position, price: real, nearClose: bool, cfg: Config, kind: ExitKind)
    requires Due(p, price, nearClose, cfg, kind)
    ensures forall other :: Due(p, price, nearClose, cfg, other) ==> other == kind
    ensures (cfg.forceIntraday && nearClose) || !NothingCalled(p, price, cfg)
  {
    hide AtStop, OrphanTakes, Hits, HitsFirst;
  }

  lemma SlotIs(os: seq<Order>, p: Position, a: ManageAnswers, cfg: Config, retries: nat)
    ensures ExitSlot(os, p, a, cfg) == Some(retries) <==> MaySubmit(os, p, a, cfg, retries)
  {
    var before := a.now - cfg.sellRetry;
    var retry := RetryableExit(os, p, before);
    assert forall o :: IsRetryable(o, p, before) <==> Retryable(o, p, before);
    if retry.Some? {
      assert Retryable(os[retry.value], p, before) && NewestRetryable(os, p, before, retry.value);
      assert forall i :: NewestRetryable(os, p, before, i) ==> i == retry.value;
    }
  }

  /** The row after the marks and the trailing update. */
  lemma RowIsMarked(p: Position, price: real, cfg: Config)
    requires price > 0.0
    ensures var q := Trailed(Marked(p, price, cfg), price, cfg);
      && IsMarked(p, q, price, cfg) && q.exitMark == p.exitMark && q.symbol == p.symbol && q.planId == p.planId
      && q.shares == p.shares && q.availableShares == p.availableShares && q.lastSynced == p.lastSynced
  {
    hide PriceIntent, PriceCalls, NothingCalled, HitsFirst, Hits, AtStop, OrphanTakes;
    IntentIs(p, price, cfg);
    LevelsAre(p, price, cfg);
  }

  lemma NothingIsDue(p: Position, price: real, nearClose: bool, cfg: Config)
    requires !(cfg.forceIntraday && nearClose) && NothingCalled(p, price, cfg)
    ensures forall kind :: !Due(p, price, nearClose, cfg, kind)
  {
    hide AtStop, OrphanTakes, Hits, HitsFirst;
  }

  lemma SomethingIsSold(p: Position, kind: ExitKind, qty: int)
    requires p.availableShares > 0 && SellsShares(p, kind, qty)
    ensures qty > 0
  {
  }

  /** The orders in the way depend on the symbol, its shares and the mark of an earlier exit. */
  lemma SlotOfMarked(os: seq<Order>, p: Position, q: Position, a: ManageAnswers, cfg: Config)
    requires q.exitMark == p.exitMark && q.symbol == p.symbol && q.shares == p.shares && q.lastSynced == p.lastSynced
    ensures forall retries: nat :: ExitSlot(os, q, a, cfg) == Some(retries) <==> MaySubmit(os, p, a, cfg, retries)
  {
    forall retries: nat ensures ExitSlot(os, q, a, cfg) == Some(retries) <==> MaySubmit(os, p, a, cfg, retries) {
      SlotIs(os, q, a, cfg, retries);
      var before := a.now - cfg.sellRetry;
      assert forall o :: Retryable(o, q, before) <==> Retryable(o, p, before);
      assert forall i :: NewestRetryable(os, q, before, i) <==> NewestRetryable(os, p, before, i);
    }
  }

  lemma MarkOfExit(p: Position, q: Position, price: real, cfg: Config, mark: ExitMark)
    requires IsMarked(p, q, price, cfg)
    ensures IsMarked(p, q.(exitMark := mark), price, cfg)
  {
    hide TrailedTo, FirstTarget, StopOf;
  }

  lemma ExitOrderIs(p: Position, q: Position, intent: Intent, price: real, retries: nat, id: string, a: ManageAnswers)
    requires intent.Exit? && intent.qty > 0 && SellsShares(p, intent.kind, intent.qty) && q.symbol == p.symbol && q.planId == p.planId
    ensures IsExitOrder(ExitOrder(q, intent, price, retries, id, a), p, intent.kind, retries, id, price, a)
  {
    hide SellsShares;
  }

  /** What managing the position in row `k` does: the row it leaves and the orders it leaves. */
  ghost predicate ManagedRightly(db: Db, k: nat, a: ManageAnswers, cfg: Config, price: real, r: Db)
    requires k < |db.positions|
  {
    var p := db.positions[k];
    if !p.status.Open? || price <= 0.0 then r == db
    else
      && |r.positions| == |db.positions| && (forall j :: 0 <= j < |db.positions| && j != k ==> r.positions[j] == db.positions[j])
      && IsMarked(p, r.positions[k], price, cfg)
      && if exists kind, retries :: Sends(db.orders, p, a, cfg, price, kind, retries) then
           exists kind, retries, o :: Sends(db.orders, p, a, cfg, price, kind, retries)
             && IsExitOrder(o, p, kind, retries, a.place.id, price, a) && r.orders == db.orders + [o] && r.positions[k].exitMark == ExitBy(kind)
         else r.orders == db.orders && r.positions[k].exitMark == p.exitMark
  }

  /**
   Managing a position sends exactly one SELL exactly when an exit is due, there are shares to sell, the
   orders in the way permit it and the broker accepts; its kind is the first due, its quantity and limit
   as that kind asks.  The row is marked and trailed either way.
   */
  lemma ManagingSendsWhatIsDue(db: Db, k: nat, a: ManageAnswers, cfg: Config, price: real)
    requires k < |db.positions| && ValuedAt(db.positions[k], a.quote, price)
    ensures ManagedRightly(db, k, a, cfg, price, ManageOne(db, k, a, cfg))
  {
    hide Marked, Trailed, FinalIntent, ExitSlot, IsMarked, MaySubmit, Due, SellsShares, PriceCalls, NothingCalled;
    var p := db.positions[k];
    assert CurrentPrice(p, a.quote) == price;
    if p.status.Open? && price > 0.0 {
      var marked := Marked(p, price, cfg);
      var q := Trailed(marked, price, cfg);
      var intent := FinalIntent(marked, price, a.nearClose, cfg);
      RowIsMarked(p, price, cfg);
      FinalIntentIs(p, price, a, cfg);
      SlotOfMarked(db.orders, p, q, a, cfg);
      var slot := ExitSlot(db.orders, q, a, cfg);
      if intent.NoIntent? {
        NothingIsDue(p, price, a.nearClose, cfg);
      } else {
        OneKindIsDue(p, price, a.nearClose, cfg, intent.kind);
        if q.availableShares > 0 && slot.Some? && a.place.Accepted? {
          SomethingIsSold(p, intent.kind, intent.qty);
          ExitOrderIs(p, q, intent, price, slot.value, a.place.id, a);
          MarkOfExit(p, q, price, cfg, ExitBy(intent.kind));
          var o := ExitOrder(q, intent, price, slot.value, a.place.id, a);
          assert ManageOne(db, k, a, cfg).orders == db.orders + [o];
          assert Sends(db.orders, p, a, cfg, price, intent.kind, slot.value) && IsExitOrder(o, p, intent.kind, slot.value, a.place.id, price, a);
        }
      }
    }
  }
}
