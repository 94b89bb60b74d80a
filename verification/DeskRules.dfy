/** What an advance makes of an open position, on its fields and the bars (app/services/state_machine.py:299-407). */
module DeskRules {
  import opened Common
  import opened Ledger
  import opened Structures
  import opened Risk
  import opened Corrections
  import opened StateMachine
  import opened SignalTheorems
  import opened SignalRules

  // -------------------------------------------------------- the position now

  /** The open result in units of the initial risk, zero for a stop that is not below the entry. */
  function OpenR(h: Holding, close: real): real {
    if h.stop < h.entry then (close - h.entry) / (h.entry - h.stop) else 0.0
  }

  predicate EntriesAllowed(m: Market) {
    match m
    case RiskOn => true
    case NeutralPositive => true
    case NeutralNegative => false
    case RiskOff => false
  }

  predicate TopKnown(v: View) {
    exists i :: 0 <= i < |v.structures| && v.structures[i].hourly && v.structures[i].kind.TopStructure?
  }

  /** The signal the position came from is on file, and its trigger was not kept. */
  ghost predicate TriggerBroke(d: Desk, h: Holding, v: View) {
    h.entrySignal.Some? && h.entrySignal.value < |d.signals| && !TriggerKept(d.signals[h.entrySignal.value], v)
  }

  /** A market closed to entries, with the hourly close under its MA60. */
  predicate FallsWithMarket(market: Market, v: View) {
    !EntriesAllowed(market) && v.hourly.Some? && v.hourly.value.ma60.Some? && v.hourly.value.close < v.hourly.value.ma60.value
  }

  /** The trailing stop after its update: none below 1R or without an ATR, the entry from 1R, two or one and a half ATR under the close from 2R. */
  predicate TrailsTo(h: Holding, bar: DailyBar, market: Market, trailing: Option<real>) {
    var r := OpenR(h, bar.close);
    if bar.atr.None? || r < 1.0 then trailing == h.trailing
    else
      var base := if h.trailing.Some? then h.trailing.value else h.stop;
      var under := bar.close - bar.atr.value * (if market.RiskOn? then 2.0 else 1.5);
      trailing.Some? && trailing.value >= base && trailing.value >= h.entry && (r >= 2.0 ==> trailing.value >= under)
      && (trailing.value == base || trailing.value == h.entry || (r >= 2.0 && trailing.value == under))
  }

  // -------------------------------------------------------------- the exits

  /** The close is at or under the fixed stop, or the entry's trigger broke, or the stock falls with a closed market. */
  ghost predicate ExitsFirst(d: Desk, h: Holding, bar: DailyBar, market: Market, v: View) {
    bar.close <= h.stop || TriggerBroke(d, h, v) || FallsWithMarket(market, v)
  }

  /** A top structure while the position is ahead, in a market open to entries: reduce. */
  ghost predicate Reduces(d: Desk, h: Holding, bar: DailyBar, market: Market, v: View) {
    !ExitsFirst(d, h, bar, market, v) && EntriesAllowed(market) && TopKnown(v) && OpenR(h, bar.close) > 0.0
  }

  predicate BreaksTrend(bar: DailyBar) {
    bar.ma60.Some? && bar.close < bar.ma60.value
  }

  predicate AtTrailing(trailing: Option<real>, close: real) {
    trailing.Some? && trailing.value != 0.0 && close <= trailing.value
  }

  /** The position is past the first exits and the reduction, in a market open to entries. */
  ghost predicate Follows(d: Desk, h: Holding, bar: DailyBar, market: Market, v: View) {
    !ExitsFirst(d, h, bar, market, v) && EntriesAllowed(market) && !(TopKnown(v) && OpenR(h, bar.close) > 0.0)
  }

  /** An exit is due: one of the first three, or, when the position is followed, the daily MA60 or the updated trailing stop. */
  ghost predicate ExitDue(d: Desk, h: Holding, bar: DailyBar, market: Market, v: View, trailing: Option<real>) {
    || ExitsFirst(d, h, bar, market, v)
    || (Follows(d, h, bar, market, v) && (BreaksTrend(bar) || AtTrailing(trailing, bar.close)))
  }

  /** The trailing stop the advance leaves: raised to the entry while protected and ahead, updated while followed, else as it was. */
  ghost predicate LeavesTrailing(d: Desk, h: Holding, bar: DailyBar, market: Market, v: View, trailing: Option<real>) {
    if Follows(d, h, bar, market, v) && !BreaksTrend(bar) then TrailsTo(h, bar, market, trailing)
    else if !ExitsFirst(d, h, bar, market, v) && !EntriesAllowed(market) && OpenR(h, bar.close) > 0.0 then
      var base := if h.trailing.Some? && h.trailing.value != 0.0 then h.trailing.value else h.stop;
      trailing.Some? && trailing.value == if base < h.entry then h.entry else base
    else trailing == h.trailing
  }

  /** A signal to sell `shares`, carrying the trailing stop if there is one that is not zero, else the fixed one. */
  predicate SellsAt(sig: Signal, h: Holding, kind: SignalKind, shares: int, trailing: Option<real>, now: Time) {
    && sig.symbol == h.symbol && sig.kind == kind && sig.status.Pending? && sig.shares == Some(shares) && sig.createdAt == now
    && sig.stop.Some? && sig.stop.value == (if trailing.Some? && trailing.value != 0.0 then trailing.value else h.stop)
    && sig.entry.None? && sig.structureId.None? && !sig.fromQuarter && sig.triggerTs.None? && sig.triggerLevel.None?
  }

  /** The signals afterwards: the same with one of the kind pending, else one more. */
  ghost predicate Signals(before: seq<Signal>, after: seq<Signal>, h: Holding, kind: SignalKind, shares: int, trailing: Option<real>, now: Time) {
    if exists i :: 0 <= i < |before| && before[i].symbol == h.symbol && before[i].kind == kind && before[i].status.Pending? then after == before
    else |after| == |before| + 1 && after[..|before|] == before && SellsAt(after[|before|], h, kind, shares, trailing, now)
  }

  /** What the advance leaves of the position in row `k`, its signals and its state. */
  ghost predicate ManagesTo(d: Desk, k: nat, bar: DailyBar, market: Market, v: View, r: Desk)
    requires k < |d.holdings|
  {
    var h := d.holdings[k];
    && |r.holdings| == |d.holdings| && (forall j :: 0 <= j < |d.holdings| && j != k ==> r.holdings[j] == d.holdings[j])
    && var q := r.holdings[k];
    && q == h.(currentR := OpenR(h, bar.close), trailing := q.trailing) && LeavesTrailing(d, h, bar, market, v, q.trailing)
    && (forall s :: s != h.symbol ==> RecordOf(r, s) == RecordOf(d, s)) && RecordOf(r, h.symbol).cooldownUntil == RecordOf(d, h.symbol).cooldownUntil
    && if ExitDue(d, h, bar, market, v, q.trailing) then
         RecordOf(r, h.symbol).state.ExitCandidate? && Signals(d.signals, r.signals, h, ExitSignal, h.shares, q.trailing, v.now)
       else if Reduces(d, h, bar, market, v) then
         RecordOf(r, h.symbol).state.RiskProtection?
         && Signals(d.signals, r.signals, h, ReduceSignal, if h.shares < 6 then 1 else h.shares / 3, q.trailing, v.now)
       else
         r.signals == d.signals && RecordOf(r, h.symbol).state == if EntriesAllowed(market) then DeskState.InPosition else RiskProtection
  }

  // ----------------------------------------------------------------- proofs

  lemma WithSignalAdds(d: Desk, h: Holding, sig: Signal, kind: SignalKind, shares: int, trailing: Option<real>, now: Time)
    requires SellsAt(sig, h, kind, shares, trailing, now)
    ensures Signals(d.signals, WithSignal(d, sig).signals, h, kind, shares, trailing, now)
  {
    assert PendingExists(d.signals, sig.symbol, sig.kind) <==>
      exists i :: 0 <= i < |d.signals| && d.signals[i].symbol == h.symbol && d.signals[i].kind == kind && d.signals[i].status.Pending? by {
      assert forall i :: 0 <= i < |d.signals| ==>
        (IsPending(d.signals[i], sig.symbol, sig.kind) <==> d.signals[i].symbol == h.symbol && d.signals[i].kind == kind && d.signals[i].status.Pending?);
    }
  }

  lemma TrailedIs(h: Holding, bar: DailyBar, market: Market)
    ensures TrailsTo(h, bar, market, TrailedHolding(h, bar.close, bar.atr, OpenR(h, bar.close), market).trailing)
  {
    hide OpenR;
  }

  lemma RIsOpen(h: Holding, close: real)
    ensures CurrentR(h, close) == OpenR(h, close)
  {
  }

  lemma TopIsKnown(v: View)
    ensures LatestOf(v.structures, {TopStructure}).Some? <==> TopKnown(v)
  {
  }

  lemma BrokeIffFailed(d: Desk, h: Holding, v: View)
    ensures TriggerBroke(d, h, v) <==>
      h.entrySignal.Some? && h.entrySignal.value < |d.signals| && TriggerFailure(d.signals[h.entrySignal.value], v).Some?
  {
    if h.entrySignal.Some? && h.entrySignal.value < |d.signals| {
      NoFailureIffTriggerHolds(d.signals[h.entrySignal.value], v);
      HoldsIffKept(d.signals[h.entrySignal.value], v);
    }
  }

  /** A new state, and nothing else, in the record of a symbol. */
  predicate StateSet(d: Desk, r: Desk, s: Symbol, state: DeskState) {
    r.records == d.records[s := RecordOf(d, s).(state := state)]
  }

  lemma RecordsOf(d: Desk, r: Desk, s: Symbol, state: DeskState)
    requires StateSet(d, r, s, state)
    ensures RecordOf(r, s) == RecordOf(d, s).(state := state) && forall t :: t != s ==> RecordOf(r, t) == RecordOf(d, t)
  {
  }

  lemma WithExitIs(d: Desk, h: Holding, q: Holding, now: Time)
    requires q == h.(currentR := q.currentR, trailing := q.trailing)
    ensures var r := WithExit(d, q, now);
      && r.holdings == d.holdings && Signals(d.signals, r.signals, h, ExitSignal, h.shares, q.trailing, now)
      && StateSet(d, r, h.symbol, ExitCandidate)
  {
    hide Signals, PendingExists;
    WithSignalAdds(d, h, ExitOf(q, now), ExitSignal, h.shares, q.trailing, now);
  }

  lemma WithReduceIs(d: Desk, h: Holding, q: Holding, now: Time)
    requires q == h.(currentR := q.currentR, trailing := q.trailing)
    ensures var r := InState(WithSignal(d, ReduceOf(q, now)), h.symbol, RiskProtection);
      && r.holdings == d.holdings && Signals(d.signals, r.signals, h, ReduceSignal, if h.shares < 6 then 1 else h.shares / 3, q.trailing, now)
      && StateSet(d, r, h.symbol, RiskProtection)
  {
    hide Signals, PendingExists;
    WithSignalAdds(d, h, ReduceOf(q, now), ReduceSignal, if h.shares < 6 then 1 else h.shares / 3, q.trailing, now);
  }

  /** The row with its result, and the trailing stop the branch leaves. */
  function Valued(h: Holding, close: real, trailing: Option<real>): Holding {
    h.(currentR := OpenR(h, close), trailing := trailing)
  }

  lemma ExitBranch(d: Desk, k: nat, bar: DailyBar, market: Market, v: View, trailing: Option<real>)
    requires k < |d.holdings| && ExitDue(d, d.holdings[k], bar, market, v, trailing) && LeavesTrailing(d, d.holdings[k], bar, market, v, trailing)
    ensures var q := Valued(d.holdings[k], bar.close, trailing);
      ManagesTo(d, k, bar, market, v, WithExit(d.(holdings := d.holdings[k := q]), q, v.now))
  {
    hide ExitDue, LeavesTrailing, Signals, OpenR, WithExit, RecordOf;
    var h := d.holdings[k];
    var q := Valued(h, bar.close, trailing);
    var d1 := d.(holdings := d.holdings[k := q]);
    WithExitIs(d1, h, q, v.now);
    SameRecords(d, d1);
    RecordsOf(d1, WithExit(d1, q, v.now), h.symbol, ExitCandidate);
  }

  lemma SameRecords(d: Desk, d1: Desk)
    requires d1.records == d.records
    ensures forall s :: RecordOf(d1, s) == RecordOf(d, s)
  {
  }

  lemma ReduceBranch(d: Desk, k: nat, bar: DailyBar, market: Market, v: View)
    requires k < |d.holdings| && Reduces(d, d.holdings[k], bar, market, v)
    ensures var q := Valued(d.holdings[k], bar.close, d.holdings[k].trailing);
      ManagesTo(d, k, bar, market, v, InState(WithSignal(d.(holdings := d.holdings[k := q]), ReduceOf(q, v.now)), q.symbol, RiskProtection))
  {
    hide ExitsFirst, TopKnown, Signals, OpenR, InState, RecordOf, WithSignal;
    var h := d.holdings[k];
    var q := Valued(h, bar.close, h.trailing);
    var d1 := d.(holdings := d.holdings[k := q]);
    WithReduceIs(d1, h, q, v.now);
    SameRecords(d, d1);
    RecordsOf(d1, InState(WithSignal(d1, ReduceOf(q, v.now)), h.symbol, RiskProtection), h.symbol, RiskProtection);
  }

  lemma StayBranch(d: Desk, k: nat, bar: DailyBar, market: Market, v: View, trailing: Option<real>)
    requires k < |d.holdings| && !ExitDue(d, d.holdings[k], bar, market, v, trailing) && !Reduces(d, d.holdings[k], bar, market, v)
    requires LeavesTrailing(d, d.holdings[k], bar, market, v, trailing)
    ensures var q := Valued(d.holdings[k], bar.close, trailing);
      ManagesTo(d, k, bar, market, v,
        InState(d.(holdings := d.holdings[k := q]), q.symbol, if EntriesAllowed(market) then DeskState.InPosition else RiskProtection))
  {
    hide ExitDue, Reduces, LeavesTrailing, Signals, OpenR, RecordOf;
    var h := d.holdings[k];
    var q := Valued(h, bar.close, trailing);
    var d1 := d.(holdings := d.holdings[k := q]);
    var state := if EntriesAllowed(market) then DeskState.InPosition else RiskProtection;
    SameRecords(d, d1);
    RecordsOf(d1, InState(d1, h.symbol, state), h.symbol, state);
  }

  /** Managing a position does what its fields and the bars call for. */
  lemma ManagingFollowsRules(d: Desk, k: nat, bar: DailyBar, market: Market, v: View)
    requires k < |d.holdings|
    ensures ManagesTo(d, k, bar, market, v, ManageHolding(d, k, bar, market, v))
  {
    hide ManagesTo, WithExit, InState, WithSignal, TriggerFailure, LatestOf, TrailedHolding, TrailsTo, CurrentR, OpenR, TopKnown, TriggerBroke;
    var h := d.holdings[k];
    var q := h.(currentR := CurrentR(h, bar.close));
    RIsOpen(h, bar.close);
    BrokeIffFailed(d, h, v);
    TopIsKnown(v);
    assert q == Valued(h, bar.close, h.trailing);
    if bar.close <= h.stop || TriggerBroke(d, h, v) || FallsWithMarket(market, v) {
      ExitBranch(d, k, bar, market, v, h.trailing);
    } else if !EntriesAllowed(market) {
      var raised := if OpenR(h, bar.close) > 0.0 then Some(MaxReal(EffectiveStop(q), q.entry)) else h.trailing;
      StayBranch(d, k, bar, market, v, raised);
    } else if TopKnown(v) && OpenR(h, bar.close) > 0.0 {
      ReduceBranch(d, k, bar, market, v);
    } else if BreaksTrend(bar) {
      ExitBranch(d, k, bar, market, v, h.trailing);
    } else {
      var t := TrailedHolding(q, bar.close, bar.atr, q.currentR, market);
      TrailedRow(h, bar, market);
      if AtTrailing(t.trailing, bar.close) {
        ExitBranch(d, k, bar, market, v, t.trailing);
      } else {
        StayBranch(d, k, bar, market, v, t.trailing);
      }
    }
  }

  lemma TrailedRow(h: Holding, bar: DailyBar, market: Market)
    ensures var q := h.(currentR := OpenR(h, bar.close));
      var t := TrailedHolding(q, bar.close, bar.atr, q.currentR, market);
      t == Valued(h, bar.close, t.trailing) && TrailsTo(h, bar, market, t.trailing)
  {
    var q := h.(currentR := OpenR(h, bar.close));
    TrailedIs(q, bar, market);
  }

  // ------------------------------------------------------------ every advance

  /** From any sane desk, an advance of a symbol with an open position and a daily bar manages that position. */
  lemma AdvanceManages(d: Desk, s: Symbol, market: Market, trend: Trend, today: int, v: View, cfg: RiskConfig, k: nat)
    requires Sane(d, today) && v.daily.Some?
    requires k < |d.holdings| && d.holdings[k].symbol == s && d.holdings[k].status.PosOpen?
    ensures ManagesTo(d, k, v.daily.value, market, v, AdvanceSymbol(d, s, market, trend, today, v, cfg))
  {
    hide ManagesTo, ManageHolding, StillCooling, OnePending, LookForEntry, InState, InCooldown;
    assert HoldsOpen(d.holdings, s) && SymbolIsSane(d, s, today);
    var held := OpenHolding(d.holdings, s);
    assert held.Some? && held.value == k;
    assert ReconcilePending(d.signals, s, market, v).correction.None?;
    ManagingFollowsRules(d, k, v.daily.value, market, v);
  }

  /** So does every advance of every run that began sane, as its days pass. */
  lemma EveryAdvanceManages(d: Desk, steps: seq<Step>, cfg: RiskConfig, first: int, k: nat, last: Step)
    requires Sane(d, first) && DaysPass(steps, first) && last.AdvanceStep? && LastDay(steps, first) <= last.today
    requires var now := RunDesk(d, steps, cfg);
      k < |now.holdings| && now.holdings[k].symbol == last.symbol && now.holdings[k].status.PosOpen? && last.view.daily.Some?
    ensures var now := RunDesk(d, steps, cfg);
      ManagesTo(now, k, last.view.daily.value, last.market, last.view, Next(now, last, cfg))
  {
    hide RunDesk, AdvanceSymbol, Sane, ManagesTo;
    var now := RunDesk(d, steps, cfg);
    RunKeepsSane(d, steps, cfg, first);
    LaterStaysSane(now, LastDay(steps, first), last.today);
    AdvanceManages(now, last.symbol, last.market, last.trend, last.today, last.view, cfg, k);
  }
}
