/** Re-checking a pending entry: app/services/corrections.py. */
module Corrections {
  import opened Common
  import opened Ledger
  import opened Risk
  import opened EntryTrigger

  const EXPIRY_BARS: nat := 4
  const FAILURE_BARS: nat := 5
  const MAX_DEVIATION := 0.03

  datatype SignalKind = EntrySignal | ReduceSignal | ExitSignal

  datatype SignalStatus =
    | Pending | SignalApproved | SignalRejected
    | CancelledByStructure | CancelledByTrigger | Expired | CancelledByMarket

  /** A trade_signals row; the index is the id. */
  datatype Signal = Signal(
    symbol: Symbol,
    kind: SignalKind,
    status: SignalStatus,
    entry: Option<real>,
    stop: Option<real>,
    shares: Option<int>,
    allowedLoss: Option<real>,
    value: Option<real>,
    structureId: Option<nat>,
    fromQuarter: bool,
    triggerTs: Option<Time>,
    triggerLevel: Option<real>,
    createdAt: Time)

  datatype DailyBar = DailyBar(close: real, ma60: Option<real>, atr: Option<real>)

  datatype HourlyBar = HourlyBar(close: real, ma60: Option<real>)

  /** What one step reads of the market tables, about one symbol; nothing of it is assumed to fit the step before. */
  datatype View = View(
    bars: seq<TriggerBar>,
    histAt: Time -> Option<real>,
    daily: Option<DailyBar>,
    hourly: Option<HourlyBar>,
    structures: seq<Structure>,
    hourlyAtr: Time -> Option<real>,
    industryOf: Symbol -> string,
    equity: real,
    now: Time)

  // -------------------------------------------------------- trigger failure

  datatype Failure = BelowTrigger(at: Time) | BelowMa20(at: Time) | HistogramFell(at: Time) | Deviated

  /** The valid 15-minute bars after the trigger, oldest first. */
  function BarsAfter(bars: seq<TriggerBar>, ts: Time): seq<TriggerBar> {
    if bars == [] then []
    else if bars[0].ts > ts then [bars[0]] + BarsAfter(bars[1..], ts)
    else BarsAfter(bars[1..], ts)
  }

  function AfterTrigger(sig: Signal, v: View): seq<TriggerBar> {
    if sig.triggerTs.None? then [] else BarsAfter(v.bars, sig.triggerTs.value)
  }

  function HistOf(bar: TriggerBar): Option<real> {
    if bar.indicator.Some? then bar.indicator.value.hist else None
  }

  function Ma20Of(bar: TriggerBar): Option<real> {
    if bar.indicator.Some? then bar.indicator.value.ma20 else None
  }

  function BarFailure(bar: TriggerBar, previous: Option<real>, level: real): Option<Failure> {
    if bar.close < level then Some(BelowTrigger(bar.ts))
    else if Ma20Of(bar).Some? && bar.close < Ma20Of(bar).value then Some(BelowMa20(bar.ts))
    else if HistOf(bar).Some? && previous.Some? && HistOf(bar).value < previous.value then Some(HistogramFell(bar.ts))
    else None
  }

  function FirstFailure(bars: seq<TriggerBar>, previous: Option<real>, level: real): Option<Failure> {
    if bars == [] then None
    else if BarFailure(bars[0], previous, level).Some? then BarFailure(bars[0], previous, level)
    else FirstFailure(bars[1..], if HistOf(bars[0]).Some? then HistOf(bars[0]) else previous, level)
  }

  predicate Deviates(close: real, entry: real) {
    entry != 0.0 && AbsReal(close - entry) / entry > MAX_DEVIATION
  }

  function Watched(sig: Signal, v: View): seq<TriggerBar> {
    var after := AfterTrigger(sig, v);
    if |after| > FAILURE_BARS then after[..FAILURE_BARS] else after
  }

  /** `entry_trigger_failure_reason`. */
  function TriggerFailure(sig: Signal, v: View): Option<Failure> {
    if sig.triggerTs.None? || sig.triggerLevel.None? || sig.entry.None? || Watched(sig, v) == [] then None
    else
      var bars := Watched(sig, v);
      var failure := FirstFailure(bars, v.histAt(sig.triggerTs.value), sig.triggerLevel.value);
      if failure.Some? then failure
      else if Deviates(bars[|bars| - 1].close, sig.entry.value) then Some(Deviated)
      else None
  }

  /** The loop with its running histogram. */
  method EntryTriggerFailure(sig: Signal, v: View) returns (failure: Option<Failure>)
    ensures failure == TriggerFailure(sig, v)
  {
    if sig.triggerTs.None? || sig.triggerLevel.None? || sig.entry.None? {
      return None;
    }
    var bars := Watched(sig, v);
    if bars == [] {
      return None;
    }
    var level := sig.triggerLevel.value;
    var previousHist := v.histAt(sig.triggerTs.value);
    for i := 0 to |bars|
      invariant FirstFailure(bars[i..], previousHist, level) == FirstFailure(bars, v.histAt(sig.triggerTs.value), level)
    {
      var bar := bars[i];
      assert bars[i..][0] == bar && bars[i..][1..] == bars[i + 1..];
      if bar.close < level {
        return Some(BelowTrigger(bar.ts));
      }
      if bar.indicator.Some? {
        var ma20, hist := bar.indicator.value.ma20, bar.indicator.value.hist;
        if ma20.Some? && bar.close < ma20.value {
          return Some(BelowMa20(bar.ts));
        }
        if hist.Some? {
          if previousHist.Some? && hist.value < previousHist.value {
            return Some(HistogramFell(bar.ts));
          }
          previousHist := hist;
        }
      }
    }
    if Deviates(bars[|bars| - 1].close, sig.entry.value) {
      return Some(Deviated);
    }
    failure := None;
  }

  /** The histogram values that are known, oldest first. */
  function KnownHists(previous: Option<real>, bars: seq<TriggerBar>): seq<real> {
    (if previous.Some? then [previous.value] else []) + HistsOf(bars)
  }

  function HistsOf(bars: seq<TriggerBar>): seq<real> {
    if bars == [] then []
    else if HistOf(bars[0]).Some? then [HistOf(bars[0]).value] + HistsOf(bars[1..])
    else HistsOf(bars[1..])
  }

  predicate NeverFalls(xs: seq<real>) {
    forall i, j :: 0 <= i < j < |xs| ==> xs[i] <= xs[j]
  }

  /** The bar closed at or above the level and any known MA20. */
  predicate Stands(bar: TriggerBar, level: real) {
    bar.close >= level && (Ma20Of(bar).Some? ==> bar.close >= Ma20Of(bar).value)
  }

  lemma PrependKeepsOrder(x: real, xs: seq<real>)
    ensures NeverFalls([x] + xs) <==> NeverFalls(xs) && (xs != [] ==> x <= xs[0])
  {
    var ys := [x] + xs;
    assert forall i :: 0 <= i < |xs| ==> ys[i + 1] == xs[i];
    assert xs != [] ==> ys[0] == x && ys[1] == xs[0];
    if NeverFalls(ys) {
      forall i, j | 0 <= i < j < |xs| ensures xs[i] <= xs[j] {
        assert ys[i + 1] <= ys[j + 1];
      }
    }
    if NeverFalls(xs) && xs != [] && x <= xs[0] {
      forall i, j | 0 <= i < j < |ys| ensures ys[i] <= ys[j] {
        assert xs[0] <= xs[j - 1];
      }
    }
  }

  /** No bar fails exactly when every bar stands and the known histogram values never fall. */
  lemma {:induction false} NoFailureIff(bars: seq<TriggerBar>, previous: Option<real>, level: real)
    ensures FirstFailure(bars, previous, level).None? <==>
      (forall i :: 0 <= i < |bars| ==> Stands(bars[i], level)) && NeverFalls(KnownHists(previous, bars))
  {
    if bars != [] {
      var bar, rest := bars[0], bars[1..];
      NoFailureIff(rest, if HistOf(bar).Some? then HistOf(bar) else previous, level);
      assert (forall i :: 0 <= i < |bars| ==> Stands(bars[i], level)) <==> Stands(bar, level) && forall i :: 0 <= i < |rest| ==> Stands(rest[i], level) by {
      }
      hide Stands, NeverFalls, FirstFailure;
      KnownSplit(bars, previous);
    }
  }

  lemma KnownSplit(bars: seq<TriggerBar>, previous: Option<real>)
    requires bars != []
    ensures var h, rest := HistOf(bars[0]), bars[1..];
      NeverFalls(KnownHists(previous, bars)) <==>
        (h.Some? && previous.Some? ==> previous.value <= h.value) && NeverFalls(KnownHists(if h.Some? then h else previous, rest))
  {
    var h, rest := HistOf(bars[0]), bars[1..];
    if h.Some? {
      assert HistsOf(bars) == KnownHists(h, rest);
      if previous.Some? {
        PrependKeepsOrder(previous.value, HistsOf(bars));
      } else {
        assert KnownHists(previous, bars) == HistsOf(bars);
      }
    }
  }

  /** The first five bars after the trigger have kept what it stood for, and the last of them is near the entry. */
  ghost predicate TriggerHolds(sig: Signal, v: View) {
    var bars := Watched(sig, v);
    bars != [] && sig.triggerTs.Some? && sig.triggerLevel.Some? && sig.entry.Some? ==>
      (forall i :: 0 <= i < |bars| ==> Stands(bars[i], sig.triggerLevel.value))
      && NeverFalls(KnownHists(v.histAt(sig.triggerTs.value), bars))
      && !Deviates(bars[|bars| - 1].close, sig.entry.value)
  }

  lemma NoFailureIffTriggerHolds(sig: Signal, v: View)
    ensures TriggerFailure(sig, v).None? <==> TriggerHolds(sig, v)
  {
    hide FirstFailure, Stands, NeverFalls, Deviates;
    var bars := Watched(sig, v);
    if sig.triggerTs.Some? && sig.triggerLevel.Some? {
      NoFailureIff(bars, v.histAt(sig.triggerTs.value), sig.triggerLevel.value);
    }
  }

  // ------------------------------------------------------ structure failure

  predicate FailureChild(structures: seq<Structure>, id: nat) {
    exists i :: 0 <= i < |structures| && structures[i].kind.BottomFailed? && structures[i].parentId == Some(id)
  }

  /** `_structure_failure`: missing, flagged, or followed by its own failure event. */
  predicate StructureLost(structures: seq<Structure>, id: Option<nat>) {
    id.None? || id.value >= |structures| || structures[id.value].invalidated || structures[id.value].failed
    || FailureChild(structures, id.value)
  }

  // ---------------------------------------------------- the pending entry

  predicate IsPending(sig: Signal, s: Symbol, kind: SignalKind) {
    sig.symbol == s && sig.kind == kind && sig.status.Pending?
  }

  predicate PendingExists(signals: seq<Signal>, s: Symbol, kind: SignalKind) {
    exists i :: 0 <= i < |signals| && IsPending(signals[i], s, kind)
  }

  /** The newest PENDING ENTRY of a symbol. */
  function NewestPending(signals: seq<Signal>, s: Symbol): (r: Option<nat>)
    ensures r.Some? ==> r.value < |signals| && IsPending(signals[r.value], s, EntrySignal)
    ensures r.None? ==> forall i :: 0 <= i < |signals| ==> !IsPending(signals[i], s, EntrySignal)
    ensures r.Some? ==> forall i :: 0 <= i < |signals| && IsPending(signals[i], s, EntrySignal) ==> signals[i].createdAt <= signals[r.value].createdAt
  {
    if signals == [] then None
    else
      var n := |signals| - 1;
      var best := NewestPending(signals[..n], s);
      assert forall i :: 0 <= i < n ==> signals[..n][i] == signals[i];
      if IsPending(signals[n], s, EntrySignal) && (best.None? || signals[best.value].createdAt <= signals[n].createdAt) then Some(n)
      else best
  }

  /** The state the correction leads to, and whether it starts a cooldown. */
  datatype Correction = Correction(status: SignalStatus, target: DeskState, startCooldown: bool)

  datatype DeskState =
    | Idle | TrendOk | WatchBottom | BottomConfirmed | WaitTrigger | EntryCandidate
    | InPosition | RiskProtection | ExitCandidate | Cooldown

  /** The first rule a pending entry breaks: structure, trigger, age, market. */
  function CorrectionOf(sig: Signal, market: Market, v: View): Option<Correction> {
    if StructureLost(v.structures, sig.structureId) then Some(Correction(CancelledByStructure, Cooldown, true))
    else if TriggerFailure(sig, v).Some? then Some(Correction(CancelledByTrigger, WaitTrigger, false))
    else if |AfterTrigger(sig, v)| >= EXPIRY_BARS then Some(Correction(Expired, WaitTrigger, false))
    else if !Tradeable(market) then Some(Correction(CancelledByMarket, Idle, false))
    else None
  }

  datatype Reconciled = Reconciled(signals: seq<Signal>, correction: Option<Correction>)

  /** `reconcile_pending_entry`. */
  function ReconcilePending(signals: seq<Signal>, s: Symbol, market: Market, v: View): (r: Reconciled)
    ensures |r.signals| == |signals|
  {
    var at := NewestPending(signals, s);
    if at.None? then Reconciled(signals, None)
    else
      var c := CorrectionOf(signals[at.value], market, v);
      if c.None? then Reconciled(signals, None)
      else Reconciled(signals[at.value := signals[at.value].(status := c.value.status)], c)
  }

  /** The entry is still good: a live structure, a trigger that holds, young enough, in a tradeable market. */
  ghost predicate StillValid(sig: Signal, market: Market, v: View) {
    && sig.structureId.Some? && sig.structureId.value < |v.structures|
    && !v.structures[sig.structureId.value].invalidated && !v.structures[sig.structureId.value].failed
    && !FailureChild(v.structures, sig.structureId.value)
    && TriggerHolds(sig, v) && |AfterTrigger(sig, v)| < EXPIRY_BARS && Tradeable(market)
  }

  /** Nothing is corrected exactly when the entry is still good. */
  lemma UncorrectedIffValid(sig: Signal, market: Market, v: View)
    ensures CorrectionOf(sig, market, v).None? <==> StillValid(sig, market, v)
  {
    hide TriggerFailure, TriggerHolds, AfterTrigger, FailureChild;
    NoFailureIffTriggerHolds(sig, v);
  }
}
