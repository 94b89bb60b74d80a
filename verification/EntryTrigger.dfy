/** The 15-minute trend-resume trigger: app/services/entry_trigger.py. */
module EntryTrigger {
  import opened Common
  import opened Ledger
  import opened Risk

  const BREAKOUT_BARS: nat := 8
  const HISTOGRAM_BARS: nat := 3
  const MINIMUM_VOLUME := 0.65
  const MAX_STOP_PCT := 0.08
  const MAX_STOP_ATR := 4.0
  const HISTORY_BARS: nat := 9

  /** A valid 15-minute bar with the indicator row of its time, if there is one. */
  datatype TriggerBar = TriggerBar(ts: Time, high: real, close: real, volume: real, indicator: Option<Gauge>)

  /** The indicator columns the trigger and its re-check read. */
  datatype Gauge = Gauge(ma20: Option<real>, dif: Option<real>, hist: Option<real>, atr: Option<real>, volumeMa20: Option<real>)

  datatype Trigger = Fired(ts: Time, price: real, level: real) | Waiting | StructureExpired

  // ------------------------------------------------------------- the checks

  predicate AllIndicated(bars: seq<TriggerBar>) {
    forall i :: 0 <= i < |bars| ==> bars[i].indicator.Some?
  }

  predicate Complete(g: Gauge) {
    g.ma20.Some? && g.dif.Some? && g.hist.Some? && g.atr.Some? && g.volumeMa20.Some?
  }

  function BreakoutLevel(bars: seq<TriggerBar>): (m: real)
    requires bars != []
    ensures forall i :: 0 <= i < |bars| ==> bars[i].high <= m
    ensures exists i :: 0 <= i < |bars| && bars[i].high == m
  {
    if |bars| == 1 then bars[0].high
    else
      var n := |bars| - 1;
      var m := BreakoutLevel(bars[..n]);
      assert forall i :: 0 <= i < n ==> bars[..n][i] == bars[i];
      assert bars[..n] == bars[0..n];
      if m < bars[n].high then bars[n].high else m
  }

  /** Two successive histogram values are known and rise. */
  predicate Rises(earlier: TriggerBar, later: TriggerBar) {
    earlier.indicator.Some? && later.indicator.Some? && earlier.indicator.value.hist.Some? && later.indicator.value.hist.Some?
    && later.indicator.value.hist.value > earlier.indicator.value.hist.value
  }

  /** `structure.invalidation_level or structure.pivot_low`. */
  function InvalidationLevel(st: Structure): Option<real> {
    if st.invalidation.Some? && st.invalidation.value != 0.0 then st.invalidation else st.pivotLow
  }

  predicate StopIsNear(close: real, level: real, atr: real) {
    close != 0.0 && (close - level) / close <= MAX_STOP_PCT && close - level <= atr * MAX_STOP_ATR
  }

  /** The conditions on the last nine bars, oldest first, once every indicator is there. */
  predicate Breakout(last: seq<TriggerBar>, st: Structure)
    requires |last| == HISTORY_BARS && AllIndicated(last) && Complete(last[8].indicator.value)
  {
    var bar, g := last[8], last[8].indicator.value;
    var level := InvalidationLevel(st);
    && bar.close >= g.ma20.value
    && bar.close > BreakoutLevel(last[..8])
    && Rises(last[6], last[7]) && Rises(last[7], last[8])
    && last[7].indicator.value.dif.Some? && g.dif.value >= last[7].indicator.value.dif.value
    && bar.volume >= g.volumeMa20.value * MINIMUM_VOLUME
    && level.Some? && level.value < bar.close && StopIsNear(bar.close, level.value, g.atr.value)
  }

  /** `evaluate_15m_trend_resume`; `bars` are the valid 15-minute bars of the symbol, oldest first. */
  function EvaluateTrigger(bars: seq<TriggerBar>, st: Structure): Trigger {
    if !st.kind.BottomStructure? || !st.hourly || st.invalidated || st.failed || bars == [] then Waiting
    else
      var latest := bars[|bars| - 1];
      if st.expiresAt.Some? && latest.ts > st.expiresAt.value then StructureExpired
      else if latest.ts <= st.ts || |bars| < HISTORY_BARS then Waiting
      else
        var last := bars[|bars| - HISTORY_BARS..];
        if !AllIndicated(last) || !Complete(last[8].indicator.value) || !Breakout(last, st) then Waiting
        else Fired(latest.ts, latest.close, BreakoutLevel(last[..8]))
  }

  /** The last bar resumes the trend over the breakout level of the eight bars before it, bar by bar. */
  ghost predicate TrendResumed(bars: seq<TriggerBar>, st: Structure, level: real)
    requires |bars| >= HISTORY_BARS
  {
    var n := |bars| - 1;
    && bars[n].close > level
    && (forall i :: n - BREAKOUT_BARS <= i < n ==> bars[i].high <= level)
    && (exists i :: n - BREAKOUT_BARS <= i < n && bars[i].high == level)
    && (forall i :: n - BREAKOUT_BARS <= i <= n ==> bars[i].indicator.Some?)
    && Complete(bars[n].indicator.value)
    && bars[n].close >= bars[n].indicator.value.ma20.value
    && (forall i :: n - HISTOGRAM_BARS + 1 < i <= n ==> Rises(bars[i - 1], bars[i]))
    && bars[n - 1].indicator.value.dif.Some? && bars[n].indicator.value.dif.value >= bars[n - 1].indicator.value.dif.value
    && bars[n].volume >= bars[n].indicator.value.volumeMa20.value * MINIMUM_VOLUME
    && InvalidationLevel(st).Some? && InvalidationLevel(st).value < bars[n].close
    && StopIsNear(bars[n].close, InvalidationLevel(st).value, bars[n].indicator.value.atr.value)
  }

  /** What a trigger stands for: a live bottom structure, and a later bar that resumes the trend. */
  ghost predicate Resumes(bars: seq<TriggerBar>, st: Structure, ts: Time, price: real, level: real) {
    && st.kind.BottomStructure? && st.hourly && !st.invalidated && !st.failed
    && |bars| >= HISTORY_BARS
    && ts == bars[|bars| - 1].ts && price == bars[|bars| - 1].close
    && st.ts < ts && (st.expiresAt.Some? ==> ts <= st.expiresAt.value)
    && TrendResumed(bars, st, level)
  }

  lemma BreakoutIffResumed(bars: seq<TriggerBar>, st: Structure, level: real)
    requires |bars| >= HISTORY_BARS
    ensures var last := bars[|bars| - HISTORY_BARS..];
      TrendResumed(bars, st, level) <==>
        AllIndicated(last) && Complete(last[8].indicator.value) && Breakout(last, st) && level == BreakoutLevel(last[..8])
  {
    var n, last := |bars| - 1, bars[|bars| - HISTORY_BARS..];
    assert last[8] == bars[n] && last[7] == bars[n - 1] && last[6] == bars[n - 2];
    hide BreakoutLevel, Complete, StopIsNear, InvalidationLevel, Rises, AllIndicated;
  }

  /** The trigger fires exactly on a resumption, and reports its bar, close and level. */
  lemma FiredIffResumes(bars: seq<TriggerBar>, st: Structure, ts: Time, price: real, level: real)
    ensures EvaluateTrigger(bars, st) == Fired(ts, price, level) <==> Resumes(bars, st, ts, price, level)
  {
    hide Breakout, TrendResumed, AllIndicated, Complete, BreakoutLevel;
    if |bars| >= HISTORY_BARS {
      BreakoutIffResumed(bars, st, level);
    }
  }

}
