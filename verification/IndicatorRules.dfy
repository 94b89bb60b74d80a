/** Every column of an indicator row, on the bars themselves (app/services/indicators.py:40-214). */
module IndicatorRules {
  import opened Common
  import opened Indicators
  import opened IndicatorRows

  // ---------------------------------------------------------- the averages

  /** `x` is the sum of the values from `lo` up to `hi`: the last difference of the running sums. */
  ghost predicate Sums(xs: seq<real>, ss: seq<real>) {
    |ss| == |xs| + 1 && ss[0] == 0.0 && forall i :: 0 <= i < |xs| ==> ss[i + 1] == ss[i] + xs[i]
  }

  /** The mean of the last `window` values, once there are so many. */
  ghost predicate MeanOf(xs: seq<real>, window: nat, i: nat, mean: Option<real>)
    requires i < |xs|
  {
    if i + 1 < window then mean.None?
    else mean.Some? && exists ss :: Sums(xs, ss) && mean.value * window as real == ss[i + 1] - ss[i + 1 - window]
  }

  /** The exponential average of a span: from the first value on, two parts in `span + 1` of each new one. */
  ghost predicate IsEma(xs: seq<real>, span: nat, es: seq<real>) {
    |es| == |xs| && (xs != [] ==> es[0] == xs[0])
    && forall i :: 0 < i < |xs| ==> (span as real + 1.0) * es[i] == 2.0 * xs[i] + (span as real - 1.0) * es[i - 1]
  }

  /** Wilder's averages of the rises and the falls: a mean over the first `period`, then one part in `period` of each new one. */
  ghost predicate IsWilder(changes: seq<real>, period: nat, i: nat, averages: seq<real>)
    requires 0 < period <= i < |changes|
  {
    |averages| == |changes| && (exists ss :: Sums(changes, ss) && averages[period] * period as real == ss[period + 1])
    && forall j :: period < j <= i ==> averages[j] * period as real == averages[j - 1] * (period as real - 1.0) + changes[j]
  }

  // ---------------------------------------------------------------- columns

  ghost function Closes(bars: seq<Bar>): (xs: seq<real>)
    ensures |xs| == |bars|
  {
    seq(|bars|, i requires 0 <= i < |bars| => bars[i].close)
  }

  ghost function Volumes(bars: seq<Bar>): (xs: seq<real>)
    ensures |xs| == |bars|
  {
    seq(|bars|, i requires 0 <= i < |bars| => bars[i].volume)
  }

  /** The turnover, if it is known and positive, else close times volume. */
  ghost predicate TradedFor(bars: seq<Bar>, ts: seq<real>) {
    |ts| == |bars| && forall i :: 0 <= i < |bars| ==>
      ts[i] == if bars[i].turnover.Some? && bars[i].turnover.value > 0.0 then bars[i].turnover.value else bars[i].close * bars[i].volume
  }

  predicate AtLeast(x: real, d: real) {
    x >= d && x >= -d
  }

  /** The greatest of the bar's own range and its distances from the close before. */
  ghost predicate IsRange(bars: seq<Bar>, i: nat, x: real)
    requires i < |bars|
  {
    var own := bars[i].high - bars[i].low;
    if i == 0 then x == own
    else
      var up, down := bars[i].high - bars[i - 1].close, bars[i].low - bars[i - 1].close;
      x >= own && AtLeast(x, up) && AtLeast(x, down) && (x == own || x == up || x == -up || x == down || x == -down)
  }

  ghost predicate Ranges(bars: seq<Bar>, xs: seq<real>) {
    |xs| == |bars| && forall i :: 0 <= i < |bars| ==> IsRange(bars, i, xs[i])
  }

  // -------------------------------------------------------------- the rules

  ghost predicate MeansHold(bars: seq<Bar>, rows: seq<Row>)
    requires |rows| == |bars|
  {
    forall i: nat :: i < |bars| ==>
      && MeanOf(Closes(bars), 5, i, rows[i].ma5) && MeanOf(Closes(bars), 10, i, rows[i].ma10)
      && MeanOf(Closes(bars), 20, i, rows[i].ma20) && MeanOf(Closes(bars), 60, i, rows[i].ma60)
      && MeanOf(Volumes(bars), 20, i, rows[i].volumeMa20)
      && (exists xs :: Ranges(bars, xs) && MeanOf(xs, 14, i, rows[i].atr))
      && (exists ts :: TradedFor(bars, ts) && rows[i].turnover == ts[i] && MeanOf(ts, 20, i, rows[i].turnoverMa20))
  }

  ghost predicate EmasHold(bars: seq<Bar>, rows: seq<Row>)
    requires |rows| == |bars|
  {
    && IsEma(Closes(bars), 5, seq(|rows|, i requires 0 <= i < |rows| => rows[i].ema5))
    && IsEma(Closes(bars), 10, seq(|rows|, i requires 0 <= i < |rows| => rows[i].ema10))
    && IsEma(Closes(bars), 20, seq(|rows|, i requires 0 <= i < |rows| => rows[i].ema20))
    && IsEma(Closes(bars), 60, seq(|rows|, i requires 0 <= i < |rows| => rows[i].ema60))
  }

  /** DIF is the 12 less the 26 average of the closes, DEA the 9 average of DIF from row 25 on, the histogram twice their difference. */
  ghost predicate IsMacd(bars: seq<Bar>, rows: seq<Row>, fast: seq<real>, slow: seq<real>, signal: seq<real>)
    requires |rows| == |bars|
  {
    && IsEma(Closes(bars), 12, fast) && IsEma(Closes(bars), 26, slow)
    && IsEma(seq(|rows|, i requires 0 <= i < |rows| => rows[i].dif), 9, signal)
    && forall i :: 0 <= i < |rows| ==>
         && rows[i].dif == fast[i] - slow[i]
         && rows[i].dea == (if i < 25 then None else Some(signal[i]))
         && (rows[i].hist.Some? <==> i >= 25) && (i >= 25 ==> rows[i].hist.value == 2.0 * (rows[i].dif - signal[i]))
  }

  ghost predicate MacdHolds(bars: seq<Bar>, rows: seq<Row>)
    requires |rows| == |bars|
  {
    exists fast, slow, signal :: IsMacd(bars, rows, fast, slow, signal)
  }

  /** Two deviations of the last 20 closes over and under their mean. */
  ghost predicate BandsHold(bars: seq<Bar>, std: Deviation, rows: seq<Row>)
    requires |rows| == |bars|
  {
    forall i :: 0 <= i < |bars| ==>
      if i < 19 then rows[i].bollUpper.None? && rows[i].bollLower.None?
      else
        && rows[i].ma20.Some? && rows[i].bollUpper.Some? && rows[i].bollLower.Some?
        && rows[i].bollUpper.value == rows[i].ma20.value + 2.0 * std(Closes(bars)[i - 19..i + 1])
        && rows[i].bollLower.value == rows[i].ma20.value - 2.0 * std(Closes(bars)[i - 19..i + 1])
  }

  /** The rises of a series, zero where it does not rise. */
  ghost predicate AreRises(xs: seq<real>, gains: seq<real>) {
    |gains| == |xs| && (xs != [] ==> gains[0] == 0.0)
    && forall i :: 0 < i < |xs| ==> gains[i] == if xs[i] > xs[i - 1] then xs[i] - xs[i - 1] else 0.0
  }

  ghost predicate AreFalls(xs: seq<real>, losses: seq<real>) {
    |losses| == |xs| && (xs != [] ==> losses[0] == 0.0)
    && forall i :: 0 < i < |xs| ==> losses[i] == if xs[i] < xs[i - 1] then xs[i - 1] - xs[i] else 0.0
  }

  /** The share of the rises in the whole movement, out of 100; 100 when nothing fell. */
  ghost predicate IsStrength(xs: seq<real>, period: nat, i: nat, gains: seq<real>, losses: seq<real>, ups: seq<real>, downs: seq<real>, r: real)
    requires 0 < period <= i < |xs|
  {
    && AreRises(xs, gains) && AreFalls(xs, losses) && IsWilder(gains, period, i, ups) && IsWilder(losses, period, i, downs)
    && if downs[i] == 0.0 then r == 100.0 else r * (ups[i] + downs[i]) == 100.0 * ups[i]
  }

  /** None before index `period`. */
  ghost predicate StrengthAt(xs: seq<real>, period: nat, i: nat, r: Option<real>)
    requires 0 < period && i < |xs|
  {
    if i < period then r.None?
    else r.Some? && exists gains, losses, ups, downs :: IsStrength(xs, period, i, gains, losses, ups, downs, r.value)
  }

  ghost predicate StrengthsHold(bars: seq<Bar>, rows: seq<Row>)
    requires |rows| == |bars|
  {
    forall i: nat :: i < |bars| ==> StrengthAt(Closes(bars), 6, i, rows[i].rsi6) && StrengthAt(Closes(bars), 14, i, rows[i].rsi14)
  }

  /** Where the close lies between the lowest low and the highest high of nine bars, out of 100; 50 when they coincide. */
  ghost predicate LiesAt(bars: seq<Bar>, i: nat, low: real, high: real, x: real)
    requires 8 <= i < |bars|
  {
    && (forall k :: i - 8 <= k <= i ==> low <= bars[k].low) && (exists k :: i - 8 <= k <= i && bars[k].low == low)
    && (forall k :: i - 8 <= k <= i ==> bars[k].high <= high) && (exists k :: i - 8 <= k <= i && bars[k].high == high)
    && if low == high then x == 50.0 else x * (high - low) == 100.0 * (bars[i].close - low)
  }

  /** K moves a third of the way to where the close lies. */
  ghost predicate KMoves(bars: seq<Bar>, i: nat, before: real, k: real)
    requires 8 <= i < |bars|
  {
    exists low, high, x :: LiesAt(bars, i, low, high, x) && 3.0 * k == 2.0 * before + x
  }

  /** K and D start at 50 and move a third of the way; J is three K less two D; nothing is reported before the ninth bar. */
  ghost predicate IsKdj(bars: seq<Bar>, rows: seq<Row>, ks: seq<real>, ds: seq<real>)
    requires |rows| == |bars|
  {
    |ks| == |ds| == |bars| && forall i :: 0 <= i < |bars| ==>
      if i < 8 then ks[i] == 50.0 && ds[i] == 50.0 && rows[i].kdj == Kdj(None, None, None)
      else
        && KMoves(bars, i, ks[i - 1], ks[i])
        && 3.0 * ds[i] == 2.0 * ds[i - 1] + ks[i]
        && rows[i].kdj.k == Some(ks[i]) && rows[i].kdj.d == Some(ds[i]) && rows[i].kdj.j.Some?
        && rows[i].kdj.j.value == 3.0 * ks[i] - 2.0 * ds[i]
  }

  ghost predicate KdjHolds(bars: seq<Bar>, rows: seq<Row>)
    requires |rows| == |bars|
  {
    exists ks, ds :: IsKdj(bars, rows, ks, ds)
  }

  /** The volume to its mean, the change and the range to the close before, where there is one that is not zero. */
  predicate RatiosAre(bars: seq<Bar>, i: nat, row: Row)
    requires i < |bars|
  {
    && (if row.volumeMa20.Some? && row.volumeMa20.value != 0.0
        then row.volumeRatio.Some? && row.volumeRatio.value * row.volumeMa20.value == bars[i].volume
        else row.volumeRatio.None?)
    && (if i > 0 && bars[i - 1].close != 0.0
        then row.changePct.Some? && (row.changePct.value + 1.0) * bars[i - 1].close == bars[i].close
             && row.amplitudePct.Some? && row.amplitudePct.value * bars[i - 1].close == bars[i].high - bars[i].low
        else row.changePct.None? && row.amplitudePct.None?)
  }

  ghost predicate RatiosHold(bars: seq<Bar>, rows: seq<Row>)
    requires |rows| == |bars|
  {
    forall i: nat :: i < |bars| ==> RatiosAre(bars, i, rows[i])
  }

  // ----------------------------------------------------------------- proofs

  lemma {:induction false} RunningSums(xs: seq<real>) returns (ss: seq<real>)
    ensures Sums(xs, ss) && forall i :: 0 <= i <= |xs| ==> ss[i] == SumOf(xs, 0, i)
  {
    ss := seq(|xs| + 1, i requires 0 <= i <= |xs| => SumOf(xs, 0, i));
  }

  lemma {:induction false} SumSplits(xs: seq<real>, lo: nat, hi: nat)
    requires lo <= hi <= |xs|
    ensures SumOf(xs, lo, hi) == SumOf(xs, 0, hi) - SumOf(xs, 0, lo)
  {
    if lo < hi {
      SumSplits(xs, lo, hi - 1);
    }
  }

  lemma MeanByRule(xs: seq<real>, window: nat, i: nat)
    requires 0 < window && i < |xs|
    ensures MeanOf(xs, window, i, WindowMean(xs, window, i))
  {
    hide SumOf;
    if window <= i + 1 {
      var ss := RunningSums(xs);
      SumSplits(xs, i + 1 - window, i + 1);
      var sum := SumOf(xs, i + 1 - window, i + 1);
      Quotient(sum, window as real);
      assert Sums(xs, ss) && WindowMean(xs, window, i).value * window as real == ss[i + 1] - ss[i + 1 - window];
    }
  }

  lemma Quotient(x: real, d: real)
    requires d != 0.0
    ensures x / d * d == x
  {
  }

  function Emas(xs: seq<real>, span: nat): (es: seq<real>)
    ensures |es| == |xs| && forall i :: 0 <= i < |xs| ==> es[i] == EmaAt(xs, span, i)
  {
    seq(|xs|, i requires 0 <= i < |xs| => EmaAt(xs, span, i))
  }

  lemma EmaByRule(xs: seq<real>, span: nat)
    ensures IsEma(xs, span, Emas(xs, span))
  {
    var es := Emas(xs, span);
    hide EmaAt;
    if xs != [] {
      FirstEma(xs, span);
    }
    forall i | 0 < i < |xs| ensures (span as real + 1.0) * es[i] == 2.0 * xs[i] + (span as real - 1.0) * es[i - 1] {
      NextEma(xs, span, i);
    }
  }

  lemma FirstEma(xs: seq<real>, span: nat)
    requires xs != []
    ensures EmaAt(xs, span, 0) == xs[0]
  {
  }

  lemma NextEma(xs: seq<real>, span: nat, i: nat)
    requires 0 < i < |xs|
    ensures (span as real + 1.0) * EmaAt(xs, span, i) == 2.0 * xs[i] + (span as real - 1.0) * EmaAt(xs, span, i - 1)
  {
    hide Blend;
    BlendOfSpan(span as real, xs[i], EmaAt(xs, span, i - 1));
  }

  lemma BlendOfSpan(span: real, x: real, e: real)
    requires span >= 0.0
    ensures (span + 1.0) * Blend(2.0 / (span + 1.0), x, e) == 2.0 * x + (span - 1.0) * e
  {
    var alpha := 2.0 / (span + 1.0);
    Quotient(2.0, span + 1.0);
    assert (span + 1.0) * alpha == 2.0;
    assert (span + 1.0) * (alpha * x) == ((span + 1.0) * alpha) * x;
    assert (span + 1.0) * ((1.0 - alpha) * e) == (span + 1.0) * e - ((span + 1.0) * alpha) * e;
  }

  lemma RangesByRule(bars: seq<Bar>)
    ensures Ranges(bars, ColumnsOf(bars).ranges) && TradedFor(bars, ColumnsOf(bars).turnovers)
    ensures ColumnsOf(bars).prices.closes == Closes(bars) && ColumnsOf(bars).volumes == Volumes(bars)
  {
    hide DifAt;
  }

  lemma MeansByRule(bars: seq<Bar>, std: Deviation)
    ensures MeansHold(bars, RowsInOrder(bars, std))
  {
    var c, rows := ColumnsOf(bars), RowsInOrder(bars, std);
    RangesByRule(bars);
    hide ColumnsOf, MeanOf, WindowMean, EmaAt, DeaAt, HistAt, BandAt, RsiAt, KdjAt, Closes, Volumes;
    forall i: nat | i < |bars|
      ensures MeanOf(Closes(bars), 5, i, rows[i].ma5) && MeanOf(Closes(bars), 10, i, rows[i].ma10)
      ensures MeanOf(Closes(bars), 20, i, rows[i].ma20) && MeanOf(Closes(bars), 60, i, rows[i].ma60)
      ensures MeanOf(Volumes(bars), 20, i, rows[i].volumeMa20)
      ensures exists xs :: Ranges(bars, xs) && MeanOf(xs, 14, i, rows[i].atr)
      ensures exists ts :: TradedFor(bars, ts) && rows[i].turnover == ts[i] && MeanOf(ts, 20, i, rows[i].turnoverMa20)
    {
      MeanByRule(c.prices.closes, 5, i);
      MeanByRule(c.prices.closes, 10, i);
      MeanByRule(c.prices.closes, 20, i);
      MeanByRule(c.prices.closes, 60, i);
      MeanByRule(c.volumes, 20, i);
      MeanByRule(c.ranges, 14, i);
      MeanByRule(c.turnovers, 20, i);
    }
  }

  lemma EmasByRule(bars: seq<Bar>, std: Deviation)
    ensures EmasHold(bars, RowsInOrder(bars, std))
  {
    var rows := RowsInOrder(bars, std);
    RangesByRule(bars);
    hide EmaAt, IsEma, DeaAt, HistAt, BandAt, RsiAt, KdjAt, WindowMean, Closes, Volumes, DifAt, TrueRange;
    EmaByRule(Closes(bars), 5);
    EmaByRule(Closes(bars), 10);
    EmaByRule(Closes(bars), 20);
    EmaByRule(Closes(bars), 60);
    assert seq(|rows|, i requires 0 <= i < |rows| => rows[i].ema5) == Emas(Closes(bars), 5);
    assert seq(|rows|, i requires 0 <= i < |rows| => rows[i].ema10) == Emas(Closes(bars), 10);
    assert seq(|rows|, i requires 0 <= i < |rows| => rows[i].ema20) == Emas(Closes(bars), 20);
    assert seq(|rows|, i requires 0 <= i < |rows| => rows[i].ema60) == Emas(Closes(bars), 60);
  }

  lemma MacdByRule(bars: seq<Bar>, std: Deviation)
    ensures MacdHolds(bars, RowsInOrder(bars, std))
  {
    var rows, closes := RowsInOrder(bars, std), Closes(bars);
    RangesByRule(bars);
    hide EmaAt, IsEma, BandAt, RsiAt, KdjAt, WindowMean, Closes, Volumes, TrueRange;
    var fast, slow := Emas(closes, 12), Emas(closes, 26);
    var difs := seq(|rows|, i requires 0 <= i < |rows| => rows[i].dif);
    assert difs == ColumnsOf(bars).difs;
    var signal := Emas(difs, 9);
    EmaByRule(closes, 12);
    EmaByRule(closes, 26);
    EmaByRule(difs, 9);
    assert IsMacd(bars, rows, fast, slow, signal);
  }

  lemma BandsByRule(bars: seq<Bar>, std: Deviation)
    ensures BandsHold(bars, std, RowsInOrder(bars, std))
  {
    RangesByRule(bars);
    hide EmaAt, DeaAt, HistAt, RsiAt, KdjAt, Volumes, TrueRange, SumOf, DifAt;
  }

  lemma RatioByRule(x: real, base: Option<real>)
    ensures var r := RatioTo(x, base);
      if base.Some? && base.value != 0.0 then r.Some? && r.value * base.value == x else r.None?
  {
    if base.Some? && base.value != 0.0 {
      Quotient(x, base.value);
    }
  }

  lemma ChangeByRule(p: Prices, i: nat)
    requires SameLength(p) && i < |p.closes|
    ensures var change, amplitude := ChangeAt(p.closes, i), AmplitudeAt(p, i);
      if i > 0 && p.closes[i - 1] != 0.0 then
        && change.Some? && (change.value + 1.0) * p.closes[i - 1] == p.closes[i]
        && amplitude.Some? && amplitude.value * p.closes[i - 1] == p.highs[i] - p.lows[i]
      else change.None? && amplitude.None?
  {
    if i > 0 && p.closes[i - 1] != 0.0 {
      Quotient(p.closes[i], p.closes[i - 1]);
      Quotient(p.highs[i] - p.lows[i], p.closes[i - 1]);
    }
  }

  lemma RatiosByRule(bars: seq<Bar>, std: Deviation)
    ensures RatiosHold(bars, RowsInOrder(bars, std))
  {
    RangesByRule(bars);
    var c := ColumnsOf(bars);
    hide EmaAt, DeaAt, HistAt, BandAt, RsiAt, KdjAt, TrueRange, WindowMean, DifAt, RatioTo, ChangeAt, AmplitudeAt;
    forall i: nat | i < |bars| ensures RatiosAre(bars, i, RowsInOrder(bars, std)[i]) {
      RatioByRule(c.volumes[i], WindowMean(c.volumes, 20, i));
      ChangeByRule(c.prices, i);
    }
  }

  // ------------------------------------------------------------ the strength

  function Rises(xs: seq<real>): (gains: seq<real>)
    ensures |gains| == |xs|
  {
    seq(|xs|, i requires 0 <= i < |xs| => if i == 0 then 0.0 else Gain(xs, i))
  }

  function Falls(xs: seq<real>): (losses: seq<real>)
    ensures |losses| == |xs|
  {
    seq(|xs|, i requires 0 <= i < |xs| => if i == 0 then 0.0 else Loss(xs, i))
  }

  lemma {:induction false} ChangeSums(xs: seq<real>, i: nat)
    requires i < |xs|
    ensures GainSum(xs, i) == SumOf(Rises(xs), 0, i + 1) && LossSum(xs, i) == SumOf(Falls(xs), 0, i + 1)
  {
    if i > 0 {
      ChangeSums(xs, i - 1);
    }
  }

  lemma SmoothByRule(average: real, period: nat, x: real)
    requires 0 < period
    ensures Smooth(average, period, x) * period as real == average * (period as real - 1.0) + x
  {
    Quotient(average * (period - 1) as real + x, period as real);
    assert (period - 1) as real == period as real - 1.0;
  }

  function Ups(xs: seq<real>, period: nat): (ups: seq<real>)
    requires 0 < period
    ensures |ups| == |xs| && forall i :: period <= i < |xs| ==> ups[i] == AverageGain(xs, period, i)
  {
    seq(|xs|, i requires 0 <= i < |xs| => if i < period then 0.0 else AverageGain(xs, period, i))
  }

  function Downs(xs: seq<real>, period: nat): (downs: seq<real>)
    requires 0 < period
    ensures |downs| == |xs| && forall i :: period <= i < |xs| ==> downs[i] == AverageLoss(xs, period, i)
  {
    seq(|xs|, i requires 0 <= i < |xs| => if i < period then 0.0 else AverageLoss(xs, period, i))
  }

  lemma FirstAverages(xs: seq<real>, period: nat)
    requires 0 < period < |xs|
    ensures AverageGain(xs, period, period) * period as real == SumOf(Rises(xs), 0, period + 1)
    ensures AverageLoss(xs, period, period) * period as real == SumOf(Falls(xs), 0, period + 1)
  {
    hide SumOf, Rises, Falls;
    ChangeSums(xs, period);
    Quotient(GainSum(xs, period), period as real);
    Quotient(LossSum(xs, period), period as real);
  }

  lemma NextAverages(xs: seq<real>, period: nat, i: nat)
    requires 0 < period < i < |xs|
    ensures AverageGain(xs, period, i) * period as real == AverageGain(xs, period, i - 1) * (period as real - 1.0) + Rises(xs)[i]
    ensures AverageLoss(xs, period, i) * period as real == AverageLoss(xs, period, i - 1) * (period as real - 1.0) + Falls(xs)[i]
  {
    hide Smooth;
    SmoothByRule(AverageGain(xs, period, i - 1), period, Gain(xs, i));
    SmoothByRule(AverageLoss(xs, period, i - 1), period, Loss(xs, i));
  }

  /** A series that starts at the mean and goes on by Wilder's step. */
  lemma StepsAreWilder(changes: seq<real>, period: nat, i: nat, averages: seq<real>)
    requires 0 < period <= i < |changes| == |averages|
    requires averages[period] * period as real == SumOf(changes, 0, period + 1)
    requires forall j :: period < j <= i ==> averages[j] * period as real == averages[j - 1] * (period as real - 1.0) + changes[j]
    ensures IsWilder(changes, period, i, averages)
  {
    hide SumOf, Sums;
    var ss := RunningSums(changes);
    SumsAreSized(changes, ss);
  }

  lemma WilderByRule(xs: seq<real>, period: nat, i: nat)
    requires 0 < period <= i < |xs|
    ensures IsWilder(Rises(xs), period, i, Ups(xs, period)) && IsWilder(Falls(xs), period, i, Downs(xs, period))
  {
    hide SumOf, AverageGain, AverageLoss, Rises, Falls, IsWilder;
    var ups, downs := Ups(xs, period), Downs(xs, period);
    hide Ups, Downs;
    FirstAverages(xs, period);
    forall j | period < j <= i
      ensures ups[j] * period as real == ups[j - 1] * (period as real - 1.0) + Rises(xs)[j]
      ensures downs[j] * period as real == downs[j - 1] * (period as real - 1.0) + Falls(xs)[j]
    {
      NextAverages(xs, period, j);
    }
    StepsAreWilder(Rises(xs), period, i, ups);
    StepsAreWilder(Falls(xs), period, i, downs);
  }

  lemma SumsAreSized(xs: seq<real>, ss: seq<real>)
    requires Sums(xs, ss)
    ensures |ss| == |xs| + 1
  {
  }

  lemma IndexByRule(gain: real, loss: real)
    requires gain >= 0.0 && loss >= 0.0
    ensures loss != 0.0 ==> 1.0 + gain / loss != 0.0
    ensures if loss == 0.0 then StrengthIndex(gain, loss) == 100.0 else StrengthIndex(gain, loss) * (gain + loss) == 100.0 * gain
  {
    if loss != 0.0 {
      QuotientInRange(gain, loss);
      var q := gain / loss;
      Quotient(gain, loss);
      Quotient(100.0, 1.0 + q);
      var t := 100.0 / (1.0 + q);
      assert (1.0 + q) * loss == gain + loss;
      assert t * (gain + loss) == (t * (1.0 + q)) * loss;
    }
  }

  lemma ChangesAre(xs: seq<real>)
    ensures AreRises(xs, Rises(xs)) && AreFalls(xs, Falls(xs))
  {
  }

  lemma StrengthByRule(xs: seq<real>, period: nat, i: nat)
    requires 0 < period && i < |xs|
    ensures StrengthAt(xs, period, i, RsiAt(xs, period, i))
  {
    hide IsWilder, AverageGain, AverageLoss, StrengthIndex, Rises, Falls, AreRises, AreFalls;
    if period <= i {
      AveragesNonNegative(xs, period, i);
      IndexByRule(AverageGain(xs, period, i), AverageLoss(xs, period, i));
      WilderByRule(xs, period, i);
      ChangesAre(xs);
      assert IsStrength(xs, period, i, Rises(xs), Falls(xs), Ups(xs, period), Downs(xs, period), RsiAt(xs, period, i).value);
    }
  }

  lemma StrengthsByRule(bars: seq<Bar>, std: Deviation)
    ensures StrengthsHold(bars, RowsInOrder(bars, std))
  {
    RangesByRule(bars);
    var rows := RowsInOrder(bars, std);
    hide EmaAt, DeaAt, HistAt, BandAt, RsiAt, KdjAt, TrueRange, WindowMean, DifAt, StrengthAt, Closes, Volumes;
    forall i: nat | i < |bars| ensures StrengthAt(Closes(bars), 6, i, rows[i].rsi6) && StrengthAt(Closes(bars), 14, i, rows[i].rsi14) {
      StrengthByRule(Closes(bars), 6, i);
      StrengthByRule(Closes(bars), 14, i);
    }
  }

  // ---------------------------------------------------------- the stochastic

  lemma StochasticByRule(bars: seq<Bar>, i: nat)
    requires 8 <= i < |bars|
    ensures var p := PricesOf(bars);
      LiesAt(bars, i, LowestOf(p.lows, i - 8, i + 1), HighestOf(p.highs, i - 8, i + 1), RsvAt(p, 9, i))
  {
    hide LowestOf, HighestOf;
    var p := PricesOf(bars);
    var low, high := LowestOf(p.lows, i - 8, i + 1), HighestOf(p.highs, i - 8, i + 1);
    assert forall k :: i - 8 <= k <= i ==> p.lows[k] == bars[k].low && p.highs[k] == bars[k].high;
    if low != high {
      Quotient(bars[i].close - low, high - low);
    }
  }

  lemma KdjByRule(bars: seq<Bar>, std: Deviation)
    ensures KdjHolds(bars, RowsInOrder(bars, std))
  {
    var rows, p := RowsInOrder(bars, std), PricesOf(bars);
    var ks := seq(|bars|, i requires 0 <= i < |bars| => KAt(p, 9, i));
    var ds := seq(|bars|, i requires 0 <= i < |bars| => DAt(p, 9, i));
    hide EmaAt, DeaAt, HistAt, BandAt, RsiAt, TrueRange, WindowMean, DifAt, RsvAt, LiesAt;
    forall i | 8 <= i < |bars| ensures KMoves(bars, i, ks[i - 1], ks[i]) {
      StochasticByRule(bars, i);
      assert 3.0 * ks[i] == 2.0 * ks[i - 1] + RsvAt(p, 9, i);
    }
    assert IsKdj(bars, rows, ks, ds);
  }

  /** The rows of bars in any order are the rows of the bars by time, and every column is as its rule says. */
  lemma RowsByRule(klines: seq<Bar>, std: Deviation)
    ensures var bars, rows := SortByTs(klines), RowsOf(klines, std);
      && |rows| == |bars| && MeansHold(bars, rows) && EmasHold(bars, rows) && MacdHolds(bars, rows) && BandsHold(bars, std, rows)
      && StrengthsHold(bars, rows) && KdjHolds(bars, rows) && RatiosHold(bars, rows)
  {
    hide MeansHold, EmasHold, MacdHolds, BandsHold, StrengthsHold, KdjHolds, RatiosHold, RowsInOrder, SortByTs;
    var bars := SortByTs(klines);
    MeansByRule(bars, std);
    EmasByRule(bars, std);
    MacdByRule(bars, std);
    BandsByRule(bars, std);
    StrengthsByRule(bars, std);
    KdjByRule(bars, std);
    RatiosByRule(bars, std);
  }
}
