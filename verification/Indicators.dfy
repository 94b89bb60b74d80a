/** Indicator loops, their definitions, their ranges and their stability: app/services/indicators.py. */
module Indicators {
  import opened Common

  // ---------------------------------------------------------- definitions

  function SumOf(xs: seq<real>, lo: nat, hi: nat): real
    requires lo <= hi <= |xs|
  {
    if lo == hi then 0.0 else SumOf(xs, lo, hi - 1) + xs[hi - 1]
  }

  /** The mean of the `window` values that end at index `i`. */
  function WindowMean(xs: seq<real>, window: nat, i: nat): Option<real>
    requires 0 < window && i < |xs|
  {
    if i + 1 < window then None else Some(SumOf(xs, i + 1 - window, i + 1) / window as real)
  }

  function Alpha(span: nat): real {
    2.0 / (span as real + 1.0)
  }

  function Blend(alpha: real, value: real, current: real): real {
    alpha * value + (1.0 - alpha) * current
  }

  function EmaAt(xs: seq<real>, span: nat, i: nat): real
    requires i < |xs|
  {
    if i == 0 then xs[0] else Blend(Alpha(span), xs[i], EmaAt(xs, span, i - 1))
  }

  function Gain(xs: seq<real>, i: nat): real
    requires 0 < i < |xs|
  {
    MaxReal(xs[i] - xs[i - 1], 0.0)
  }

  function Loss(xs: seq<real>, i: nat): real
    requires 0 < i < |xs|
  {
    MaxReal(xs[i - 1] - xs[i], 0.0)
  }

  function GainSum(xs: seq<real>, i: nat): real
    requires i < |xs|
  {
    if i == 0 then 0.0 else GainSum(xs, i - 1) + Gain(xs, i)
  }

  function LossSum(xs: seq<real>, i: nat): real
    requires i < |xs|
  {
    if i == 0 then 0.0 else LossSum(xs, i - 1) + Loss(xs, i)
  }

  /** Wilder's recurrence. */
  function Smooth(average: real, period: nat, x: real): real
    requires 0 < period
  {
    (average * (period - 1) as real + x) / period as real
  }

  /** Wilder's smoothed gain: the plain mean at index `period`, then a recurrence. */
  function AverageGain(xs: seq<real>, period: nat, i: nat): (g: real)
    requires 0 < period <= i < |xs|
  {
    if i == period then GainSum(xs, i) / period as real
    else Smooth(AverageGain(xs, period, i - 1), period, Gain(xs, i))
  }

  function AverageLoss(xs: seq<real>, period: nat, i: nat): (l: real)
    requires 0 < period <= i < |xs|
  {
    if i == period then LossSum(xs, i) / period as real
    else Smooth(AverageLoss(xs, period, i - 1), period, Loss(xs, i))
  }

  function StrengthIndex(gain: real, loss: real): real
    requires loss != 0.0 ==> 1.0 + gain / loss != 0.0
  {
    if loss == 0.0 then 100.0 else 100.0 - 100.0 / (1.0 + gain / loss)
  }

  /** A quotient of a non-negative number and a greater one. */
  lemma QuotientInRange(x: real, d: real)
    requires 0.0 <= x && 0.0 < d
    ensures 0.0 <= x / d && (x <= d ==> x / d <= 1.0)
  {
    var q := x / d;
    assert q * d == x;
    if q < 0.0 {
      ScaledLess(q, 0.0, d);
    } else if q > 1.0 {
      ScaledLess(1.0, q, d);
    }
  }

  lemma ScaledLess(a: real, b: real, d: real)
    requires a < b && 0.0 < d
    ensures a * d < b * d
  {
    assert (b - a) * d > 0.0;
  }

  lemma SmoothNonNegative(average: real, period: nat, x: real)
    requires 0 < period && average >= 0.0 && x >= 0.0
    ensures Smooth(average, period, x) >= 0.0
  {
    assert average * (period - 1) as real >= 0.0;
    QuotientInRange(average * (period - 1) as real + x, period as real);
  }

  lemma {:induction false} AveragesNonNegative(xs: seq<real>, period: nat, i: nat)
    requires 0 < period <= i < |xs|
    ensures AverageGain(xs, period, i) >= 0.0 && AverageLoss(xs, period, i) >= 0.0
  {
    hide Smooth;
    SumsNonNegative(xs, i);
    QuotientInRange(GainSum(xs, i), period as real);
    QuotientInRange(LossSum(xs, i), period as real);
    if i > period {
      AveragesNonNegative(xs, period, i - 1);
      SmoothNonNegative(AverageGain(xs, period, i - 1), period, Gain(xs, i));
      SmoothNonNegative(AverageLoss(xs, period, i - 1), period, Loss(xs, i));
    }
  }

  lemma {:induction false} SumsNonNegative(xs: seq<real>, i: nat)
    requires i < |xs|
    ensures GainSum(xs, i) >= 0.0 && LossSum(xs, i) >= 0.0
  {
    if i > 0 {
      SumsNonNegative(xs, i - 1);
    }
  }

  function RsiAt(xs: seq<real>, period: nat, i: nat): Option<real>
    requires 0 < period && i < |xs|
  {
    if i < period then None
    else
      AveragesNonNegative(xs, period, i);
      Some(StrengthIndex(AverageGain(xs, period, i), AverageLoss(xs, period, i)))
  }

  // --------------------------------------------------- the loops refine them

  /** The sliding sum gives the direct window mean at every index. */
  method RollingAverage(values: seq<real>, window: nat) returns (result: seq<Option<real>>)
    requires 0 < window
    ensures |result| == |values|
    ensures forall i :: 0 <= i < |values| ==> result[i] == WindowMean(values, window, i)
  {
    result := [];
    var total := 0.0;
    for index := 0 to |values|
      invariant |result| == index
      invariant forall i :: 0 <= i < index ==> result[i] == WindowMean(values, window, i)
      invariant total == SumOf(values, if index >= window then index - window else 0, index)
    {
      total := total + values[index];
      if index >= window {
        total := total - values[index - window];
        DropFirst(values, index - window, index + 1);
      }
      result := result + [if index + 1 >= window then Some(total / window as real) else None];
    }
  }

  lemma {:induction false} DropFirst(xs: seq<real>, lo: nat, hi: nat)
    requires lo < hi <= |xs|
    ensures SumOf(xs, lo, hi) == xs[lo] + SumOf(xs, lo + 1, hi)
  {
    if lo + 1 < hi {
      DropFirst(xs, lo, hi - 1);
    }
  }

  method Ema(values: seq<real>, span: nat) returns (output: seq<real>)
    ensures |output| == |values|
    ensures forall i :: 0 <= i < |values| ==> output[i] == EmaAt(values, span, i)
  {
    output := [];
    var alpha := Alpha(span);
    var current: Option<real> := None;
    for index := 0 to |values|
      invariant |output| == index
      invariant forall i :: 0 <= i < index ==> output[i] == EmaAt(values, span, i)
      invariant current == if index == 0 then None else Some(EmaAt(values, span, index - 1))
    {
      var next := if current.None? then values[index] else Blend(alpha, values[index], current.value);
      current := Some(next);
      output := output + [next];
    }
  }

  method Rsi(values: seq<real>, period: nat) returns (output: seq<Option<real>>)
    requires 0 < period
    ensures |output| == |values|
    ensures forall i :: 0 <= i < |values| ==> output[i] == RsiAt(values, period, i)
  {
    output := [];
    if values == [] {
      return;
    }
    output := [None];
    var gains: seq<real>, losses: seq<real> := [], [];
    var averageGain, averageLoss := 0.0, 0.0;
    for index := 1 to |values|
      invariant |output| == index && |gains| == |losses| == index - 1
      invariant forall i :: 0 <= i < index ==> output[i] == RsiAt(values, period, i)
      invariant SumOf(gains, 0, index - 1) == GainSum(values, index - 1) && SumOf(losses, 0, index - 1) == LossSum(values, index - 1)
      invariant index > period ==> averageGain == AverageGain(values, period, index - 1) && averageLoss == AverageLoss(values, period, index - 1)
    {
      AppendToSum(gains, Gain(values, index));
      AppendToSum(losses, Loss(values, index));
      gains, losses := gains + [Gain(values, index)], losses + [Loss(values, index)];
      if index < period {
        output := output + [None];
      } else {
        if index == period {
          averageGain := SumOf(gains, |gains| - period, |gains|) / period as real;
          averageLoss := SumOf(losses, |losses| - period, |losses|) / period as real;
        } else {
          averageGain := Smooth(averageGain, period, gains[|gains| - 1]);
          averageLoss := Smooth(averageLoss, period, losses[|losses| - 1]);
        }
        AveragesNonNegative(values, period, index);
        output := output + [Some(StrengthIndex(averageGain, averageLoss))];
      }
    }
  }

  lemma {:induction false} SumOfPrefix(xs: seq<real>, ys: seq<real>, lo: nat, hi: nat)
    requires lo <= hi <= |xs| && xs <= ys
    ensures SumOf(xs, lo, hi) == SumOf(ys, lo, hi)
  {
    if lo < hi {
      SumOfPrefix(xs, ys, lo, hi - 1);
    }
  }

  lemma AppendToSum(xs: seq<real>, x: real)
    ensures SumOf(xs + [x], 0, |xs| + 1) == SumOf(xs, 0, |xs|) + x
  {
    SumOfPrefix(xs, xs + [x], 0, |xs|);
  }

  // ------------------------------------------------------------------ KDJ

  function HighestOf(xs: seq<real>, lo: nat, hi: nat): (m: real)
    requires lo < hi <= |xs|
    ensures forall k :: lo <= k < hi ==> xs[k] <= m
    ensures exists k :: lo <= k < hi && xs[k] == m
  {
    if hi == lo + 1 then xs[lo] else MaxReal(HighestOf(xs, lo, hi - 1), xs[hi - 1])
  }

  function LowestOf(xs: seq<real>, lo: nat, hi: nat): (m: real)
    requires lo < hi <= |xs|
    ensures forall k :: lo <= k < hi ==> m <= xs[k]
    ensures exists k :: lo <= k < hi && xs[k] == m
  {
    if hi == lo + 1 then xs[lo] else MinReal(LowestOf(xs, lo, hi - 1), xs[hi - 1])
  }

  datatype Prices = Prices(highs: seq<real>, lows: seq<real>, closes: seq<real>)

  predicate SameLength(p: Prices) {
    |p.highs| == |p.lows| == |p.closes|
  }

  function Stochastic(close: real, lowest: real, highest: real): real {
    if highest == lowest then 50.0 else (close - lowest) / (highest - lowest) * 100.0
  }

  /** The raw stochastic value of the `period` bars that end at index `i`. */
  function RsvAt(p: Prices, period: nat, i: nat): real
    requires SameLength(p) && 0 < period && period <= i + 1 && i < |p.closes|
  {
    Stochastic(p.closes[i], LowestOf(p.lows, i + 1 - period, i + 1), HighestOf(p.highs, i + 1 - period, i + 1))
  }

  function KAt(p: Prices, period: nat, i: nat): real
    requires SameLength(p) && 0 < period && i < |p.closes|
  {
    if i + 1 < period then 50.0
    else (2.0 * (if i == 0 then 50.0 else KAt(p, period, i - 1)) + RsvAt(p, period, i)) / 3.0
  }

  function DAt(p: Prices, period: nat, i: nat): real
    requires SameLength(p) && 0 < period && i < |p.closes|
  {
    if i + 1 < period then 50.0
    else (2.0 * (if i == 0 then 50.0 else DAt(p, period, i - 1)) + KAt(p, period, i)) / 3.0
  }

  datatype Kdj = Kdj(k: Option<real>, d: Option<real>, j: Option<real>)

  function KdjAt(p: Prices, period: nat, i: nat): Kdj
    requires SameLength(p) && 0 < period && i < |p.closes|
  {
    if i + 1 < period then Kdj(None, None, None)
    else Kdj(Some(KAt(p, period, i)), Some(DAt(p, period, i)), Some(3.0 * KAt(p, period, i) - 2.0 * DAt(p, period, i)))
  }

  method CalculateKdj(p: Prices, period: nat) returns (values: seq<Kdj>)
    requires SameLength(p) && 0 < period
    ensures |values| == |p.closes|
    ensures forall i :: 0 <= i < |p.closes| ==> values[i] == KdjAt(p, period, i)
  {
    hide LowestOf, HighestOf, Stochastic;
    values := [];
    var k, d := 50.0, 50.0;
    for index := 0 to |p.closes|
      invariant |values| == index
      invariant forall i :: 0 <= i < index ==> values[i] == KdjAt(p, period, i)
      invariant k == (if index == 0 then 50.0 else KAt(p, period, index - 1))
      invariant d == (if index == 0 then 50.0 else DAt(p, period, index - 1))
    {
      if index + 1 < period {
        values := values + [Kdj(None, None, None)];
      } else {
        var highest := HighestOf(p.highs, index + 1 - period, index + 1);
        var lowest := LowestOf(p.lows, index + 1 - period, index + 1);
        k := (2.0 * k + Stochastic(p.closes[index], lowest, highest)) / 3.0;
        d := (2.0 * d + k) / 3.0;
        values := values + [Kdj(Some(k), Some(d), Some(3.0 * k - 2.0 * d))];
      }
    }
  }

  // ---------------------------------------------------------------- ranges

  /** The window mean lies between any bounds on the window. */
  lemma {:induction false} SumIsBounded(xs: seq<real>, lo: nat, hi: nat, least: real, most: real)
    requires lo <= hi <= |xs| && forall k :: lo <= k < hi ==> least <= xs[k] <= most
    ensures least * (hi - lo) as real <= SumOf(xs, lo, hi) <= most * (hi - lo) as real
  {
    if lo < hi {
      SumIsBounded(xs, lo, hi - 1, least, most);
      assert (hi - lo) as real == (hi - 1 - lo) as real + 1.0;
    }
  }

  lemma BetweenOnScale(least: real, most: real, n: real, sum: real)
    requires n > 0.0 && least * n <= sum <= most * n
    ensures least <= sum / n <= most
  {
  }

  lemma MeanInRange(xs: seq<real>, window: nat, i: nat, least: real, most: real)
    requires 0 < window <= i + 1 && i < |xs| && forall k :: i + 1 - window <= k <= i ==> least <= xs[k] <= most
    ensures WindowMean(xs, window, i).Some? && least <= WindowMean(xs, window, i).value <= most
  {
    SumIsBounded(xs, i + 1 - window, i + 1, least, most);
    BetweenOnScale(least, most, window as real, SumOf(xs, i + 1 - window, i + 1));
  }

  lemma BlendInRange(alpha: real, x: real, y: real, least: real, most: real)
    requires 0.0 <= alpha <= 1.0 && least <= x <= most && least <= y <= most
    ensures least <= Blend(alpha, x, y) <= most
  {
    assert alpha * (x - least) >= 0.0 && (1.0 - alpha) * (y - least) >= 0.0;
    assert alpha * (most - x) >= 0.0 && (1.0 - alpha) * (most - y) >= 0.0;
  }

  /** An EMA lies between the least and the greatest value seen so far. */
  lemma {:induction false} EmaInRange(xs: seq<real>, span: nat, i: nat, least: real, most: real)
    requires 1 <= span && i < |xs| && forall k :: 0 <= k <= i ==> least <= xs[k] <= most
    ensures least <= EmaAt(xs, span, i) <= most
  {
    if i > 0 {
      EmaInRange(xs, span, i - 1, least, most);
      assert 0.0 <= Alpha(span) <= 1.0;
      BlendInRange(Alpha(span), xs[i], EmaAt(xs, span, i - 1), least, most);
    }
  }

  lemma StrengthInRange(gain: real, loss: real)
    requires gain >= 0.0 && loss >= 0.0
    ensures loss != 0.0 ==> 1.0 + gain / loss != 0.0
    ensures 0.0 <= StrengthIndex(gain, loss) <= 100.0
  {
    if loss != 0.0 {
      QuotientInRange(gain, loss);
      var q := 1.0 + gain / loss;
      QuotientInRange(1.0, q);
      assert 100.0 / q == 100.0 * (1.0 / q);
    }
  }

  /** The RSI is in [0, 100] wherever it is defined, which is from index `period` on. */
  lemma RsiInRange(xs: seq<real>, period: nat, i: nat)
    requires 0 < period && i < |xs|
    ensures RsiAt(xs, period, i).Some? <==> period <= i
    ensures RsiAt(xs, period, i).Some? ==> 0.0 <= RsiAt(xs, period, i).value <= 100.0
  {
    if period <= i {
      AveragesNonNegative(xs, period, i);
      StrengthInRange(AverageGain(xs, period, i), AverageLoss(xs, period, i));
    }
  }

  ghost predicate ClosesInside(p: Prices) {
    SameLength(p) && forall i :: 0 <= i < |p.closes| ==> p.lows[i] <= p.closes[i] <= p.highs[i]
  }

  lemma StochasticInRange(close: real, lowest: real, highest: real)
    requires lowest <= close <= highest
    ensures 0.0 <= Stochastic(close, lowest, highest) <= 100.0
  {
    if lowest < highest {
      QuotientInRange(close - lowest, highest - lowest);
    }
  }

  /** With every close inside its bar, K and D are in [0, 100] and J in [-200, 300]. */
  lemma {:induction false} KdjInRange(p: Prices, period: nat, i: nat)
    requires ClosesInside(p) && 0 < period && i < |p.closes|
    ensures 0.0 <= KAt(p, period, i) <= 100.0 && 0.0 <= DAt(p, period, i) <= 100.0
    ensures KdjAt(p, period, i).j.Some? ==> -200.0 <= KdjAt(p, period, i).j.value <= 300.0
  {
    hide LowestOf, HighestOf, Stochastic;
    if period <= i + 1 {
      if i > 0 {
        KdjInRange(p, period, i - 1);
      }
      StochasticInRange(p.closes[i], LowestOf(p.lows, i + 1 - period, i + 1), HighestOf(p.highs, i + 1 - period, i + 1));
    }
  }

  // ------------------------------------------------------ prefix stability

  lemma MeanOfPrefix(xs: seq<real>, ys: seq<real>, window: nat, i: nat)
    requires 0 < window && i < |xs| && xs <= ys
    ensures WindowMean(xs, window, i) == WindowMean(ys, window, i)
  {
    if window <= i + 1 {
      SumOfPrefix(xs, ys, i + 1 - window, i + 1);
    }
  }

  lemma {:induction false} EmaOfPrefix(xs: seq<real>, ys: seq<real>, span: nat, i: nat)
    requires i < |xs| && xs <= ys
    ensures EmaAt(xs, span, i) == EmaAt(ys, span, i)
  {
    if i > 0 {
      EmaOfPrefix(xs, ys, span, i - 1);
    }
  }

  lemma {:induction false} GainsOfPrefix(xs: seq<real>, ys: seq<real>, i: nat)
    requires i < |xs| && xs <= ys
    ensures GainSum(xs, i) == GainSum(ys, i) && LossSum(xs, i) == LossSum(ys, i)
  {
    if i > 0 {
      GainsOfPrefix(xs, ys, i - 1);
    }
  }

  lemma {:induction false} AveragesOfPrefix(xs: seq<real>, ys: seq<real>, period: nat, i: nat)
    requires 0 < period <= i < |xs| && xs <= ys
    ensures AverageGain(xs, period, i) == AverageGain(ys, period, i) && AverageLoss(xs, period, i) == AverageLoss(ys, period, i)
  {
    hide Smooth;
    if i == period {
      GainsOfPrefix(xs, ys, i);
    } else {
      AveragesOfPrefix(xs, ys, period, i - 1);
    }
  }

  lemma RsiOfPrefix(xs: seq<real>, ys: seq<real>, period: nat, i: nat)
    requires 0 < period && i < |xs| && xs <= ys
    ensures RsiAt(xs, period, i) == RsiAt(ys, period, i)
  {
    if period <= i {
      AveragesOfPrefix(xs, ys, period, i);
    }
  }

  lemma {:induction false} HighestOfPrefix(xs: seq<real>, ys: seq<real>, lo: nat, hi: nat)
    requires lo < hi <= |xs| && xs <= ys
    ensures HighestOf(xs, lo, hi) == HighestOf(ys, lo, hi)
  {
    if lo + 1 < hi {
      HighestOfPrefix(xs, ys, lo, hi - 1);
    }
  }

  lemma {:induction false} LowestOfPrefix(xs: seq<real>, ys: seq<real>, lo: nat, hi: nat)
    requires lo < hi <= |xs| && xs <= ys
    ensures LowestOf(xs, lo, hi) == LowestOf(ys, lo, hi)
  {
    if lo + 1 < hi {
      LowestOfPrefix(xs, ys, lo, hi - 1);
    }
  }

  ghost predicate PricesPrefix(p: Prices, q: Prices) {
    SameLength(p) && SameLength(q) && p.highs <= q.highs && p.lows <= q.lows && p.closes <= q.closes
  }

  lemma RsvOfPrefix(p: Prices, q: Prices, period: nat, i: nat)
    requires PricesPrefix(p, q) && 0 < period <= i + 1 && i < |p.closes|
    ensures RsvAt(p, period, i) == RsvAt(q, period, i)
  {
    hide LowestOf, HighestOf;
    HighestOfPrefix(p.highs, q.highs, i + 1 - period, i + 1);
    LowestOfPrefix(p.lows, q.lows, i + 1 - period, i + 1);
  }

  lemma {:induction false} KdOfPrefix(p: Prices, q: Prices, period: nat, i: nat)
    requires PricesPrefix(p, q) && 0 < period && i < |p.closes|
    ensures KAt(p, period, i) == KAt(q, period, i) && DAt(p, period, i) == DAt(q, period, i)
  {
    hide RsvAt;
    if period <= i + 1 {
      RsvOfPrefix(p, q, period, i);
      if i > 0 {
        KdOfPrefix(p, q, period, i - 1);
      }
    }
  }
}
