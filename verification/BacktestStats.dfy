/** The one-pass statistics of a backtest: app/services/backtest.py:307-320. */
module BacktestStats {
  import opened Common

  /** The equity curve in R: the sum of the first `n` results. */
  function Equity(rs: seq<real>, n: nat): real
    requires n <= |rs|
  {
    if n == 0 then 0.0 else Equity(rs, n - 1) + rs[n - 1]
  }

  /** Results `lo` to `hi` are all losses (a break-even trade counts as one). */
  ghost predicate LosingRun(rs: seq<real>, lo: int, hi: int) {
    0 <= lo <= hi <= |rs| && forall k :: lo <= k < hi ==> rs[k] <= 0.0
  }

  /** `d` is the deepest fall of the curve from an earlier point to a later one. */
  ghost predicate IsMaxDrawdown(rs: seq<real>, n: nat, d: real)
    requires n <= |rs|
  {
    && (exists i, j :: 0 <= i <= j <= n && d == Equity(rs, j) - Equity(rs, i))
    && forall i, j :: 0 <= i <= j <= n ==> d <= Equity(rs, j) - Equity(rs, i)
  }

  ghost predicate IsPeak(rs: seq<real>, n: nat, peak: real)
    requires n <= |rs|
  {
    (exists i :: 0 <= i <= n && peak == Equity(rs, i)) && forall i :: 0 <= i <= n ==> Equity(rs, i) <= peak
  }

  ghost predicate IsLongestLosingRun(rs: seq<real>, n: nat, longest: nat)
    requires n <= |rs|
  {
    && (exists lo, hi :: hi <= n && LosingRun(rs, lo, hi) && hi - lo == longest)
    && forall lo, hi :: hi <= n && LosingRun(rs, lo, hi) ==> hi - lo <= longest
  }

  /** The run of losses that ends now, back to the last win. */
  ghost predicate IsCurrentRun(rs: seq<real>, n: nat, current: int)
    requires n <= |rs|
  {
    0 <= current <= n && LosingRun(rs, n - current, n) && (current < n ==> rs[n - current - 1] > 0.0)
  }

  lemma CurrentStep(rs: seq<real>, n: nat, current: nat)
    requires n < |rs| && IsCurrentRun(rs, n, current)
    ensures IsCurrentRun(rs, n + 1, if rs[n] <= 0.0 then current + 1 else 0)
  {
  }

  lemma PeakStep(rs: seq<real>, n: nat, peak: real, next: real)
    requires n < |rs| && IsPeak(rs, n, peak) && next == MaxReal(peak, Equity(rs, n + 1))
    ensures IsPeak(rs, n + 1, next)
  {
    if peak < Equity(rs, n + 1) {
      assert next == Equity(rs, n + 1);
    } else {
      var i :| 0 <= i <= n && peak == Equity(rs, i);
      assert next == Equity(rs, i);
    }
  }

  /** The deepest fall that ends now starts at the peak so far. */
  lemma DrawdownStep(rs: seq<real>, n: nat, d: real, peak: real)
    requires n < |rs| && IsMaxDrawdown(rs, n, d) && IsPeak(rs, n + 1, peak)
    ensures IsMaxDrawdown(rs, n + 1, MinReal(d, Equity(rs, n + 1) - peak))
  {
    hide Equity;
    var fall := Equity(rs, n + 1) - peak;
    if fall < d {
      var i :| 0 <= i <= n + 1 && peak == Equity(rs, i);
      assert fall == Equity(rs, n + 1) - Equity(rs, i);
    } else {
      var i, j :| 0 <= i <= j <= n && d == Equity(rs, j) - Equity(rs, i);
      assert MinReal(d, fall) == Equity(rs, j) - Equity(rs, i);
    }
  }

  /** `_calculate_stats`: the loop over the final results. */
  method DrawdownAndLosses(finalRs: seq<real>) returns (maxDrawdown: real, maxConsecutiveLosses: nat)
    ensures IsMaxDrawdown(finalRs, |finalRs|, maxDrawdown)
    ensures IsLongestLosingRun(finalRs, |finalRs|, maxConsecutiveLosses)
  {
    hide IsPeak, IsMaxDrawdown, IsLongestLosingRun, IsCurrentRun;
    var equity, peak := 0.0, 0.0;
    maxDrawdown := 0.0;
    var consecutiveLosses := 0;
    maxConsecutiveLosses := 0;
    NothingYet(finalRs);
    for n := 0 to |finalRs|
      invariant equity == Equity(finalRs, n) && IsPeak(finalRs, n, peak) && IsMaxDrawdown(finalRs, n, maxDrawdown)
      invariant IsCurrentRun(finalRs, n, consecutiveLosses)
      invariant IsLongestLosingRun(finalRs, n, maxConsecutiveLosses)
    {
      var value := finalRs[n];
      equity := equity + value;
      PeakStep(finalRs, n, peak, MaxReal(peak, equity));
      peak := MaxReal(peak, equity);
      DrawdownStep(finalRs, n, maxDrawdown, peak);
      maxDrawdown := MinReal(maxDrawdown, equity - peak);
      CurrentStep(finalRs, n, consecutiveLosses);
      consecutiveLosses := if value <= 0.0 then consecutiveLosses + 1 else 0;
      LongestStep(finalRs, n, maxConsecutiveLosses, consecutiveLosses);
      maxConsecutiveLosses := MaxInt(maxConsecutiveLosses, consecutiveLosses);
    }
  }

  lemma NothingYet(rs: seq<real>)
    ensures IsPeak(rs, 0, 0.0) && IsMaxDrawdown(rs, 0, 0.0) && IsLongestLosingRun(rs, 0, 0) && IsCurrentRun(rs, 0, 0)
  {
    assert Equity(rs, 0) == 0.0;
    assert LosingRun(rs, 0, 0);
  }

  /** The longest run that ends now reaches back to the last win. */
  lemma LongestStep(rs: seq<real>, n: nat, longest: nat, current: nat)
    requires n < |rs| && IsLongestLosingRun(rs, n, longest)
    requires IsCurrentRun(rs, n + 1, current)
    ensures IsLongestLosingRun(rs, n + 1, MaxInt(longest, current))
  {
    var best := MaxInt(longest, current);
    if longest < current {
      assert LosingRun(rs, n + 1 - current, n + 1) && n + 1 - (n + 1 - current) == best;
    } else {
      var lo, hi :| hi <= n && LosingRun(rs, lo, hi) && hi - lo == longest;
      assert hi <= n + 1 && LosingRun(rs, lo, hi) && hi - lo == best;
    }
    forall lo, hi | hi <= n + 1 && LosingRun(rs, lo, hi) ensures hi - lo <= best {
    }
  }
}
