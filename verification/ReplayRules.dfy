/** The replay against the clock: a bar is shown once its own period is over (app/services/backtest.py:87-103, 493-500). */
module ReplayRules {
  import opened Common
  import opened IndicatorRows
  import opened Replay

  /** A day, an hour or a quarter of an hour has passed since the bar began; other bars count at once. */
  predicate PeriodOver(b: Bar, now: int) {
    match b.frame
    case Daily => b.ts + 86400 <= now
    case Hourly => b.ts + 3600 <= now
    case Quarter => b.ts + 900 <= now
    case OtherFrame => b.ts <= now
  }

  predicate EndsAt(b: Bar, t: int) {
    PeriodOver(b, t) && !PeriodOver(b, t - 1)
  }

  /** The steps of the replay are the ends of the bars' periods, each once, in order. */
  lemma StepsAreEnds(source: seq<Bar>)
    ensures var times := Times(source);
      && (forall i, j :: 0 <= i < j < |times| ==> times[i] < times[j])
      && (forall t :: t in times <==> exists b :: b in source && EndsAt(b, t))
      && (forall n: nat :: 0 < n <= |times| ==> Clock(source, n) == times[n - 1])
  {
    TimesAreAvailabilities(source);
    forall b: Bar, t ensures EndsAt(b, t) <==> AvailableAt(b) == t {
    }
  }

  lemma {:induction false} CopyMembers(bars: seq<Bar>, c: Bar)
    ensures c in CopyAll(bars) <==> exists b :: b in bars && c == b.(turnover := None)
  {
    var copies := CopyAll(bars);
    if c in copies {
      var i :| 0 <= i < |copies| && copies[i] == c;
      assert bars[i] in bars;
    }
    if b :| b in bars && c == b.(turnover := None) {
      var i :| 0 <= i < |bars| && bars[i] == b;
      assert copies[i] == c;
    }
  }

  /** No two bars of one symbol, timeframe and time. */
  ghost predicate OneOfEach(bars: seq<Bar>) {
    forall i, j :: 0 <= i < j < |bars| ==> IdOf(bars[i]) != IdOf(bars[j])
  }

  lemma {:induction false} VisibleHoldsOneOfEach(bars: seq<Bar>, t: int)
    requires OneOfEach(bars)
    ensures OneOfEach(VisibleAt(bars, t))
  {
    if bars != [] {
      var n := |bars| - 1;
      var init := VisibleAt(bars[..n], t);
      VisibleHoldsOneOfEach(bars[..n], t);
      SelectedMembers(bars[..n], Key("", Daily), t);
      forall i | 0 <= i < |init| ensures IdOf(init[i]) != IdOf(bars[n]) {
        assert init[i] in init;
        var j :| 0 <= j < n && bars[..n][j] == init[i];
      }
    }
  }

  /** Two places that hold the same bar count it twice. */
  lemma CountedTwice(bars: seq<Bar>, i: nat, j: nat)
    requires i < j < |bars| && bars[i] == bars[j]
    ensures multiset(bars)[bars[i]] >= 2
  {
    assert bars == bars[..i] + [bars[i]] + bars[i + 1..j] + [bars[j]] + bars[j + 1..];
  }

  lemma {:induction false} CountedOnce(bars: seq<Bar>, b: Bar)
    requires OneOfEach(bars)
    ensures multiset(bars)[b] <= 1
  {
    if bars != [] {
      var n := |bars| - 1;
      CountedOnce(bars[..n], b);
      assert bars == bars[..n] + [bars[n]];
      forall i | 0 <= i < n ensures bars[..n][i] != bars[n] {
        assert IdOf(bars[i]) != IdOf(bars[n]);
      }
    }
  }

  /** The same bars in another order. */
  lemma ReorderedHoldsOneOfEach(bars: seq<Bar>, others: seq<Bar>)
    requires multiset(bars) == multiset(others) && OneOfEach(others)
    ensures OneOfEach(bars)
  {
    forall i, j | 0 <= i < j < |bars| ensures IdOf(bars[i]) != IdOf(bars[j]) {
      if bars[i] == bars[j] {
        CountedTwice(bars, i, j);
        CountedOnce(others, bars[i]);
      } else {
        assert bars[i] in multiset(bars) && bars[j] in multiset(bars);
        var m, n :| 0 <= m < |others| && 0 <= n < |others| && others[m] == bars[i] && others[n] == bars[j];
        assert m < n || n < m;
      }
    }
  }

  /** A copy of each, without its turnover. */
  ghost predicate Shows(shown: seq<Bar>, source: seq<Bar>, now: int) {
    && OneOfEach(shown)
    && (forall b :: b in source ==> (b.(turnover := None) in shown <==> PeriodOver(b, now)))
    && (forall c :: c in shown ==> exists b :: b in source && PeriodOver(b, now) && c == b.(turnover := None))
  }

  lemma CopiesShow(source: seq<Bar>, now: int)
    requires IsSource(source)
    ensures Shows(CopyAll(VisibleAt(source, now)), source, now)
  {
    var v := VisibleAt(source, now);
    var copies := CopyAll(v);
    SelectedMembers(source, Key("", Daily), now);
    VisibleHoldsOneOfEach(source, now);
    hide VisibleAt;
    assert OneOfEach(copies);
    forall c | c in copies ensures exists b :: b in source && PeriodOver(b, now) && c == b.(turnover := None) {
      CopyMembers(v, c);
    }
    forall b | b in source ensures b.(turnover := None) in copies <==> PeriodOver(b, now) {
      CopyMembers(v, b.(turnover := None));
      SourceHasOne(source, b, now);
    }
  }

  /** A source bar is known by its id. */
  lemma SourceHasOne(source: seq<Bar>, b: Bar, now: int)
    requires IsSource(source) && b in source
    ensures forall c :: c in source && IdOf(c) == IdOf(b) ==> c == b
  {
    forall c | c in source && IdOf(c) == IdOf(b) ensures c == b {
      var i, j :| 0 <= i < |source| && 0 <= j < |source| && source[i] == b && source[j] == c;
      assert i < j || j < i || i == j;
    }
  }

  /**
   No look-ahead on the clock: at every step the tables hold a copy, without its turnover, of exactly
   the bars whose period is over, each once.
   */
  lemma ShownIffPeriodOver(source: seq<Bar>, std: Deviation, n: nat)
    requires IsSource(source) && n <= |Times(source)|
    ensures Shows(After(source, std, n).bars, source, Clock(source, n))
  {
    var shown, now := After(source, std, n).bars, Clock(source, n);
    hide After, VisibleAt, PeriodOver, CopyAll, Clock, IdOf;
    NoLookAhead(source, std, n, Key("", Daily));
    var copies := CopyAll(VisibleAt(source, now));
    CopiesShow(source, now);
    ReorderedHoldsOneOfEach(shown, copies);
    forall c ensures c in shown <==> c in copies {
      assert c in multiset(shown) <==> c in multiset(copies);
    }
  }
}
