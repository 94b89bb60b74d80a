/** The arithmetic of exit retries: submission times and retry counts, apart from any table. */
module ExitChain {
  import opened Common

  /** One submitted exit order. */
  datatype Attempt = Attempt(at: int, retries: nat)

  /** Each attempt comes more than `timeout` after the one before it. */
  ghost predicate Spaced(c: seq<Attempt>, timeout: int) {
    forall i :: 0 <= i < |c| - 1 ==> c[i].at + timeout < c[i + 1].at
  }

  /** The first attempt is no retry, every later one is, and counts never fall. */
  ghost predicate Counted(c: seq<Attempt>, limit: int) {
    && (c != [] ==> c[0].retries == 0)
    && (forall i :: 0 < i < |c| ==> 1 <= c[i].retries <= limit)
    && (forall i, j :: 0 <= i < j < |c| ==> c[i].retries <= c[j].retries)
  }

  /** Attempts with one retry count all start inside one retry window of the first of them. */
  ghost predicate Windowed(c: seq<Attempt>, timeout: int, window: int) {
    forall i, j :: 0 <= i < j < |c| && 0 < c[i].retries == c[j].retries ==> c[j - 1].at + timeout < c[i].at + window
  }

  ghost predicate Chain(c: seq<Attempt>, timeout: int, window: int, limit: int) {
    Spaced(c, timeout) && Counted(c, limit) && Windowed(c, timeout, window)
  }

  /** Some attempt old enough at `clock` carries at least the last count less one. */
  ghost predicate Covered(c: seq<Attempt>, window: int, clock: int) {
    |c| >= 2 ==> exists q :: 0 <= q < |c| && c[q].at + window <= clock && c[q].retries + 1 >= c[|c| - 1].retries
  }

  /** `p` is the newest attempt at least `window` old at `now`. */
  ghost predicate NewestOld(c: seq<Attempt>, window: int, now: int, p: int) {
    && 0 <= p < |c| && c[p].at + window <= now
    && forall i :: 0 <= i < |c| && c[i].at + window <= now ==> i <= p
  }

  lemma FirstAttemptChains(first: Attempt, timeout: int, window: int, limit: int, now: int)
    requires first.retries == 0
    ensures Chain([first], timeout, window, limit) && Covered([first], window, now)
  {
  }

  lemma RetryIsCounted(c: seq<Attempt>, limit: int, next: Attempt)
    requires c != [] && Counted(c, limit) && c[|c| - 1].retries <= next.retries && 1 <= next.retries <= limit
    ensures Counted(c + [next], limit)
  {
    var d := c + [next];
    forall i, j | 0 <= i < j < |d| ensures d[i].retries <= d[j].retries {
      if j == |c| && i < |c| - 1 {
        assert c[i].retries <= c[|c| - 1].retries;
      }
    }
  }

  lemma RetryIsWindowed(c: seq<Attempt>, timeout: int, window: int, limit: int, now: int, p: int, next: Attempt)
    requires c != [] && Counted(c, limit) && Windowed(c, timeout, window)
    requires c[|c| - 1].at + timeout < now && NewestOld(c, window, now, p) && next.retries == c[p].retries + 1
    ensures Windowed(c + [next], timeout, window)
  {
    var d := c + [next];
    forall i, j | 0 <= i < j < |d| && 0 < d[i].retries == d[j].retries ensures d[j - 1].at + timeout < d[i].at + window {
      if j == |c| {
        assert i > p;
      } else {
        assert d[i] == c[i] && d[j] == c[j] && d[j - 1] == c[j - 1];
      }
    }
  }

  /** A retry of the newest old attempt keeps the chain. */
  lemma RetryChains(c: seq<Attempt>, timeout: int, window: int, limit: int, clock: int, now: int, p: int, next: Attempt)
    requires c != [] && Chain(c, timeout, window, limit) && Covered(c, window, clock) && clock <= now
    requires c[|c| - 1].at + timeout < now <= next.at
    requires NewestOld(c, window, now, p) && next.retries == c[p].retries + 1 <= limit
    ensures Chain(c + [next], timeout, window, limit) && Covered(c + [next], window, now)
  {
    RetryIsCounted(c, limit, next);
    RetryIsWindowed(c, timeout, window, limit, now, p, next);
    var d := c + [next];
    assert d[p] == c[p];
  }

  lemma {:induction false} SpacingAdds(c: seq<Attempt>, timeout: int, i: nat, j: nat)
    requires Spaced(c, timeout) && i <= j < |c|
    ensures c[i].at + (j - i) * timeout <= c[j].at
  {
    if i < j {
      SpacingAdds(c, timeout, i, j - 1);
      assert (j - i) * timeout == (j - 1 - i) * timeout + timeout;
    }
  }

  /** The first attempt that carries the count of attempt `j`. */
  function FirstOf(c: seq<Attempt>, j: nat): (i: nat)
    requires j < |c|
    ensures i <= j && c[i].retries == c[j].retries
    ensures i > 0 ==> c[i - 1].retries != c[i].retries
  {
    if j > 0 && c[j - 1].retries == c[j].retries then FirstOf(c, j - 1) else j
  }

  lemma {:induction false} FirstOfNextCount(i: int, j: int, before: int, r: int, per: int)
    requires i - 1 <= before * per && before <= r - 1 && j - i < per && 1 <= per
    ensures j <= r * per
  {
    assert before * per <= (r - 1) * per;
    assert (r - 1) * per == r * per - per;
  }

  lemma SameCountFitsWindow(c: seq<Attempt>, timeout: int, window: int, limit: int, per: int, i: nat, j: nat)
    requires Chain(c, timeout, window, limit) && 0 < timeout && window <= per * timeout
    requires i < j < |c| && 0 < c[i].retries == c[j].retries
    ensures j - i < per
  {
    hide Counted;
    SpacingAdds(c, timeout, i, j - 1);
    assert c[j - 1].at + timeout < c[i].at + window;
    assert (j - 1 - i) * timeout + timeout == (j - i) * timeout;
    ProductsAreOrdered(per, j - i, timeout);
  }

  lemma ProductsAreOrdered(a: int, b: int, t: int)
    requires 0 < t
    ensures a <= b ==> a * t <= b * t
  {
    if a <= b {
      assert 0 <= (b - a) * t;
    }
  }

  /** Attempt `j` carries at least `j / per` retries. */
  lemma {:induction false} CountsGrow(c: seq<Attempt>, timeout: int, window: int, limit: int, per: int, j: nat)
    requires Chain(c, timeout, window, limit) && 0 < timeout && 1 <= per && window <= per * timeout && j < |c|
    ensures j <= c[j].retries * per
  {
    if j > 0 {
      var i := FirstOf(c, j);
      assert c[j].retries >= 1 && i >= 1;
      CountsGrow(c, timeout, window, limit, per, i - 1);
      assert c[i - 1].retries <= c[i].retries;
      if i < j {
        SameCountFitsWindow(c, timeout, window, limit, per, i, j);
      }
      FirstOfNextCount(i, j, c[i - 1].retries, c[j].retries, per);
    }
  }

  /** How many attempts can share one retry count: the retry window over the timeout, rounded up. */
  function PerCount(timeout: int, window: int): (per: int)
    requires 0 < timeout
    ensures 1 <= per && window <= per * timeout
  {
    var ceiling := (window + timeout - 1) / timeout;
    assert window + timeout - 1 < ceiling * timeout + timeout;
    MaxInt(1, ceiling)
  }

  /** The length of a chain is bounded by the retry limit times that many, plus the first attempt. */
  lemma ChainIsBounded(c: seq<Attempt>, timeout: int, window: int, limit: int)
    requires Chain(c, timeout, window, limit) && 0 < timeout
    ensures |c| <= 1 + MaxInt(0, limit) * PerCount(timeout, window)
  {
    var per := PerCount(timeout, window);
    if c != [] {
      var j := |c| - 1;
      CountsGrow(c, timeout, window, limit, per, j);
      assert c[j].retries <= MaxInt(0, limit);
      assert c[j].retries * per <= MaxInt(0, limit) * per;
    } else {
      assert 0 <= MaxInt(0, limit) * per;
    }
  }
}
