/** Which priority an event ends with, on the scores themselves (app/services/battle_pool.py:24-62). */
module PoolRules {
  import opened Ledger
  import opened BattlePool

  /** How many events score at least `limit`. */
  ghost function ScoredAtLeast(xs: seq<Scored>, limit: real): nat {
    |set k | 0 <= k < |xs| && xs[k].score >= limit|
  }

  ghost function Given(ps: seq<Priority>, p: Priority): nat {
    |set k | 0 <= k < |ps| && ps[k] == p|
  }

  lemma {:induction false} BestCounted(xs: seq<Scored>, n: nat)
    requires n <= |xs|
    ensures RawUpTo(xs, n, S) == |set k | 0 <= k < n && xs[k].score >= 85.0|
  {
    var best := set k | 0 <= k < n && xs[k].score >= 85.0;
    if n > 0 {
      BestCounted(xs, n - 1);
      var before := set k | 0 <= k < n - 1 && xs[k].score >= 85.0;
      assert best == before + if xs[n - 1].score >= 85.0 then {n - 1} else {};
    }
  }

  lemma {:induction false} GivenCounted(ps: seq<Priority>, p: Priority)
    ensures CountOf(ps, p) == Given(ps, p)
  {
    hide Given;
    if ps == [] {
      NoneGiven(p);
    } else {
      var init, last := ps[..|ps| - 1], ps[|ps| - 1];
      GivenCounted(init, p);
      OneMoreGiven(init, last, p);
      assert ps == init + [last];
    }
  }

  lemma NoneGiven(p: Priority)
    ensures Given([], p) == 0
  {
  }

  lemma OneMoreGiven(ps: seq<Priority>, q: Priority, p: Priority)
    ensures Given(ps + [q], p) == Given(ps, p) + if q == p then 1 else 0
  {
    var n, r := |ps|, ps + [q];
    var given, before := set k | 0 <= k < |r| && r[k] == p, set k | 0 <= k < n && ps[k] == p;
    assert given == if q == p then before + {n} else before;
  }

  /**
   The priority of the event at place `i` of the ranked list: S from 85 in the first three places; A from
   70 in the ten places after the S ones, which number three or as many as score 85; C under 50; else B.
   */
  lemma PriorityByScoreAndPlace(scored: seq<Scored>, i: nat)
    requires i < |scored|
    ensures var xs := SortScored(scored);
      |xs| == |scored| &&
      var ps, best, score := Ranked(xs, |xs|).priorities, ScoredAtLeast(xs, 85.0), xs[i].score;
      ps[i] == if score >= 85.0 && i < 3 then S
               else if score >= 70.0 && i < (if best < 3 then best else 3) + 10 then A
               else if score >= 50.0 then B else C
  {
    var xs := SortScored(scored);
    SortScoredOrders(scored);
    assert |multiset(xs)| == |multiset(scored)|;
    BestCounted(xs, |xs|);
    AllocationIsFair(xs, i, i);
    hide Ranked, RawUpTo;
  }

  /** No more than three S and ten A are ever given, and every event is given one of the four. */
  lemma CapacityIsThreeAndTen(scored: seq<Scored>)
    ensures var xs := SortScored(scored);
      var ps := Ranked(xs, |xs|).priorities;
      && |ps| == |scored| && Given(ps, S) <= 3 && Given(ps, A) <= 10
      && Given(ps, S) + Given(ps, A) + Given(ps, B) + Given(ps, C) == |scored|
      && Ranked(xs, |xs|).counts == Counts(Given(ps, S), Given(ps, A), Given(ps, B), Given(ps, C))
  {
    hide Ranked, Given, CountOf;
    var xs := SortScored(scored);
    var ps := Ranked(xs, |xs|).priorities;
    SortScoredOrders(scored);
    assert |multiset(xs)| == |multiset(scored)|;
    CapacityHolds(xs);
    CountsAreTrue(xs, |xs|);
    GivenCounted(ps, S);
    GivenCounted(ps, A);
    GivenCounted(ps, B);
    GivenCounted(ps, C);
  }

  /** The list runs by falling score; equal scores by symbol, where a text comes before its extensions. */
  lemma RankedByScoreThenSymbol(scored: seq<Scored>, i: nat, j: nat)
    requires i < j < |scored|
    ensures var xs := SortScored(scored);
      |xs| == |scored| && multiset(xs) == multiset(scored)
      && (xs[i].score > xs[j].score || (xs[i].score == xs[j].score && ComesBefore(xs[i].symbol, xs[j].symbol)))
  {
    var xs := SortScored(scored);
    SortScoredOrders(scored);
    assert |multiset(xs)| == |multiset(scored)|;
    assert NotAfter(xs[i], xs[j]);
    if xs[i].score == xs[j].score {
      BeforeInText(xs[i].symbol, xs[j].symbol);
    }
  }

  /** A prefix, or smaller at the first place where they differ. */
  ghost predicate ComesBefore(a: string, b: string) {
    a <= b || exists k :: 0 <= k < |a| && k < |b| && a[..k] == b[..k] && a[k] < b[k]
  }

  lemma {:induction false} BeforeInText(a: string, b: string)
    requires TextBefore(a, b)
    ensures ComesBefore(a, b)
  {
    if a != [] && a[0] == b[0] {
      var x, y := a[1..], b[1..];
      BeforeInText(x, y);
      assert a == [a[0]] + x && b == [b[0]] + y;
      if !(x <= y) {
        var k :| 0 <= k < |x| && k < |y| && x[..k] == y[..k] && x[k] < y[k];
        assert a[..k + 1] == [a[0]] + x[..k] && b[..k + 1] == [b[0]] + y[..k];
        assert a[k + 1] < b[k + 1];
      }
    } else if a != [] {
      assert a[..0] == b[..0] && a[0] < b[0];
    }
  }

  /** Every scored event has an ACTIVE item with its symbol, structure and score, at its priority; no other item is ACTIVE. */
  lemma ItemsAreThoseEvents(items: seq<Item>, scored: seq<Scored>, i: nat)
    requires OneItemPerSymbol(items) && OneEventPerSymbol(scored) && i < |scored|
    ensures var r, xs := RankedPool(items, scored), SortScored(scored);
      && |xs| == |scored|
      && Item(xs[i].symbol, Ranked(xs, |xs|).priorities[i], xs[i].structureId, xs[i].score, ActiveItem) in r
      && |r| >= |items| && forall k :: 0 <= k < |items| ==>
           r[k].symbol == items[k].symbol
           && ((forall j :: 0 <= j < |scored| ==> scored[j].symbol != items[k].symbol) ==>
                 r[k] == items[k].(status := ArchivedItem))
  {
    hide Ranked, PlacedUpTo;
    var r, xs := RankedPool(items, scored), SortScored(scored);
    SortScoredOrders(scored);
    assert |multiset(xs)| == |multiset(scored)|;
    AllocationIsFair(xs, i, i);
    ActiveItemsAreTheScored(items, scored, xs[i].symbol);
    forall k | 0 <= k < |items| && forall j :: 0 <= j < |scored| ==> scored[j].symbol != items[k].symbol
      ensures r[k] == items[k].(status := ArchivedItem)
    {
      ActiveItemsAreTheScored(items, scored, items[k].symbol);
      assert KeptOrPlaced(items[k], r[k]);
    }
  }
}
