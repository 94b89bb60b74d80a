/** Ranking the battle pool under its capacities: app/services/battle_pool.py. */
module BattlePool {
  import opened Common
  import opened Ledger

  const S_CAPACITY: nat := 3
  const A_CAPACITY: nat := 10

  /** A structure event as the ranking query returns it. */
  datatype Event = Event(id: nat, symbol: Symbol, ts: Time)

  /** One scored event; the score itself is an input. */
  datatype Scored = Scored(symbol: Symbol, structureId: nat, score: real)

  function PriorityOf(score: real): Priority {
    if score >= 85.0 then S else if score >= 70.0 then A else if score >= 50.0 then B else C
  }

  function Level(p: Priority): nat {
    match p case S => 0 case A => 1 case B => 2 case C => 3
  }

  // ------------------------------------------------- the newest event of each symbol

  predicate HasEventOf(events: seq<Event>, s: Symbol) {
    exists k :: 0 <= k < |events| && events[k].symbol == s
  }

  /** `latest.setdefault(symbol, event)`: the first event of every symbol. */
  function LatestEvents(events: seq<Event>): seq<Event> {
    if events == [] then []
    else
      var init, e := LatestEvents(events[..|events| - 1]), events[|events| - 1];
      if HasEventOf(init, e.symbol) then init else init + [e]
  }

  /** The query's order: by symbol, newest first. */
  ghost predicate NewestFirst(events: seq<Event>) {
    forall i, j :: 0 <= i < j < |events| && events[i].symbol == events[j].symbol ==> events[i].ts >= events[j].ts
  }

  /** `r` holds some events of `events`, one a symbol, none older than another of its symbol. */
  ghost predicate NewestOf(events: seq<Event>, r: seq<Event>) {
    && (forall i, j :: 0 <= i < j < |r| ==> r[i].symbol != r[j].symbol)
    && (forall e :: e in events ==> HasEventOf(r, e.symbol))
    && (forall k :: 0 <= k < |r| ==> r[k] in events)
    && (forall k, e :: 0 <= k < |r| && e in events && e.symbol == r[k].symbol ==> e.ts <= r[k].ts)
  }

  /** One event for every symbol, and the newest of that symbol. */
  lemma {:induction false} LatestAreNewest(events: seq<Event>)
    requires NewestFirst(events)
    ensures NewestOf(events, LatestEvents(events))
  {
    if events != [] {
      var n := |events| - 1;
      LatestAreNewest(events[..n]);
      assert events == events[..n] + [events[n]];
      NextEvent(events[..n], LatestEvents(events[..n]), events[n]);
    }
  }

  lemma NextEvent(events: seq<Event>, r: seq<Event>, e: Event)
    requires NewestFirst(events + [e]) && NewestOf(events, r)
    ensures NewestOf(events + [e], if HasEventOf(r, e.symbol) then r else r + [e])
  {
    if HasEventOf(r, e.symbol) {
      KnownSymbol(events, r, e);
    } else {
      NewSymbol(events, r, e);
    }
  }

  lemma KnownSymbol(events: seq<Event>, r: seq<Event>, e: Event)
    requires NewestFirst(events + [e]) && NewestOf(events, r) && HasEventOf(r, e.symbol)
    ensures NewestOf(events + [e], r)
  {
    var all := events + [e];
    forall k | 0 <= k < |r| && r[k].symbol == e.symbol ensures e.ts <= r[k].ts {
      var i :| 0 <= i < |events| && events[i] == r[k];
      assert all[i] == r[k] && all[|events|] == e;
    }
    hide NewestFirst, HasEventOf;
    assert forall x :: x in all <==> x in events || x == e;
  }

  lemma NewSymbol(events: seq<Event>, r: seq<Event>, e: Event)
    requires NewestOf(events, r) && !HasEventOf(r, e.symbol)
    ensures NewestOf(events + [e], r + [e])
  {
    var all, q := events + [e], r + [e];
    assert q[|r|] == e;
    forall x | x in all ensures HasEventOf(q, x.symbol) {
      if x in events {
        var k :| 0 <= k < |r| && r[k].symbol == x.symbol;
        assert q[k] == r[k];
      }
    }
    forall x | x in events ensures x.symbol != e.symbol {
      assert HasEventOf(r, x.symbol);
    }
    hide HasEventOf;
    assert forall x :: x in all <==> x in events || x == e;
  }

  // ------------------------------------------------------------- the order

  predicate TextBefore(a: string, b: string) {
    if a == [] then true
    else if b == [] then false
    else if a[0] != b[0] then a[0] < b[0]
    else TextBefore(a[1..], b[1..])
  }

  /** `key=(-score, symbol)`. */
  predicate NotAfter(a: Scored, b: Scored) {
    a.score > b.score || (a.score == b.score && TextBefore(a.symbol, b.symbol))
  }

  ghost predicate InOrder(xs: seq<Scored>) {
    forall i, j :: 0 <= i < j < |xs| ==> NotAfter(xs[i], xs[j])
  }

  lemma {:induction false} TextBeforeTotal(a: string, b: string)
    ensures TextBefore(a, b) || TextBefore(b, a)
  {
    if a != [] && b != [] && a[0] == b[0] {
      TextBeforeTotal(a[1..], b[1..]);
    }
  }

  lemma {:induction false} TextBeforeTransitive(a: string, b: string, c: string)
    requires TextBefore(a, b) && TextBefore(b, c)
    ensures TextBefore(a, c)
  {
    if a != [] && b != [] && c != [] && a[0] == b[0] == c[0] {
      TextBeforeTransitive(a[1..], b[1..], c[1..]);
    }
  }

  lemma NotAfterTransitive(a: Scored, b: Scored, c: Scored)
    requires NotAfter(a, b) && NotAfter(b, c)
    ensures NotAfter(a, c)
  {
    if a.score == b.score == c.score {
      TextBeforeTransitive(a.symbol, b.symbol, c.symbol);
    }
  }

  function InsertScored(xs: seq<Scored>, x: Scored): seq<Scored> {
    if xs == [] || NotAfter(xs[|xs| - 1], x) then xs + [x] else InsertScored(xs[..|xs| - 1], x) + [xs[|xs| - 1]]
  }

  function SortScored(xs: seq<Scored>): seq<Scored> {
    if xs == [] then [] else InsertScored(SortScored(xs[..|xs| - 1]), xs[|xs| - 1])
  }

  lemma {:induction false} InsertScoredOrders(xs: seq<Scored>, x: Scored)
    requires InOrder(xs)
    ensures InOrder(InsertScored(xs, x)) && multiset(InsertScored(xs, x)) == multiset(xs) + multiset{x}
  {
    hide NotAfter;
    if xs != [] {
      var n := |xs| - 1;
      assert xs == xs[..n] + [xs[n]];
      if NotAfter(xs[n], x) {
        forall i | 0 <= i < n ensures NotAfter(xs[i], x) {
          NotAfterTransitive(xs[i], xs[n], x);
        }
      } else {
        OtherWay(xs[n], x);
        InsertScoredOrders(xs[..n], x);
        var r := InsertScored(xs[..n], x);
        forall i | 0 <= i < |r| ensures NotAfter(r[i], xs[n]) {
          assert r[i] in multiset(r);
          assert r[i] == x || r[i] in xs[..n];
        }
      }
    }
  }

  lemma OtherWay(a: Scored, b: Scored)
    requires !NotAfter(a, b)
    ensures NotAfter(b, a)
  {
    TextBeforeTotal(a.symbol, b.symbol);
  }

  lemma {:induction false} SortScoredOrders(xs: seq<Scored>)
    ensures InOrder(SortScored(xs)) && multiset(SortScored(xs)) == multiset(xs)
  {
    if xs != [] {
      var n := |xs| - 1;
      SortScoredOrders(xs[..n]);
      assert xs == xs[..n] + [xs[n]];
      hide InOrder, InsertScored;
      InsertScoredOrders(SortScored(xs[..n]), xs[n]);
    }
  }

  // ------------------------------------------------------ the capacity loop

  datatype Counts = Counts(s: nat, a: nat, b: nat, c: nat)

  function CountOne(counts: Counts, p: Priority): Counts {
    match p
    case S => counts.(s := counts.s + 1)
    case A => counts.(a := counts.a + 1)
    case B => counts.(b := counts.b + 1)
    case C => counts.(c := counts.c + 1)
  }

  /** A full tier passes its overflow on to the next one. */
  function Admit(raw: Priority, counts: Counts): Priority {
    var p := if raw.S? && counts.s >= S_CAPACITY then A else raw;
    if p.A? && counts.a >= A_CAPACITY then B else p
  }

  datatype Ranking = Ranking(priorities: seq<Priority>, counts: Counts)

  /** The loop over the first `n` scored events. */
  function Ranked(xs: seq<Scored>, n: nat): (r: Ranking)
    requires n <= |xs|
    ensures |r.priorities| == n
  {
    if n == 0 then Ranking([], Counts(0, 0, 0, 0))
    else
      var before := Ranked(xs, n - 1);
      var p := Admit(PriorityOf(xs[n - 1].score), before.counts);
      Ranking(before.priorities + [p], CountOne(before.counts, p))
  }

  /** How many of the first `n` events score at least as well as `p` asks. */
  function RawUpTo(xs: seq<Scored>, n: nat, p: Priority): nat
    requires n <= |xs|
  {
    if n == 0 then 0 else RawUpTo(xs, n - 1, p) + if Level(PriorityOf(xs[n - 1].score)) <= Level(p) then 1 else 0
  }

  /**
   The priority by position alone, without any counting: the three best S events are S, the next ten
   S or A events are A, the rest of the S, A and B events are B.
   */
  function Positional(xs: seq<Scored>, i: nat): Priority
    requires i < |xs|
  {
    var raw := PriorityOf(xs[i].score);
    if raw.S? && i < S_CAPACITY then S
    else if Level(raw) <= 1 && i < MinInt(S_CAPACITY, RawUpTo(xs, |xs|, S)) + A_CAPACITY then A
    else if raw.C? then C
    else B
  }

  lemma LevelsAreMonotone(xs: seq<Scored>, i: nat, j: nat)
    requires InOrder(xs) && i <= j < |xs|
    ensures Level(PriorityOf(xs[i].score)) <= Level(PriorityOf(xs[j].score))
  {
    assert i < j ==> NotAfter(xs[i], xs[j]);
  }

  /** In order, the events good enough for a tier come first. */
  lemma {:induction false} RawPrefix(xs: seq<Scored>, n: nat, p: Priority)
    requires InOrder(xs) && n <= |xs|
    ensures RawUpTo(xs, n, p) <= n
    ensures forall i :: 0 <= i < n ==> (Level(PriorityOf(xs[i].score)) <= Level(p) <==> i < RawUpTo(xs, n, p))
  {
    hide PriorityOf, InOrder;
    if n > 0 {
      RawPrefix(xs, n - 1, p);
      forall i | 0 <= i < n ensures Level(PriorityOf(xs[i].score)) <= Level(PriorityOf(xs[n - 1].score)) {
        LevelsAreMonotone(xs, i, n - 1);
      }
    }
  }

  lemma {:induction false} RawGrows(xs: seq<Scored>, m: nat, n: nat, p: Priority)
    requires m <= n <= |xs|
    ensures RawUpTo(xs, m, p) <= RawUpTo(xs, n, p)
  {
    if m < n {
      RawGrows(xs, m, n - 1, p);
    }
  }

  /** `s` and `a` of the first `n` events scored for S and for A or better; one more event follows. */
  lemma CountsStep(c: Counts, p: Priority, n: nat, s: nat, a: nat)
    requires s <= a <= n && c.s == MinInt(S_CAPACITY, s) && c.a == MinInt(A_CAPACITY, a - c.s) && c.s + c.a + c.b + c.c == n
    ensures var s', a' := s + (if Level(p) <= Level(S) then 1 else 0), a + (if Level(p) <= Level(A) then 1 else 0);
      var d := CountOne(c, Admit(p, c));
      && d.s == MinInt(S_CAPACITY, s') && d.a == MinInt(A_CAPACITY, a' - d.s) && d.s + d.a + d.b + d.c == n + 1
  {
  }

  /** After `n` events: how full each tier is. */
  lemma {:induction false} CountsByPosition(xs: seq<Scored>, n: nat)
    requires n <= |xs|
    ensures var c := Ranked(xs, n).counts;
      && c.s == MinInt(S_CAPACITY, RawUpTo(xs, n, S))
      && c.a == MinInt(A_CAPACITY, RawUpTo(xs, n, A) - c.s)
      && c.s + c.a + c.b + c.c == n
  {
    if n > 0 {
      var before, p := Ranked(xs, n - 1).counts, PriorityOf(xs[n - 1].score);
      CountsByPosition(xs, n - 1);
      RawWithin(xs, n - 1);
      CountsStep(before, p, n - 1, RawUpTo(xs, n - 1, S), RawUpTo(xs, n - 1, A));
      hide PriorityOf, Admit, CountOne, MinInt, Level;
    }
  }

  lemma {:induction false} RawWithin(xs: seq<Scored>, n: nat)
    requires n <= |xs|
    ensures RawUpTo(xs, n, S) <= RawUpTo(xs, n, A) <= n
  {
    if n > 0 {
      RawWithin(xs, n - 1);
    }
  }

  /** The loop gives every event the priority its position calls for. */
  lemma LoopIsPositional(xs: seq<Scored>, i: nat)
    requires InOrder(xs) && i < |xs|
    ensures Ranked(xs, i + 1).priorities[i] == Positional(xs, i)
  {
    hide PriorityOf, InOrder;
    var before := Ranked(xs, i).counts;
    CountsByPosition(xs, i);
    RawPrefix(xs, |xs|, S);
    RawPrefix(xs, |xs|, A);
    RawPrefix(xs, i, S);
    RawPrefix(xs, i, A);
    RawGrows(xs, i, |xs|, S);
    RawCappedByPosition(xs, i, S);
    RawCappedByPosition(xs, i, A);
  }

  /** Among the first `n` events as many qualify as qualify at all, or all `n` of them. */
  lemma RawCappedByPosition(xs: seq<Scored>, n: nat, p: Priority)
    requires InOrder(xs) && n < |xs|
    ensures RawUpTo(xs, n, p) == MinInt(n, RawUpTo(xs, |xs|, p))
  {
    hide PriorityOf, InOrder;
    RawPrefix(xs, n, p);
    RawPrefix(xs, |xs|, p);
    RawGrows(xs, n, |xs|, p);
    var a, b := RawUpTo(xs, n, p), RawUpTo(xs, |xs|, p);
    assert a < n ==> !(Level(PriorityOf(xs[a].score)) <= Level(p));
    assert a < n ==> !(a < b);
  }

  lemma {:induction false} PrioritiesStay(xs: seq<Scored>, m: nat, n: nat)
    requires m <= n <= |xs|
    ensures Ranked(xs, n).priorities[..m] == Ranked(xs, m).priorities
  {
    if m < n {
      PrioritiesStay(xs, m, n - 1);
    }
  }

  function CountOf(ps: seq<Priority>, p: Priority): nat {
    if ps == [] then 0 else CountOf(ps[..|ps| - 1], p) + if ps[|ps| - 1] == p then 1 else 0
  }

  /** The counters count the priorities that were given. */
  lemma {:induction false} CountsAreTrue(xs: seq<Scored>, n: nat)
    requires n <= |xs|
    ensures var r := Ranked(xs, n);
      r.counts == Counts(CountOf(r.priorities, S), CountOf(r.priorities, A), CountOf(r.priorities, B), CountOf(r.priorities, C))
  {
    if n > 0 {
      CountsAreTrue(xs, n - 1);
      var r, p := Ranked(xs, n - 1), Admit(PriorityOf(xs[n - 1].score), Ranked(xs, n - 1).counts);
      assert (r.priorities + [p])[..n - 1] == r.priorities;
    }
  }

  /** No tier is ever over its capacity, and every event is counted once. */
  lemma CapacityHolds(xs: seq<Scored>)
    ensures var r := Ranked(xs, |xs|);
      && CountOf(r.priorities, S) <= S_CAPACITY && CountOf(r.priorities, A) <= A_CAPACITY
      && CountOf(r.priorities, S) + CountOf(r.priorities, A) + CountOf(r.priorities, B) + CountOf(r.priorities, C) == |xs|
  {
    hide CountOf, Ranked, RawUpTo;
    CountsAreTrue(xs, |xs|);
    CountsByPosition(xs, |xs|);
  }

  /**
   Every event gets the priority of its position; that is never better than its score's own and never
   gets better further down the list.
   */
  lemma AllocationIsFair(xs: seq<Scored>, i: nat, j: nat)
    requires InOrder(xs) && i <= j < |xs|
    ensures var ps := Ranked(xs, |xs|).priorities;
      && ps[i] == Positional(xs, i)
      && Level(PriorityOf(xs[i].score)) <= Level(ps[i]) <= Level(ps[j])
  {
    hide PriorityOf, InOrder, Ranked, RawUpTo, Admit;
    PositionOfEach(xs, i);
    PositionOfEach(xs, j);
    LevelsAreMonotone(xs, i, j);
  }

  /** An event is demoted only past tiers that are full of events ranked before it, and always then. */
  lemma DemotedIffFull(xs: seq<Scored>, j: nat)
    requires InOrder(xs) && j < |xs|
    ensures var ps, raw := Ranked(xs, |xs|).priorities, PriorityOf(xs[j].score);
      var fullS, fullA := CountOf(ps[..j], S) == S_CAPACITY, CountOf(ps[..j], A) == A_CAPACITY;
      && (raw.S? ==> ps[j] == if !fullS then S else if !fullA then A else B)
      && (raw.A? ==> ps[j] == if !fullA then A else B)
      && (raw.B? || raw.C? ==> ps[j] == raw)
  {
    hide PriorityOf, InOrder, Positional, Ranked, CountOf, RawUpTo;
    PositionOfEach(xs, j);
    PrioritiesStay(xs, j, |xs|);
    CountsAreTrue(xs, j);
    CountsByPosition(xs, j);
  }

  lemma PositionOfEach(xs: seq<Scored>, i: nat)
    requires InOrder(xs) && i < |xs|
    ensures Ranked(xs, |xs|).priorities[i] == Positional(xs, i)
    ensures Positional(xs, i) == Admit(PriorityOf(xs[i].score), Ranked(xs, i).counts)
  {
    hide PriorityOf, InOrder, Positional;
    PrioritiesStay(xs, i + 1, |xs|);
    LoopIsPositional(xs, i);
  }

  // --------------------------------------------------------- the pool table

  datatype ItemStatus = ActiveItem | ArchivedItem

  datatype Item = Item(symbol: Symbol, priority: Priority, structureId: nat, score: real, status: ItemStatus)

  ghost predicate OneItemPerSymbol(items: seq<Item>) {
    forall i, j :: 0 <= i < j < |items| ==> items[i].symbol != items[j].symbol
  }

  function FindItem(items: seq<Item>, s: Symbol): (r: Option<nat>)
    ensures r.Some? ==> r.value < |items| && items[r.value].symbol == s
    ensures r.None? <==> forall i :: 0 <= i < |items| ==> items[i].symbol != s
  {
    if items == [] then None
    else if items[|items| - 1].symbol == s then Some(|items| - 1)
    else FindItem(items[..|items| - 1], s)
  }

  function Archived(items: seq<Item>): (r: seq<Item>)
    ensures |r| == |items|
  {
    seq(|items|, i requires 0 <= i < |items| => if items[i].status.ActiveItem? then items[i].(status := ArchivedItem) else items[i])
  }

  function ItemOf(x: Scored, p: Priority): Item {
    Item(x.symbol, p, x.structureId, x.score, ActiveItem)
  }

  /** The row of the symbol is rewritten, or added. */
  function Placed(items: seq<Item>, item: Item): seq<Item> {
    var at := FindItem(items, item.symbol);
    if at.Some? then items[at.value := item] else items + [item]
  }

  function PlacedUpTo(items: seq<Item>, xs: seq<Scored>, n: nat): seq<Item>
    requires n <= |xs|
  {
    if n == 0 then items
    else Placed(PlacedUpTo(items, xs, n - 1), PlacedItem(xs, n - 1))
  }

  ghost predicate OneEventPerSymbol(xs: seq<Scored>) {
    forall i, j :: 0 <= i < j < |xs| ==> xs[i].symbol != xs[j].symbol
  }

  /** The row the loop writes for event `k`. */
  function PlacedItem(xs: seq<Scored>, k: nat): Item
    requires k < |xs|
  {
    ItemOf(xs[k], Ranked(xs, k + 1).priorities[k])
  }

  predicate Mentions(xs: seq<Scored>, n: nat, s: Symbol)
    requires n <= |xs|
  {
    exists k :: 0 <= k < n && xs[k].symbol == s
  }

  ghost predicate AllPlaced(items: seq<Item>, xs: seq<Scored>, n: nat)
    requires n <= |xs|
  {
    forall k :: 0 <= k < n ==> PlacedItem(xs, k) in items
  }

  ghost predicate OnlyPlaced(items: seq<Item>, xs: seq<Scored>, n: nat)
    requires n <= |xs|
  {
    forall i :: 0 <= i < |items| && items[i].status.ActiveItem? ==> Mentions(xs, n, items[i].symbol)
  }

  predicate KeptOrPlaced(before: Item, after: Item) {
    after.symbol == before.symbol && (after.status.ActiveItem? || after == before.(status := ArchivedItem))
  }

  ghost predicate RowsKept(before: seq<Item>, items: seq<Item>) {
    |before| <= |items| && forall i :: 0 <= i < |before| ==> KeptOrPlaced(before[i], items[i])
  }

  lemma PlaceKeepsPlaced(items: seq<Item>, xs: seq<Scored>, n: nat)
    requires 0 < n <= |xs| && OneEventPerSymbol(xs) && AllPlaced(items, xs, n - 1)
    ensures AllPlaced(Placed(items, PlacedItem(xs, n - 1)), xs, n)
  {
    hide Ranked, FindItem;
    var item := PlacedItem(xs, n - 1);
    var r, at := Placed(items, item), FindItem(items, item.symbol);
    assert r[if at.Some? then at.value else |items|] == item;
    forall k | 0 <= k < n - 1 ensures PlacedItem(xs, k) in r {
      var i :| 0 <= i < |items| && items[i] == PlacedItem(xs, k);
      assert xs[k].symbol != xs[n - 1].symbol;
      assert r[i] == PlacedItem(xs, k);
    }
  }

  lemma PlaceAddsOneSymbol(items: seq<Item>, xs: seq<Scored>, n: nat)
    requires 0 < n <= |xs| && OnlyPlaced(items, xs, n - 1)
    ensures OnlyPlaced(Placed(items, PlacedItem(xs, n - 1)), xs, n)
  {
    hide Ranked, FindItem;
    var r := Placed(items, PlacedItem(xs, n - 1));
    forall i | 0 <= i < |r| && r[i].status.ActiveItem? ensures Mentions(xs, n, r[i].symbol) {
      if i < |items| && r[i] == items[i] {
        var k :| 0 <= k < n - 1 && xs[k].symbol == items[i].symbol;
      } else {
        assert xs[n - 1].symbol == r[i].symbol;
      }
    }
  }

  lemma PlaceKeepsRows(before: seq<Item>, items: seq<Item>, item: Item)
    requires OneItemPerSymbol(items) && RowsKept(before, items) && item.status.ActiveItem?
    ensures OneItemPerSymbol(Placed(items, item)) && RowsKept(before, Placed(items, item))
  {
    hide FindItem;
  }

  lemma {:induction false} PlaceAll(before: seq<Item>, xs: seq<Scored>, n: nat)
    requires n <= |xs| && OneEventPerSymbol(xs) && OneItemPerSymbol(before)
    ensures var r := PlacedUpTo(Archived(before), xs, n);
      OneItemPerSymbol(r) && RowsKept(before, r) && AllPlaced(r, xs, n) && OnlyPlaced(r, xs, n)
  {
    if n > 0 {
      PlaceAll(before, xs, n - 1);
      var items := PlacedUpTo(Archived(before), xs, n - 1);
      PlaceKeepsPlaced(items, xs, n);
      PlaceAddsOneSymbol(items, xs, n);
      PlaceKeepsRows(before, items, PlacedItem(xs, n - 1));
      hide Placed, Ranked, OneItemPerSymbol, RowsKept, AllPlaced, OnlyPlaced, Archived, OneEventPerSymbol;
    }
  }

  /** `rank_battle_pool` on a table: archive, sort, place. */
  function RankedPool(items: seq<Item>, scored: seq<Scored>): seq<Item> {
    var xs := SortScored(scored);
    PlacedUpTo(Archived(items), xs, |xs|)
  }

  predicate IsActive(items: seq<Item>, s: Symbol) {
    exists i :: 0 <= i < |items| && items[i].symbol == s && items[i].status.ActiveItem?
  }

  /**
   After a ranking the ACTIVE items are exactly the scored symbols, each at its position's priority;
   no row is lost, and a row whose symbol was not scored is only archived.
   */
  lemma ActiveItemsAreTheScored(items: seq<Item>, scored: seq<Scored>, s: Symbol)
    requires OneItemPerSymbol(items) && OneEventPerSymbol(scored)
    ensures var r, xs := RankedPool(items, scored), SortScored(scored);
      && OneItemPerSymbol(r) && RowsKept(items, r)
      && (IsActive(r, s) <==> Mentions(scored, |scored|, s))
      && (forall k :: 0 <= k < |xs| ==> ItemOf(xs[k], Positional(xs, k)) in r)
  {
    hide Ranked, Positional, NotAfter, PlacedUpTo, OneItemPerSymbol, OneEventPerSymbol, RowsKept, PlacedItem, Mentions;
    var r, xs := RankedPool(items, scored), SortScored(scored);
    SortScoredOrders(scored);
    SortKeepsSymbols(scored, xs, s);
    PlaceAll(items, xs, |xs|);
    forall k | 0 <= k < |xs| ensures ItemOf(xs[k], Positional(xs, k)) in r {
      PlacedAtPosition(xs, k);
      assert PlacedItem(xs, k) in r;
    }
    if Mentions(xs, |xs|, s) {
      var k := MentionedAt(xs, s);
      var item := ItemOf(xs[k], Positional(xs, k));
      var i :| 0 <= i < |r| && r[i] == item;
    }
  }

  lemma MentionedAt(xs: seq<Scored>, s: Symbol) returns (k: nat)
    requires Mentions(xs, |xs|, s)
    ensures k < |xs| && xs[k].symbol == s
  {
    k :| 0 <= k < |xs| && xs[k].symbol == s;
  }

  lemma PlacedAtPosition(xs: seq<Scored>, k: nat)
    requires InOrder(xs) && k < |xs|
    ensures PlacedItem(xs, k) == ItemOf(xs[k], Positional(xs, k))
  {
    LoopIsPositional(xs, k);
  }

  lemma SortKeepsSymbols(xs: seq<Scored>, ys: seq<Scored>, s: Symbol)
    requires multiset(xs) == multiset(ys) && OneEventPerSymbol(xs)
    ensures OneEventPerSymbol(ys)
    ensures Mentions(ys, |ys|, s) <==> Mentions(xs, |xs|, s)
  {
    forall x ensures x in xs <==> x in ys {
      assert x in multiset(xs) <==> x in multiset(ys);
    }
    forall i, j | 0 <= i < j < |ys| ensures ys[i].symbol != ys[j].symbol {
      if ys[i].symbol == ys[j].symbol {
        assert ys[i] in xs && ys[j] in xs;
        TwiceInSequence(ys, i, j);
        OnceInDistinct(xs, ys[i]);
        assert false;
      }
    }
    if Mentions(ys, |ys|, s) {
      var k := MentionedAt(ys, s);
      assert ys[k] in xs;
    }
    if Mentions(xs, |xs|, s) {
      var k := MentionedAt(xs, s);
      assert xs[k] in ys;
    }
  }

  lemma {:induction false} OnceInDistinct(xs: seq<Scored>, x: Scored)
    requires OneEventPerSymbol(xs) && x in xs
    ensures multiset(xs)[x] == 1
  {
    var n := |xs| - 1;
    assert xs == xs[..n] + [xs[n]];
    if x in xs[..n] {
      OnceInDistinct(xs[..n], x);
      var i :| 0 <= i < n && xs[i] == x;
      assert xs[i].symbol != xs[n].symbol;
    }
  }

  lemma TwiceInSequence(ys: seq<Scored>, i: int, j: int)
    requires 0 <= i < j < |ys| && ys[i] == ys[j]
    ensures multiset(ys)[ys[i]] >= 2
  {
    assert ys == ys[..i] + [ys[i]] + ys[i + 1..j] + [ys[j]] + ys[j + 1..];
  }

  class BattlePoolTable {
    var items: seq<Item>

    constructor ()
      ensures items == []
    {
      items := [];
    }

    method ArchiveActive()
      modifies this
      ensures items == Archived(old(items))
    {
      for i := 0 to |items|
        invariant |items| == |old(items)|
        invariant forall j :: 0 <= j < i ==> items[j] == Archived(old(items))[j]
        invariant forall j :: i <= j < |items| ==> items[j] == old(items)[j]
      {
        if items[i].status.ActiveItem? {
          items := items[i := items[i].(status := ArchivedItem)];
        }
      }
    }

    /** `rank_battle_pool`: archive what is ACTIVE, then place every scored event in order. */
    method RankBattlePool(scored: seq<Scored>) returns (counts: Counts)
      modifies this
      ensures items == RankedPool(old(items), scored)
      ensures counts == Ranked(SortScored(scored), |SortScored(scored)|).counts
    {
      hide SortScored, PriorityOf, FindItem, Archived;
      var xs := SortScored(scored);
      ArchiveActive();
      counts := Counts(0, 0, 0, 0);
      for n := 0 to |xs|
        invariant counts == Ranked(xs, n).counts
        invariant items == PlacedUpTo(Archived(old(items)), xs, n)
      {
        var priority := PriorityOf(xs[n].score);
        if priority.S? && counts.s >= 3 {
          priority := A;
        }
        if priority.A? && counts.a >= 10 {
          priority := B;
        }
        assert priority == Ranked(xs, n + 1).priorities[n];
        counts := CountOne(counts, priority);
        var item := Item(xs[n].symbol, priority, xs[n].structureId, xs[n].score, ActiveItem);
        var record := FindItem(items, xs[n].symbol);
        if record.None? {
          items := items + [item];
        } else {
          items := items[record.value := item];
        }
      }
    }
  }
}
