/** Which bars carry an event: the six kinds on the bars themselves (app/services/structures.py:98-277). */
module StructureRules {
  import opened Common
  import opened Structures
  import opened Lifecycle

  // ------------------------------------------------------- the bars before

  /** `x` is the greatest high of the bars from `lo` up to `hi`. */
  ghost predicate IsHighest(s: seq<Point>, lo: int, hi: int, x: real)
    requires 0 <= lo <= hi <= |s|
  {
    (forall k :: lo <= k < hi ==> s[k].high <= x) && exists k :: lo <= k < hi && s[k].high == x
  }

  ghost predicate IsLowest(s: seq<Point>, lo: int, hi: int, x: real)
    requires 0 <= lo <= hi <= |s|
  {
    (forall k :: lo <= k < hi ==> x <= s[k].low) && exists k :: lo <= k < hi && s[k].low == x
  }

  /** The detector looks at the bar: 35 bars lie before it, and its ATR is known and not zero. */
  predicate Looked(s: seq<Point>, i: int) {
    35 <= i < |s| && s[i].atr.Some? && s[i].atr.value != 0.0
  }

  /** A move from `from` down or up to `to`: two ATR, or 6 percent of `base`. */
  predicate MovedFar(move: real, base: real, atr: real) {
    move >= 2.0 * atr || move / (if base < 0.0001 then 0.0001 else base) >= 0.06
  }

  // ------------------------------------------------------------ bottom side

  ghost predicate FellFar(s: seq<Point>, lo: nat, i: nat, atr: real)
    requires lo <= i < |s|
  {
    exists high :: IsHighest(s, lo, i, high) && MovedFar(high - s[i].low, high, atr)
  }

  /** Near the low of 30 bars after a fall, DIF above its lowest, the histogram rising. */
  ghost predicate BottomsOut(s: seq<Point>, i: int)
    requires Looked(s, i)
  {
    && (forall k :: i - 30 <= k < i ==> s[i].low <= s[k].low + 0.8 * s[i].atr.value)
    && FellFar(s, i - 30, i, s[i].atr.value)
    && (exists k :: i - 30 <= k < i && s[k].dif < s[i].dif)
    && s[i].hist > s[i - 1].hist
  }

  /** The close is at least every high of eight bars and the MA20, the histogram rises, DIF does not fall, the volume is no less than 65 percent. */
  predicate BreaksOut(s: seq<Point>, i: int)
    requires Looked(s, i)
  {
    && (forall k :: i - 8 <= k < i ==> s[k].high <= s[i].close)
    && s[i].ma20.Some? && s[i].ma20.value <= s[i].close
    && s[i].hist > s[i - 1].hist && s[i].dif >= s[i - 1].dif
    && (s[i].volumeMa.Some? ==> s[i].volume >= s[i].volumeMa.value * 0.65)
  }

  predicate FailsBelow(s: seq<Point>, i: int, level: real)
    requires Looked(s, i)
  {
    s[i].close < level && s[i].hist < s[i - 1].hist
  }

  // --------------------------------------------------------------- top side

  ghost predicate RoseFar(s: seq<Point>, lo: nat, i: nat, atr: real)
    requires lo <= i < |s|
  {
    exists low :: IsLowest(s, lo, i, low) && MovedFar(s[i].high - low, low, atr)
  }

  /** Near the high of 30 bars after a rise, DIF below its highest, the histogram falling. */
  ghost predicate TopsOut(s: seq<Point>, i: int)
    requires Looked(s, i)
  {
    && (forall k :: i - 30 <= k < i ==> s[i].high >= s[k].high - 0.8 * s[i].atr.value)
    && RoseFar(s, i - 30, i, s[i].atr.value)
    && (exists k :: i - 30 <= k < i && s[k].dif > s[i].dif)
    && s[i].hist < s[i - 1].hist
  }

  predicate BreaksDown(s: seq<Point>, i: int)
    requires Looked(s, i)
  {
    && (forall k :: i - 8 <= k < i ==> s[i].close <= s[k].low)
    && s[i].hist < s[i - 1].hist && s[i].dif <= s[i - 1].dif
  }

  predicate RecoversAbove(s: seq<Point>, i: int, level: real)
    requires Looked(s, i)
  {
    s[i].close > level && s[i].ma20.Some? && s[i].close > s[i].ma20.value
  }

  // ------------------------------------------------------- what each event says

  /** Time, price and the times its cycle names. */
  predicate IsOf(d: Detection, p: Point, parent: Option<Detection>) {
    && d.ts == p.ts && d.price == p.close
    && d.parentKind == (if parent.Some? then Some(parent.value.kind) else None)
    && d.parentTs == (if parent.Some? then Some(parent.value.ts) else None)
  }

  /** A new cycle: its pivot is its invalidation level; it expires in 14 days. */
  predicate OpensAt(d: Detection, p: Point) {
    IsOf(d, p, None) && d.confirm.None? && d.trigger.None? && d.invalidation == d.pivot && d.expires == Some(p.ts + 1209600)
  }

  predicate ConfirmsAt(d: Detection, p: Point, parent: Detection) {
    && IsOf(d, p, Some(parent)) && d.pivot == parent.pivot && d.invalidation == parent.pivot
    && d.confirm.Some? && d.trigger == d.confirm && d.expires == Some(p.ts + 1209600)
  }

  predicate ClosesAt(d: Detection, p: Point, parent: Detection) {
    && IsOf(d, p, Some(parent)) && d.pivot == parent.pivot && d.invalidation == parent.invalidation
    && d.confirm == parent.confirm && d.trigger.None? && d.expires.None?
  }

  // -------------------------------------------------------- the open cycle

  /** `e` is the newest event of its side before `ts`. */
  ghost predicate IsNewest(ds: seq<Detection>, ts: int, e: Detection) {
    e in ds && e.ts < ts && forall x :: x in ds && IsBottom(x.kind) == IsBottom(e.kind) && x.ts < ts ==> x.ts <= e.ts
  }

  /** The side has no event before `ts`, or its newest ended a cycle. */
  ghost predicate NothingOpen(ds: seq<Detection>, ts: int, bottom: bool) {
    forall e :: IsNewest(ds, ts, e) && IsBottom(e.kind) == bottom ==> e.kind.BottomFailed? || e.kind.TopInvalidated?
  }

  /** The newest event of the side before `ts` is `p`, of kind `kind`. */
  ghost predicate OpenWith(ds: seq<Detection>, ts: int, p: Detection, kind: EventKind) {
    IsNewest(ds, ts, p) && p.kind == kind
  }

  /** Bar `i` gives the event `d`, where `ds` are the events of the series. */
  ghost predicate Gives(s: seq<Point>, ds: seq<Detection>, i: int, d: Detection) {
    Looked(s, i) &&
    match d.kind
    case BottomPassivation =>
      NothingOpen(ds, s[i].ts, true) && BottomsOut(s, i) && OpensAt(d, s[i]) && IsLowest(s, i - 30, i + 1, d.pivot)
    case BottomStructure =>
      BreaksOut(s, i) && d.confirm.Some? && IsHighest(s, i - 8, i, d.confirm.value)
      && exists p :: OpenWith(ds, s[i].ts, p, BottomPassivation) && ConfirmsAt(d, s[i], p)
    case BottomFailed =>
      exists p :: OpenWith(ds, s[i].ts, p, BottomStructure) && FailsBelow(s, i, p.invalidation) && ClosesAt(d, s[i], p)
    case TopPassivation =>
      NothingOpen(ds, s[i].ts, false) && TopsOut(s, i) && OpensAt(d, s[i]) && IsHighest(s, i - 30, i + 1, d.pivot)
    case TopStructure =>
      BreaksDown(s, i) && d.confirm.Some? && IsLowest(s, i - 8, i, d.confirm.value)
      && exists p :: OpenWith(ds, s[i].ts, p, TopPassivation) && ConfirmsAt(d, s[i], p)
    case TopInvalidated =>
      exists p :: OpenWith(ds, s[i].ts, p, TopStructure) && RecoversAbove(s, i, p.invalidation) && ClosesAt(d, s[i], p)
  }

  // --------------------------------------------- the extremes are those bars

  lemma {:induction false} DifExtremes(s: seq<Point>, lo: nat, hi: nat, x: real)
    requires lo < hi <= |s|
    ensures LowestDif(s, lo, hi) < x <==> exists k :: lo <= k < hi && s[k].dif < x
    ensures HighestDif(s, lo, hi) > x <==> exists k :: lo <= k < hi && s[k].dif > x
  {
    if lo + 1 < hi {
      DifExtremes(s, lo, hi - 1, x);
    }
  }

  lemma ExtremesAreThose(s: seq<Point>, lo: nat, hi: nat)
    requires lo < hi <= |s|
    ensures forall x :: IsLowest(s, lo, hi, x) <==> x == LowestLow(s, lo, hi)
    ensures forall x :: IsHighest(s, lo, hi, x) <==> x == HighestHigh(s, lo, hi)
  {
  }

  /** A move measured from the extreme of a window, as the detector writes it. */
  lemma MovesAreThose(s: seq<Point>, lo: nat, i: nat, atr: real)
    requires lo < i < |s|
    ensures var high := HighestHigh(s, lo, i);
      FellFar(s, lo, i, atr) <==> (high - s[i].low) / MaxReal(high, 0.0001) >= PRE_MOVE_PCT || high - s[i].low >= PRE_MOVE_ATR * atr
    ensures var low := LowestLow(s, lo, i);
      RoseFar(s, lo, i, atr) <==> (s[i].high - low) / MaxReal(low, 0.0001) >= PRE_MOVE_PCT || s[i].high - low >= PRE_MOVE_ATR * atr
  {
    hide IsLowest, IsHighest, LowestLow, HighestHigh;
    ExtremesAreThose(s, lo, i);
    assert IsHighest(s, lo, i, HighestHigh(s, lo, i)) && IsLowest(s, lo, i, LowestLow(s, lo, i));
  }

  lemma ExtremesWithBar(s: seq<Point>, lo: nat, i: nat)
    requires lo < i < |s|
    ensures LowestLow(s, lo, i + 1) == MinReal(s[i].low, LowestLow(s, lo, i))
    ensures HighestHigh(s, lo, i + 1) == MaxReal(s[i].high, HighestHigh(s, lo, i))
  {
  }

  // ------------------------------------------------------- the six of one bar

  lemma BottomPassivationIff(s: seq<Point>, i: nat, c: Cycle, d: Detection)
    requires Looked(s, i)
    ensures FindBottomPassivation(s, i, c) == Some(d) <==>
      && d.kind.BottomPassivation? && c.bottomPassivation.None? && c.bottomStructure.None? && BottomsOut(s, i)
      && OpensAt(d, s[i]) && IsLowest(s, i - 30, i + 1, d.pivot)
  {
    hide LowestLow, HighestHigh, LowestDif, HighestDif, IsLowest, IsHighest, FellFar, MaxReal, MinReal;
    DifExtremes(s, i - 30, i, s[i].dif);
    MovesAreThose(s, i - 30, i, s[i].atr.value);
    ExtremesWithBar(s, i - 30, i);
    ExtremesAreThose(s, i - 30, i + 1);
  }

  lemma TopPassivationIff(s: seq<Point>, i: nat, c: Cycle, d: Detection)
    requires Looked(s, i)
    ensures FindTopPassivation(s, i, c) == Some(d) <==>
      && d.kind.TopPassivation? && c.topPassivation.None? && c.topStructure.None? && TopsOut(s, i)
      && OpensAt(d, s[i]) && IsHighest(s, i - 30, i + 1, d.pivot)
  {
    hide LowestLow, HighestHigh, LowestDif, HighestDif, IsLowest, IsHighest, RoseFar, MaxReal, MinReal;
    DifExtremes(s, i - 30, i, s[i].dif);
    MovesAreThose(s, i - 30, i, s[i].atr.value);
    ExtremesWithBar(s, i - 30, i);
    ExtremesAreThose(s, i - 30, i + 1);
  }

  lemma BottomStructureIff(s: seq<Point>, i: nat, c: Cycle, d: Detection)
    requires Looked(s, i)
    ensures FindBottomStructure(s, i, c) == Some(d) <==>
      && d.kind.BottomStructure? && c.bottomStructure.None? && c.bottomPassivation.Some? && c.bottomPassivation.value.ts < s[i].ts
      && BreaksOut(s, i) && d.confirm.Some? && IsHighest(s, i - 8, i, d.confirm.value) && ConfirmsAt(d, s[i], c.bottomPassivation.value)
  {
    hide HighestHigh, IsHighest;
    ExtremesAreThose(s, i - 8, i);
  }

  lemma TopStructureIff(s: seq<Point>, i: nat, c: Cycle, d: Detection)
    requires Looked(s, i)
    ensures FindTopStructure(s, i, c) == Some(d) <==>
      && d.kind.TopStructure? && c.topStructure.None? && c.topPassivation.Some? && c.topPassivation.value.ts < s[i].ts
      && BreaksDown(s, i) && d.confirm.Some? && IsLowest(s, i - 8, i, d.confirm.value) && ConfirmsAt(d, s[i], c.topPassivation.value)
  {
    hide LowestLow, IsLowest;
    ExtremesAreThose(s, i - 8, i);
  }

  lemma EndingsIff(s: seq<Point>, i: nat, c: Cycle, d: Detection)
    requires Looked(s, i)
    ensures FindBottomFailed(s, i, c) == Some(d) <==>
      && d.kind.BottomFailed? && c.bottomStructure.Some? && c.bottomStructure.value.ts < s[i].ts
      && FailsBelow(s, i, c.bottomStructure.value.invalidation) && ClosesAt(d, s[i], c.bottomStructure.value)
    ensures FindTopInvalidated(s, i, c) == Some(d) <==>
      && d.kind.TopInvalidated? && c.topStructure.Some? && c.topStructure.value.ts < s[i].ts
      && RecoversAbove(s, i, c.topStructure.value.invalidation) && ClosesAt(d, s[i], c.topStructure.value)
  {
  }

  // -------------------------------------------------------- the joined series

  predicate IsPoint(b: StoredBar, p: Point) {
    && b.dif.Some? && b.hist.Some?
    && p == Point(b.ts, b.high, b.low, b.close, b.volume, b.dif.value, b.hist.value, b.atr, b.ma20, b.volumeMa)
  }

  /** `ids` are the bars from `from` on with a DIF and a histogram, in order, and `s` are their points. */
  ghost predicate JoinsFrom(bars: seq<StoredBar>, from: int, ids: seq<nat>, s: seq<Point>) {
    && (forall i, j :: 0 <= i < j < |ids| ==> ids[i] < ids[j])
    && (forall i: nat :: i in ids <==> from <= i < |bars| && bars[i].dif.Some? && bars[i].hist.Some?)
    && |s| == |ids| && forall k :: 0 <= k < |ids| ==> ids[k] < |bars| && IsPoint(bars[ids[k]], s[k])
  }

  lemma {:induction false} JoinSelects(bars: seq<StoredBar>, from: nat) returns (ids: seq<nat>)
    requires from <= |bars|
    ensures JoinsFrom(bars, from, ids, Join(bars[from..]))
    decreases |bars|
  {
    if from == |bars| {
      ids := [];
    } else {
      hide JoinsFrom, Join;
      var n := |bars| - 1;
      var init := JoinSelects(bars[..n], from);
      JoinOfLast(bars, from);
      ids := if bars[n].dif.Some? && bars[n].hist.Some? then init + [n] else init;
      JoinStep(bars, from, init, Join(bars[..n][from..]), ids);
    }
  }

  lemma JoinOfLast(bars: seq<StoredBar>, from: nat)
    requires from < |bars|
    ensures Join(bars[from..]) == Join(bars[..|bars| - 1][from..]) + JoinBar(bars[|bars| - 1])
  {
    var n, tail := |bars| - 1, bars[from..];
    assert tail[..n - from] == bars[..n][from..] && tail[|tail| - 1] == bars[n];
  }

  lemma JoinStep(bars: seq<StoredBar>, from: nat, init: seq<nat>, s: seq<Point>, ids: seq<nat>)
    requires from < |bars| && JoinsFrom(bars[..|bars| - 1], from, init, s)
    requires var b := bars[|bars| - 1]; ids == if b.dif.Some? && b.hist.Some? then init + [|bars| - 1] else init
    ensures JoinsFrom(bars, from, ids, s + JoinBar(bars[|bars| - 1]))
  {
    var n := |bars| - 1;
    assert forall k :: 0 <= k < |init| ==> init[k] in init;
    assert forall i :: 0 <= i < n ==> bars[..n][i] == bars[i];
    forall i: nat ensures i in ids <==> from <= i < |bars| && bars[i].dif.Some? && bars[i].hist.Some? {
      assert i in init <==> from <= i < n && bars[i].dif.Some? && bars[i].hist.Some?;
    }
  }

  /** The detector reads the last 160 stored bars, those that have a DIF and a histogram, in their order. */
  lemma SeriesIsLast160(bars: seq<StoredBar>) returns (ids: seq<nat>)
    ensures JoinsFrom(bars, |bars| - 160, ids, JoinedSeries(bars))
  {
    ids := JoinSelects(bars, if |bars| <= 160 then 0 else |bars| - 160);
    assert bars[0..] == bars;
  }

  // ---------------------------------------------------- the newest of a side

  lemma {:induction false} SideMembers(es: seq<Detection>, d: Detection)
    ensures d in Bottoms(es) <==> d in es && IsBottom(d.kind)
    ensures d in Tops(es) <==> d in es && !IsBottom(d.kind)
  {
    if es != [] {
      var n := |es| - 1;
      SideMembers(es[..n], d);
      assert es == es[..n] + [es[n]];
    }
  }

  /** `es` are the events of `ds` before `ts`. */
  ghost predicate EventsBefore(ds: seq<Detection>, ts: int, es: seq<Detection>) {
    forall e :: e in es <==> e in ds && e.ts < ts
  }

  /** In time order the newest event of a side is its last. */
  lemma NewestIsLast(ds: seq<Detection>, ts: int, es: seq<Detection>, side: seq<Detection>, bottom: bool, kind: nat -> EventKind)
    requires EventsBefore(ds, ts, es) && Grammar(side, kind)
    requires forall e :: e in side <==> e in es && IsBottom(e.kind) == bottom
    ensures forall e :: IsNewest(ds, ts, e) && IsBottom(e.kind) == bottom <==> side != [] && e == side[|side| - 1]
  {
    if side != [] {
      var n, last := |side| - 1, side[|side| - 1];
      assert last in side;
      forall e | e in side ensures e.ts <= last.ts && (e.ts == last.ts ==> e == last) {
        var j :| 0 <= j < |side| && side[j] == e;
        TimesGrow(side, kind, j, n);
      }
      forall e | IsNewest(ds, ts, e) && IsBottom(e.kind) == bottom ensures e == last {
        assert e in side;
      }
    } else {
      forall e | e in ds && e.ts < ts ensures IsBottom(e.kind) != bottom {
        assert e in es && e !in side;
      }
    }
  }

  lemma {:induction false} TimesGrow(side: seq<Detection>, kind: nat -> EventKind, i: nat, j: nat)
    requires Grammar(side, kind) && i <= j < |side|
    ensures i < j ==> side[i].ts < side[j].ts
  {
    if i < j {
      TimesGrow(side, kind, i, j - 1);
    }
  }

  /** What the detector's cycle says of the bottom side. */
  lemma BottomCycle(ds: seq<Detection>, ts: int, es: seq<Detection>, c: Cycle)
    requires EventsBefore(ds, ts, es) && BottomSide(Bottoms(es), c, ts)
    ensures NothingOpen(ds, ts, true) <==> c.bottomPassivation.None? && c.bottomStructure.None?
    ensures forall p :: OpenWith(ds, ts, p, BottomPassivation) <==> c.bottomStructure.None? && c.bottomPassivation == Some(p)
    ensures forall p :: OpenWith(ds, ts, p, BottomStructure) <==> c.bottomStructure == Some(p)
  {
    hide IsNewest, Grammar, Bottoms, Before, EventsBefore;
    var side := Bottoms(es);
    forall e ensures e in side <==> e in es && IsBottom(e.kind) == true {
      SideMembers(es, e);
    }
    NewestIsLast(ds, ts, es, side, true, BottomKind);
    if side != [] {
      LastKind(side, BottomKind);
      assert IsNewest(ds, ts, side[|side| - 1]);
    }
  }

  lemma LastKind(side: seq<Detection>, kind: nat -> EventKind)
    requires side != [] && Grammar(side, kind)
    ensures side[|side| - 1].kind == kind(|side| - 1)
  {
  }

  lemma TopCycle(ds: seq<Detection>, ts: int, es: seq<Detection>, c: Cycle)
    requires EventsBefore(ds, ts, es) && TopSide(Tops(es), c, ts)
    ensures NothingOpen(ds, ts, false) <==> c.topPassivation.None? && c.topStructure.None?
    ensures forall p :: OpenWith(ds, ts, p, TopPassivation) <==> c.topStructure.None? && c.topPassivation == Some(p)
    ensures forall p :: OpenWith(ds, ts, p, TopStructure) <==> c.topStructure == Some(p)
  {
    hide IsNewest, Grammar, Tops, Before, EventsBefore;
    var side := Tops(es);
    forall e ensures e in side <==> e in es && IsBottom(e.kind) == false {
      SideMembers(es, e);
    }
    NewestIsLast(ds, ts, es, side, false, TopKind);
    if side != [] {
      LastKind(side, TopKind);
      assert IsNewest(ds, ts, side[|side| - 1]);
    }
  }

  // ------------------------------------------------------- one bar's events

  /** A passivation found in the bar itself confirms nothing in it. */
  lemma FoundIffOneOfSix(s: seq<Point>, i: nat, c: Cycle, d: Detection)
    requires Looked(s, i)
    ensures d in DetectAt(s, i, c) <==>
      || FindBottomPassivation(s, i, c) == Some(d) || FindTopPassivation(s, i, c) == Some(d)
      || FindBottomStructure(s, i, c) == Some(d) || FindTopStructure(s, i, c) == Some(d)
      || FindBottomFailed(s, i, c) == Some(d) || FindTopInvalidated(s, i, c) == Some(d)
  {
    hide LowestLow, HighestHigh, LowestDif, HighestDif, FindBottomFailed, FindTopInvalidated;
    var bottom, top := FindBottomPassivation(s, i, c), FindTopPassivation(s, i, c);
    var c1 := WithPassivations(c, bottom, top);
    assert FindBottomStructure(s, i, c1) == FindBottomStructure(s, i, c);
    assert FindTopStructure(s, i, c1) == FindTopStructure(s, i, c);
  }

  /** Bar `i` of a series gives exactly the events its bars call for. */
  lemma BarGives(s: seq<Point>, ds: seq<Detection>, i: nat, es: seq<Detection>, c: Cycle, d: Detection)
    requires FIRST_INDEX <= i < |s| && EventsBefore(ds, s[i].ts, es)
    requires BottomSide(Bottoms(es), c, s[i].ts) && TopSide(Tops(es), c, s[i].ts)
    ensures d in DetectAt(s, i, c) <==> Gives(s, ds, i, d)
  {
    hide BottomSide, TopSide, EventsBefore;
    if Looked(s, i) {
      LookedBarGives(s, ds, i, es, c, d);
    }
  }

  lemma LookedBarGives(s: seq<Point>, ds: seq<Detection>, i: nat, es: seq<Detection>, c: Cycle, d: Detection)
    requires Looked(s, i) && EventsBefore(ds, s[i].ts, es)
    requires BottomSide(Bottoms(es), c, s[i].ts) && TopSide(Tops(es), c, s[i].ts)
    ensures d in DetectAt(s, i, c) <==> Gives(s, ds, i, d)
  {
    hide FindBottomPassivation, FindTopPassivation, FindBottomStructure, FindTopStructure, FindBottomFailed, FindTopInvalidated, DetectAt;
    hide BottomsOut, TopsOut, BreaksOut, BreaksDown, FailsBelow, RecoversAbove, OpensAt, ConfirmsAt, ClosesAt, IsHighest, IsLowest;
    hide NothingOpen, OpenWith, BottomSide, TopSide, EventsBefore, Bottoms, Tops;
    OpenIsBefore(es, c, s[i].ts);
    BottomCycle(ds, s[i].ts, es, c);
    TopCycle(ds, s[i].ts, es, c);
    FoundIffOneOfSix(s, i, c, d);
    BottomPassivationIff(s, i, c, d);
    TopPassivationIff(s, i, c, d);
    BottomStructureIff(s, i, c, d);
    TopStructureIff(s, i, c, d);
    EndingsIff(s, i, c, d);
  }

  lemma OpenIsBefore(es: seq<Detection>, c: Cycle, ts: int)
    requires BottomSide(Bottoms(es), c, ts) && TopSide(Tops(es), c, ts)
    ensures (c.bottomPassivation.Some? ==> c.bottomPassivation.value.ts < ts) && (c.bottomStructure.Some? ==> c.bottomStructure.value.ts < ts)
    ensures (c.topPassivation.Some? ==> c.topPassivation.value.ts < ts) && (c.topStructure.Some? ==> c.topStructure.value.ts < ts)
  {
    hide Grammar;
  }

  // --------------------------------------------------------- the whole series

  /** The events up to bar `n` are those found at the bars before it. */
  lemma {:induction false} FoundAtBars(s: seq<Point>, n: nat, d: Detection)
    requires n <= |s|
    ensures d in DetectUpTo(s, n).0 <==> exists i :: FIRST_INDEX <= i < n && d in DetectAt(s, i, DetectUpTo(s, i).1)
  {
    hide DetectAt, AdvanceAll;
    if n > FIRST_INDEX {
      FoundAtBars(s, n - 1, d);
    }
  }

  lemma FoundHasItsTime(s: seq<Point>, i: nat, c: Cycle, d: Detection)
    requires FIRST_INDEX <= i < |s| && d in DetectAt(s, i, c)
    ensures d.ts == s[i].ts
  {
    hide LowestLow, HighestHigh, LowestDif, HighestDif;
  }

  lemma EventsBeforeBar(s: seq<Point>, i: nat)
    requires Increasing(s) && FIRST_INDEX <= i < |s|
    ensures EventsBefore(DetectUpTo(s, |s|).0, s[i].ts, DetectUpTo(s, i).0)
  {
    hide DetectAt, DetectUpTo;
    var ds, es := DetectUpTo(s, |s|).0, DetectUpTo(s, i).0;
    forall e ensures e in es <==> e in ds && e.ts < s[i].ts {
      FoundAtBars(s, i, e);
      FoundAtBars(s, |s|, e);
      forall j | FIRST_INDEX <= j < |s| && e in DetectAt(s, j, DetectUpTo(s, j).1) ensures e.ts == s[j].ts {
        FoundHasItsTime(s, j, DetectUpTo(s, j).1, e);
      }
    }
  }

  lemma BarOfSeriesGives(s: seq<Point>, i: nat, d: Detection)
    requires Increasing(s) && FIRST_INDEX <= i < |s|
    ensures d in DetectAt(s, i, DetectUpTo(s, i).1) <==> Gives(s, DetectUpTo(s, |s|).0, i, d)
  {
    hide DetectUpTo, Gives, DetectAt, EventsBefore, BottomSide, TopSide;
    var (es, c) := DetectUpTo(s, i);
    EventsBeforeBar(s, i);
    GrammarUpTo(s, i, s[i].ts);
    BarGives(s, DetectUpTo(s, |s|).0, i, es, c, d);
  }

  /**
   Which bars carry an event.  On every series of at least 40 bars with increasing times, the detector
   reports an event exactly when some bar gives it: by its own prices, averages, DIF, histogram and
   volume, by the bars just before it, and by what the events before it left open.
   */
  lemma EventsAreGivenByBars(s: seq<Point>, d: Detection)
    requires Increasing(s)
    ensures d in Detect(s) <==> |s| >= 40 && exists i :: Gives(s, Detect(s), i, d)
  {
    hide DetectUpTo, Gives, DetectAt, Increasing;
    if |s| >= 40 {
      var ds := DetectUpTo(s, |s|).0;
      FoundAtBars(s, |s|, d);
      if d in ds {
        var i :| FIRST_INDEX <= i < |s| && d in DetectAt(s, i, DetectUpTo(s, i).1);
        BarOfSeriesGives(s, i, d);
        assert Gives(s, ds, i, d);
      }
      if i :| Gives(s, ds, i, d) {
        GivenWhereLooked(s, ds, i, d);
        BarOfSeriesGives(s, i, d);
      }
    }
  }

  lemma GivenWhereLooked(s: seq<Point>, ds: seq<Detection>, i: int, d: Detection)
    requires Gives(s, ds, i, d)
    ensures FIRST_INDEX <= i < |s|
  {
  }
}
