/** What every run of the detector keeps: the lifecycle grammar and prefix stability. */
module Lifecycle {
  import opened Common
  import opened Structures

  // ------------------------------------------------------ prefix stability

  lemma {:induction false} DifExtremesOfPrefix(s: seq<Point>, t: seq<Point>, lo: nat, hi: nat)
    requires lo < hi <= |s| && s <= t
    ensures LowestDif(s, lo, hi) == LowestDif(t, lo, hi) && HighestDif(s, lo, hi) == HighestDif(t, lo, hi)
  {
    if lo + 1 < hi {
      DifExtremesOfPrefix(s, t, lo, hi - 1);
    }
  }

  lemma PassivationsOfPrefix(s: seq<Point>, t: seq<Point>, i: nat, c: Cycle)
    requires FIRST_INDEX <= i < |s| && s <= t && Ready(s, i)
    ensures FindBottomPassivation(s, i, c) == FindBottomPassivation(t, i, c)
    ensures FindTopPassivation(s, i, c) == FindTopPassivation(t, i, c)
  {
    hide LowestLow, HighestHigh, LowestDif, HighestDif;
    DifExtremesOfPrefix(s, t, i - LOOKBACK, i);
  }

  lemma StructuresOfPrefix(s: seq<Point>, t: seq<Point>, i: nat, c: Cycle)
    requires FIRST_INDEX <= i < |s| && s <= t
    ensures FindBottomStructure(s, i, c) == FindBottomStructure(t, i, c)
    ensures FindTopStructure(s, i, c) == FindTopStructure(t, i, c)
  {
    hide LowestLow, HighestHigh;
  }

  /** A bar's events depend on that bar and the bars before it. */
  lemma {:induction false} DetectAtOfPrefix(s: seq<Point>, t: seq<Point>, i: nat, c: Cycle)
    requires FIRST_INDEX <= i < |s| && s <= t
    ensures DetectAt(s, i, c) == DetectAt(t, i, c)
  {
    hide FindBottomPassivation, FindTopPassivation, FindBottomStructure, FindTopStructure;
    if Ready(s, i) {
      PassivationsOfPrefix(s, t, i, c);
      StructuresOfPrefix(s, t, i, WithPassivations(c, FindBottomPassivation(s, i, c), FindTopPassivation(s, i, c)));
    }
  }

  lemma {:induction false} DetectUpToOfPrefix(s: seq<Point>, t: seq<Point>, n: nat)
    requires n <= |s| && s <= t
    ensures DetectUpTo(s, n) == DetectUpTo(t, n)
  {
    hide DetectAt;
    if n > FIRST_INDEX {
      DetectUpToOfPrefix(s, t, n - 1);
      DetectAtOfPrefix(s, t, n - 1, DetectUpTo(s, n - 1).1);
    }
  }

  lemma {:induction false} DetectionsGrow(s: seq<Point>, m: nat, n: nat)
    requires m <= n <= |s|
    ensures DetectUpTo(s, m).0 <= DetectUpTo(s, n).0
  {
    hide DetectAt;
    if m < n && n > FIRST_INDEX {
      DetectionsGrow(s, m, n - 1);
    }
  }

  /** The detections of a prefix are a prefix of the detections: no event is revised by later bars. */
  lemma DetectionsOfPrefix(s: seq<Point>, t: seq<Point>)
    requires s <= t
    ensures Detect(s) <= Detect(t)
  {
    hide DetectUpTo;
    if |s| >= MINIMUM_HISTORY {
      DetectUpToOfPrefix(s, t, |s|);
      DetectionsGrow(t, |s|, |t|);
    }
  }

  lemma {:induction false} JoinOfPrefix(bars: seq<StoredBar>, m: nat)
    requires m <= |bars|
    ensures Join(bars[..m]) <= Join(bars)
  {
    if m < |bars| {
      var init := bars[..|bars| - 1];
      JoinOfPrefix(init, m);
      assert init[..m] == bars[..m];
    } else {
      assert bars[..m] == bars;
    }
  }

  /** The same for stored bars, as long as the history fits the window. */
  lemma DetectionsOfStoredPrefix(bars: seq<StoredBar>, m: nat)
    requires m <= |bars| <= WINDOW
    ensures Detect(JoinedSeries(bars[..m])) <= Detect(JoinedSeries(bars))
  {
    JoinOfPrefix(bars, m);
    DetectionsOfPrefix(Join(bars[..m]), Join(bars));
  }

  // ---------------------------------------------------- the lifecycle grammar

  function Bottoms(ds: seq<Detection>): seq<Detection> {
    if ds == [] then [] else Bottoms(ds[..|ds| - 1]) + if IsBottom(ds[|ds| - 1].kind) then [ds[|ds| - 1]] else []
  }

  function Tops(ds: seq<Detection>): seq<Detection> {
    if ds == [] then [] else Tops(ds[..|ds| - 1]) + if IsBottom(ds[|ds| - 1].kind) then [] else [ds[|ds| - 1]]
  }

  function BottomKind(j: nat): EventKind {
    if j % 3 == 0 then BottomPassivation else if j % 3 == 1 then BottomStructure else BottomFailed
  }

  function TopKind(j: nat): EventKind {
    if j % 3 == 0 then TopPassivation else if j % 3 == 1 then TopStructure else TopInvalidated
  }

  /** Inside a cycle the event names the one before it, later in time, and inherits its levels. */
  predicate Continues(parent: Detection, d: Detection) {
    d.parentKind == Some(parent.kind) && d.parentTs == Some(parent.ts) && parent.ts < d.ts
    && d.pivot == parent.pivot && d.invalidation == parent.invalidation
  }

  predicate Opens(d: Detection) {
    d.parentKind.None? && d.parentTs.None? && d.invalidation == d.pivot
  }

  /** Events of one side: a prefix of (passivation, structure, end)*, linked inside each cycle, in time order. */
  ghost predicate Grammar(es: seq<Detection>, kind: nat -> EventKind) {
    && (forall j :: 0 <= j < |es| ==> es[j].kind == kind(j))
    && (forall j :: 0 <= j < |es| && j % 3 == 0 ==> Opens(es[j]))
    && (forall j :: 0 < j < |es| && j % 3 != 0 ==> Continues(es[j - 1], es[j]))
    && (forall j :: 0 < j < |es| ==> es[j - 1].ts < es[j].ts)
  }

  /** What the open cycle of one side remembers of the events so far. */
  predicate Remembers(es: seq<Detection>, passivation: Option<Detection>, structure: Option<Detection>) {
    if |es| % 3 == 0 then passivation.None? && structure.None?
    else if |es| % 3 == 1 then passivation == Some(es[|es| - 1]) && structure.None?
    else |es| >= 2 && passivation == Some(es[|es| - 2]) && structure == Some(es[|es| - 1])
  }

  ghost predicate Before(es: seq<Detection>, ts: int) {
    forall j :: 0 <= j < |es| ==> es[j].ts < ts
  }

  /** The event of one side found in one bar, if any: it comes next in the grammar. */
  ghost predicate NextEvent(es: seq<Detection>, d: Detection, ts: int, kind: nat -> EventKind) {
    d.ts == ts && d.kind == kind(|es|) && if |es| % 3 == 0 then Opens(d) else Continues(es[|es| - 1], d)
  }

  lemma GrammarStep(es: seq<Detection>, d: Detection, ts: int, kind: nat -> EventKind)
    requires Grammar(es, kind) && Before(es, ts) && NextEvent(es, d, ts, kind)
    ensures Grammar(es + [d], kind) && Before(es + [d], ts + 1)
  {
  }

  /** The bottom events of one bar, as a list of at most one. */
  function BottomFound(s: seq<Point>, i: nat, c: Cycle): seq<Detection>
    requires FIRST_INDEX <= i < |s| && Ready(s, i)
  {
    var bottom := FindBottomPassivation(s, i, c);
    ToSeq(bottom) + ToSeq(FindBottomStructure(s, i, WithPassivations(c, bottom, None))) + ToSeq(FindBottomFailed(s, i, c))
  }

  function TopFound(s: seq<Point>, i: nat, c: Cycle): seq<Detection>
    requires FIRST_INDEX <= i < |s| && Ready(s, i)
  {
    var top := FindTopPassivation(s, i, c);
    ToSeq(top) + ToSeq(FindTopStructure(s, i, WithPassivations(c, None, top))) + ToSeq(FindTopInvalidated(s, i, c))
  }

  lemma OneBottomEventABar(s: seq<Point>, i: nat, c: Cycle, es: seq<Detection>)
    requires FIRST_INDEX <= i < |s| && Ready(s, i)
    requires Remembers(es, c.bottomPassivation, c.bottomStructure) && Before(es, s[i].ts) && Grammar(es, BottomKind)
    ensures var found := BottomFound(s, i, c);
      found == [] || (|found| == 1 && NextEvent(es, found[0], s[i].ts, BottomKind))
  {
    hide LowestLow, HighestHigh, LowestDif, HighestDif;
  }

  lemma OneTopEventABar(s: seq<Point>, i: nat, c: Cycle, es: seq<Detection>)
    requires FIRST_INDEX <= i < |s| && Ready(s, i)
    requires Remembers(es, c.topPassivation, c.topStructure) && Before(es, s[i].ts) && Grammar(es, TopKind)
    ensures var found := TopFound(s, i, c);
      found == [] || (|found| == 1 && NextEvent(es, found[0], s[i].ts, TopKind))
  {
    hide LowestLow, HighestHigh, LowestDif, HighestDif;
  }

  lemma {:induction false} SidesOfConcat(ds: seq<Detection>, more: seq<Detection>)
    ensures Bottoms(ds + more) == Bottoms(ds) + Bottoms(more)
    ensures Tops(ds + more) == Tops(ds) + Tops(more)
    decreases |more|
  {
    if more == [] {
      assert ds + more == ds;
    } else {
      var init := more[..|more| - 1];
      assert (ds + more)[..|ds + more| - 1] == ds + init;
      SidesOfConcat(ds, init);
    }
  }

  /** The bottom events of a bar and its top events, out of the list the code returns. */
  lemma SidesOfBar(s: seq<Point>, i: nat, c: Cycle)
    requires FIRST_INDEX <= i < |s| && Ready(s, i)
    ensures Bottoms(DetectAt(s, i, c)) == BottomFound(s, i, c) && Tops(DetectAt(s, i, c)) == TopFound(s, i, c)
  {
    hide LowestLow, HighestHigh, LowestDif, HighestDif;
    var bp, tp := FindBottomPassivation(s, i, c), FindTopPassivation(s, i, c);
    var c1 := WithPassivations(c, bp, tp);
    var bs, ts := FindBottomStructure(s, i, c1), FindTopStructure(s, i, c1);
    var bf, ti := FindBottomFailed(s, i, c), FindTopInvalidated(s, i, c);
    assert bs == FindBottomStructure(s, i, WithPassivations(c, bp, None));
    assert ts == FindTopStructure(s, i, WithPassivations(c, None, tp));
    SidesOfSix(bp, tp, bs, ts, bf, ti);
  }

  lemma SidesOfSix(bp: Option<Detection>, tp: Option<Detection>, bs: Option<Detection>, ts: Option<Detection>,
                   bf: Option<Detection>, ti: Option<Detection>)
    requires (bp.Some? ==> IsBottom(bp.value.kind)) && (bs.Some? ==> IsBottom(bs.value.kind)) && (bf.Some? ==> IsBottom(bf.value.kind))
    requires (tp.Some? ==> !IsBottom(tp.value.kind)) && (ts.Some? ==> !IsBottom(ts.value.kind)) && (ti.Some? ==> !IsBottom(ti.value.kind))
    ensures var all := ToSeq(bp) + ToSeq(tp) + ToSeq(bs) + ToSeq(ts) + ToSeq(bf) + ToSeq(ti);
      Bottoms(all) == ToSeq(bp) + ToSeq(bs) + ToSeq(bf) && Tops(all) == ToSeq(tp) + ToSeq(ts) + ToSeq(ti)
  {
    hide Bottoms, Tops, ToSeq;
    var pair, four := ToSeq(bp) + ToSeq(tp), ToSeq(bp) + ToSeq(tp) + ToSeq(bs) + ToSeq(ts);
    SidesOfPair(bp, tp);
    SidesOfPair(bs, ts);
    SidesOfPair(bf, ti);
    SidesOfConcat(pair, ToSeq(bs) + ToSeq(ts));
    assert pair + (ToSeq(bs) + ToSeq(ts)) == four;
    SidesOfConcat(four, ToSeq(bf) + ToSeq(ti));
    assert four + (ToSeq(bf) + ToSeq(ti)) == four + ToSeq(bf) + ToSeq(ti);
  }

  lemma SidesOfPair(bottom: Option<Detection>, top: Option<Detection>)
    requires (bottom.Some? ==> IsBottom(bottom.value.kind)) && (top.Some? ==> !IsBottom(top.value.kind))
    ensures Bottoms(ToSeq(bottom) + ToSeq(top)) == ToSeq(bottom) && Tops(ToSeq(bottom) + ToSeq(top)) == ToSeq(top)
  {
    hide Bottoms, Tops;
    SidesOfConcat(ToSeq(bottom), ToSeq(top));
    SidesOfOne(bottom);
    SidesOfOne(top);
  }

  lemma SidesOfOne(d: Option<Detection>)
    ensures Bottoms(ToSeq(d)) == if d.Some? && IsBottom(d.value.kind) then ToSeq(d) else []
    ensures Tops(ToSeq(d)) == if d.Some? && !IsBottom(d.value.kind) then ToSeq(d) else []
  {
    if d.Some? {
      assert [d.value][..0] == [];
      assert Bottoms([]) == [] && Tops([]) == [];
    }
  }

  predicate SameBottom(c: Cycle, d: Cycle) {
    c.bottomPassivation == d.bottomPassivation && c.bottomStructure == d.bottomStructure
  }

  predicate SameTop(c: Cycle, d: Cycle) {
    c.topPassivation == d.topPassivation && c.topStructure == d.topStructure
  }

  /** Each side's cycle follows its own events only. */
  lemma {:induction false} SidesAdvanceAlone(c: Cycle, ds: seq<Detection>)
    ensures SameBottom(AdvanceAll(c, ds), AdvanceAll(c, Bottoms(ds))) && SameTop(AdvanceAll(c, ds), AdvanceAll(c, Tops(ds)))
  {
    if ds != [] {
      var init, d := ds[..|ds| - 1], ds[|ds| - 1];
      OneSideAdvances(AdvanceAll(c, init), AdvanceAll(c, Bottoms(init)), d);
      OneSideAdvances(AdvanceAll(c, init), AdvanceAll(c, Tops(init)), d);
      hide Advance, SameBottom, SameTop;
      SidesAdvanceAlone(c, init);
      assert Bottoms(ds) == if IsBottom(d.kind) then Bottoms(init) + [d] else Bottoms(init);
      assert Tops(ds) == if IsBottom(d.kind) then Tops(init) else Tops(init) + [d];
    }
  }

  lemma OneSideAdvances(c: Cycle, c': Cycle, d: Detection)
    ensures SameBottom(c, c') ==> SameBottom(Advance(c, d), if IsBottom(d.kind) then Advance(c', d) else c')
    ensures SameTop(c, c') ==> SameTop(Advance(c, d), if IsBottom(d.kind) then c' else Advance(c', d))
  {
  }

  lemma AdvanceByOne(c: Cycle, d: Detection)
    ensures AdvanceAll(c, [d]) == Advance(c, d) && AdvanceAll(c, []) == c
  {
    assert [d][..0] == [];
  }

  /** The detector's state after some bars: a grammatical history and cycles that remember its end. */
  ghost predicate BottomSide(es: seq<Detection>, c: Cycle, ts: int) {
    Grammar(es, BottomKind) && Remembers(es, c.bottomPassivation, c.bottomStructure) && Before(es, ts)
  }

  ghost predicate TopSide(es: seq<Detection>, c: Cycle, ts: int) {
    Grammar(es, TopKind) && Remembers(es, c.topPassivation, c.topStructure) && Before(es, ts)
  }

  lemma BottomEventKeeps(c: Cycle, d: Detection, es: seq<Detection>, ts: int)
    requires BottomSide(es, c, ts) && NextEvent(es, d, ts, BottomKind)
    ensures BottomSide(es + [d], Advance(c, d), ts + 1)
  {
    hide Grammar;
    GrammarStep(es, d, ts, BottomKind);
  }

  lemma BottomBarKeeps(s: seq<Point>, i: nat, c: Cycle, es: seq<Detection>)
    requires FIRST_INDEX <= i < |s| && Ready(s, i) && BottomSide(es, c, s[i].ts)
    ensures BottomSide(es + Bottoms(DetectAt(s, i, c)), AdvanceAll(c, DetectAt(s, i, c)), s[i].ts + 1)
  {
    hide DetectAt, Bottoms, AdvanceAll, BottomFound, Grammar, Ready, NextEvent, Advance;
    var found := DetectAt(s, i, c);
    SidesOfBar(s, i, c);
    OneBottomEventABar(s, i, c, es);
    SidesAdvanceAlone(c, found);
    if Bottoms(found) == [] {
      AdvanceByOne(c, Opening(BottomPassivation, s[i], 0.0));
      assert es + [] == es;
    } else {
      var d := Bottoms(found)[0];
      assert Bottoms(found) == [d];
      AdvanceByOne(c, d);
      BottomEventKeeps(c, d, es, s[i].ts);
    }
  }

  lemma {:induction false} TopEventKeeps(c: Cycle, d: Detection, es: seq<Detection>, ts: int)
    requires TopSide(es, c, ts) && NextEvent(es, d, ts, TopKind)
    ensures TopSide(es + [d], Advance(c, d), ts + 1)
  {
    hide Grammar;
    GrammarStep(es, d, ts, TopKind);
  }

  lemma TopBarKeeps(s: seq<Point>, i: nat, c: Cycle, es: seq<Detection>)
    requires FIRST_INDEX <= i < |s| && Ready(s, i) && TopSide(es, c, s[i].ts)
    ensures TopSide(es + Tops(DetectAt(s, i, c)), AdvanceAll(c, DetectAt(s, i, c)), s[i].ts + 1)
  {
    hide DetectAt, Tops, AdvanceAll, TopFound, Grammar, Ready, NextEvent, Advance;
    var found := DetectAt(s, i, c);
    SidesOfBar(s, i, c);
    OneTopEventABar(s, i, c, es);
    SidesAdvanceAlone(c, found);
    if Tops(found) == [] {
      AdvanceByOne(c, Opening(TopPassivation, s[i], 0.0));
      assert es + [] == es;
    } else {
      var d := Tops(found)[0];
      assert Tops(found) == [d];
      AdvanceByOne(c, d);
      TopEventKeeps(c, d, es, s[i].ts);
    }
  }

  lemma {:induction false} GrammarUpTo(s: seq<Point>, n: nat, ts: int)
    requires n <= |s| && Increasing(s) && (n > 0 ==> s[n - 1].ts < ts)
    ensures BottomSide(Bottoms(DetectUpTo(s, n).0), DetectUpTo(s, n).1, ts)
    ensures TopSide(Tops(DetectUpTo(s, n).0), DetectUpTo(s, n).1, ts)
  {
    hide DetectAt, AdvanceAll, Grammar;
    if n <= FIRST_INDEX {
      EmptyIsGrammatical();
    } else {
      var i := n - 1;
      var (ds, c) := DetectUpTo(s, i);
      GrammarUpTo(s, i, s[i].ts);
      var found := DetectAt(s, i, c);
      SidesOfConcat(ds, found);
      if Ready(s, i) {
        BottomBarKeeps(s, i, c, Bottoms(ds));
        TopBarKeeps(s, i, c, Tops(ds));
      } else {
        QuietBar(s, i, c);
        assert ds + found == ds;
      }
    }
  }

  lemma QuietBar(s: seq<Point>, i: nat, c: Cycle)
    requires FIRST_INDEX <= i < |s| && !Ready(s, i)
    ensures DetectAt(s, i, c) == [] && AdvanceAll(c, DetectAt(s, i, c)) == c
  {
  }

  /**
   The lifecycle grammar.  For every series of bars with increasing times the bottom events are a
   prefix of (PASSIVATION STRUCTURE FAILED)*, the top events a prefix of (PASSIVATION STRUCTURE
   INVALIDATED)*; inside a cycle each event names the one before it at a strictly earlier time and
   carries the pivot and invalidation level the cycle opened with.
   */
  lemma EveryHistoryIsGrammatical(s: seq<Point>)
    requires Increasing(s)
    ensures Grammar(Bottoms(Detect(s)), BottomKind) && Grammar(Tops(Detect(s)), TopKind)
  {
    hide DetectUpTo, Grammar;
    if |s| >= MINIMUM_HISTORY {
      GrammarUpTo(s, |s|, s[|s| - 1].ts + 1);
    } else {
      EmptyIsGrammatical();
    }
  }

  lemma EmptyIsGrammatical()
    ensures Grammar(Bottoms([]), BottomKind) && Grammar(Tops([]), TopKind)
  {
  }

  lemma {:induction false} JoinKeepsOrder(bars: seq<StoredBar>)
    requires TimesIncrease(bars)
    ensures Increasing(Join(bars)) && forall j :: 0 <= j < |Join(bars)| ==> exists i :: 0 <= i < |bars| && bars[i].ts == Join(bars)[j].ts
  {
    if bars != [] {
      var n := |bars| - 1;
      var init := Join(bars[..n]);
      JoinKeepsOrder(bars[..n]);
      forall j | 0 <= j < |init| ensures init[j].ts < bars[n].ts {
        var i :| 0 <= i < |bars[..n]| && bars[..n][i].ts == init[j].ts;
        assert bars[i].ts < bars[n].ts;
      }
      forall j | 0 <= j < |Join(bars)| ensures exists i :: 0 <= i < |bars| && bars[i].ts == Join(bars)[j].ts {
        if j < |init| {
          var i :| 0 <= i < |bars[..n]| && bars[..n][i].ts == init[j].ts;
          assert bars[i].ts == Join(bars)[j].ts;
        } else {
          assert bars[n].ts == Join(bars)[j].ts;
        }
      }
    }
  }

  /** The grammar on stored bars: whatever the history's length, the scan of its window is grammatical. */
  lemma EveryScanIsGrammatical(bars: seq<StoredBar>)
    requires TimesIncrease(bars)
    ensures Increasing(JoinedSeries(bars))
    ensures Grammar(Bottoms(Detect(JoinedSeries(bars))), BottomKind) && Grammar(Tops(Detect(JoinedSeries(bars))), TopKind)
  {
    hide Detect, Grammar, Join;
    var window := if |bars| <= WINDOW then bars else bars[|bars| - WINDOW..];
    JoinKeepsOrder(window);
    EveryHistoryIsGrammatical(JoinedSeries(bars));
  }
}
