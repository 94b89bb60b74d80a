/** Corrections, entries and approvals of the signal desk, on their fields (corrections.py, state_machine.py, approvals.py). */
module SignalRules {
  import opened Common
  import opened Ledger
  import opened EntryTrigger
  import opened Corrections

  // ------------------------------------------------------ the bars since then

  predicate Ascends(ids: seq<nat>) {
    forall i, j :: 0 <= i < j < |ids| ==> ids[i] < ids[j]
  }

  /** `ids` are the bars later than `ts`, in their order. */
  ghost predicate LaterThan(bars: seq<TriggerBar>, ts: Time, ids: seq<nat>) {
    Ascends(ids) && forall i: nat :: i in ids <==> i < |bars| && bars[i].ts > ts
  }

  ghost predicate Selects(bars: seq<TriggerBar>, ids: seq<nat>, r: seq<TriggerBar>) {
    |r| == |ids| && forall k :: 0 <= k < |ids| ==> ids[k] < |bars| && r[k] == bars[ids[k]]
  }

  function LaterFrom(bars: seq<TriggerBar>, ts: Time, lo: nat): seq<nat>
    requires lo <= |bars|
    decreases |bars| - lo
  {
    if lo == |bars| then [] else (if bars[lo].ts > ts then [lo] else []) + LaterFrom(bars, ts, lo + 1)
  }

  lemma {:induction false} LaterFromAscends(bars: seq<TriggerBar>, ts: Time, lo: nat)
    requires lo <= |bars|
    ensures Ascends(LaterFrom(bars, ts, lo)) && forall i: nat :: i in LaterFrom(bars, ts, lo) <==> lo <= i < |bars| && bars[i].ts > ts
    decreases |bars| - lo
  {
    if lo < |bars| {
      hide Ascends;
      LaterFromAscends(bars, ts, lo + 1);
      var rest := LaterFrom(bars, ts, lo + 1);
      if bars[lo].ts > ts {
        AscendsPrepend(rest, lo);
        assert LaterFrom(bars, ts, lo) == [lo] + rest;
      } else {
        assert [] + rest == rest;
      }
    }
  }

  lemma AscendsPrepend(ids: seq<nat>, i: nat)
    requires Ascends(ids) && forall j: nat :: j in ids ==> i < j
    ensures Ascends([i] + ids) && forall j: nat :: j in [i] + ids <==> j == i || j in ids
  {
    assert forall k :: 0 <= k < |ids| ==> ids[k] in ids;
  }

  lemma SelectsPrepend(bars: seq<TriggerBar>, ids: seq<nat>, r: seq<TriggerBar>, i: nat)
    requires Selects(bars, ids, r) && i < |bars|
    ensures Selects(bars, [i] + ids, [bars[i]] + r)
  {
  }

  lemma {:induction false} LaterFromSelects(bars: seq<TriggerBar>, ts: Time, lo: nat)
    requires lo <= |bars|
    ensures Selects(bars, LaterFrom(bars, ts, lo), BarsAfter(bars[lo..], ts))
    decreases |bars| - lo
  {
    hide Selects;
    if lo < |bars| {
      LaterFromSelects(bars, ts, lo + 1);
      assert bars[lo..][0] == bars[lo] && bars[lo..][1..] == bars[lo + 1..];
      var ids, r := LaterFrom(bars, ts, lo + 1), BarsAfter(bars[lo + 1..], ts);
      if bars[lo].ts > ts {
        SelectsPrepend(bars, ids, r, lo);
      } else {
        assert [] + ids == ids;
      }
    } else {
      SelectsNothing(bars);
      assert bars[lo..] == [];
    }
  }

  lemma SelectsNothing(bars: seq<TriggerBar>)
    ensures Selects(bars, [], [])
  {
  }

  /** The bars since the trigger are exactly the later ones, in order. */
  lemma BarsAfterAreLater(bars: seq<TriggerBar>, ts: Time) returns (ids: seq<nat>)
    ensures LaterThan(bars, ts, ids) && Selects(bars, ids, BarsAfter(bars, ts))
  {
    ids := LaterFrom(bars, ts, 0);
    LaterFromAscends(bars, ts, 0);
    LaterFromSelects(bars, ts, 0);
    assert bars[0..] == bars;
  }

  // -------------------------------------------------------- a trigger that holds

  function Hist(bar: TriggerBar): Option<real> {
    if bar.indicator.Some? then bar.indicator.value.hist else None
  }

  /** No known histogram value is under one before it, the first of them `before`. */
  ghost predicate HistKeeps(before: Option<real>, bars: seq<TriggerBar>) {
    && (forall j :: 0 <= j < |bars| && before.Some? && Hist(bars[j]).Some? ==> before.value <= Hist(bars[j]).value)
    && forall i, j :: 0 <= i < j < |bars| && Hist(bars[i]).Some? && Hist(bars[j]).Some? ==> Hist(bars[i]).value <= Hist(bars[j]).value
  }

  /** At or over the level and any known MA20, the histogram kept, and the last close within 3 percent of the entry. */
  ghost predicate Keeps(bars: seq<TriggerBar>, level: real, entry: real, before: Option<real>) {
    && (forall j :: 0 <= j < |bars| ==> bars[j].close >= level)
    && (forall j :: 0 <= j < |bars| && bars[j].indicator.Some? && bars[j].indicator.value.ma20.Some? ==> bars[j].close >= bars[j].indicator.value.ma20.value)
    && HistKeeps(before, bars)
    && (bars != [] && entry != 0.0 ==>
          var off := if bars[|bars| - 1].close < entry then entry - bars[|bars| - 1].close else bars[|bars| - 1].close - entry; off / entry <= 0.03)
  }

  /** `r` are the first five bars later than `ts`, or all of them if fewer. */
  ghost predicate FirstFive(bars: seq<TriggerBar>, ts: Time, r: seq<TriggerBar>) {
    exists ids :: LaterThan(bars, ts, ids) && Selects(bars, if |ids| > 5 then ids[..5] else ids, r)
  }

  /** The first five bars since the trigger keep it; a signal without a trigger or entry has nothing to keep. */
  ghost predicate TriggerKept(sig: Signal, v: View) {
    sig.triggerTs.Some? && sig.triggerLevel.Some? && sig.entry.Some? ==>
      exists bars :: FirstFive(v.bars, sig.triggerTs.value, bars)
        && Keeps(bars, sig.triggerLevel.value, sig.entry.value, v.histAt(sig.triggerTs.value))
  }

  lemma HistSplit(before: Option<real>, bars: seq<TriggerBar>)
    requires bars != []
    ensures var h := Hist(bars[0]);
      HistKeeps(before, bars) <==>
        (h.Some? && before.Some? ==> before.value <= h.value) && HistKeeps(if h.Some? then h else before, bars[1..])
  {
    var h, rest := Hist(bars[0]), bars[1..];
    assert forall j :: 0 <= j < |rest| ==> rest[j] == bars[j + 1];
    if HistKeeps(before, bars) {
      forall j | 0 <= j < |rest| && Hist(rest[j]).Some? ensures (h.Some? ==> h.value <= Hist(rest[j]).value) && (before.Some? ==> before.value <= Hist(rest[j]).value) {
        assert rest[j] == bars[j + 1];
      }
      forall i, j | 0 <= i < j < |rest| && Hist(rest[i]).Some? && Hist(rest[j]).Some? ensures Hist(rest[i]).value <= Hist(rest[j]).value {
        assert rest[i] == bars[i + 1] && rest[j] == bars[j + 1];
      }
    }
    if (h.Some? && before.Some? ==> before.value <= h.value) && HistKeeps(if h.Some? then h else before, rest) {
      forall j | 0 <= j < |bars| && before.Some? && Hist(bars[j]).Some? ensures before.value <= Hist(bars[j]).value {
        if j > 0 {
          assert bars[j] == rest[j - 1];
        }
      }
      forall i, j | 0 <= i < j < |bars| && Hist(bars[i]).Some? && Hist(bars[j]).Some? ensures Hist(bars[i]).value <= Hist(bars[j]).value {
        assert bars[j] == rest[j - 1];
        if i > 0 {
          assert bars[i] == rest[i - 1];
        }
      }
    }
  }

  lemma {:induction false} HistsKept(before: Option<real>, bars: seq<TriggerBar>)
    ensures NeverFalls(KnownHists(before, bars)) <==> HistKeeps(before, bars)
    decreases |bars|
  {
    if bars != [] {
      hide NeverFalls, HistKeeps, KnownHists;
      var h := Hist(bars[0]);
      KnownSplit(bars, before);
      HistSplit(before, bars);
      HistsKept(if h.Some? then h else before, bars[1..]);
    }
  }

  lemma StandsIff(bars: seq<TriggerBar>, level: real, entry: real, before: Option<real>)
    ensures Keeps(bars, level, entry, before) <==>
      && (forall i :: 0 <= i < |bars| ==> Stands(bars[i], level)) && NeverFalls(KnownHists(before, bars))
      && (bars != [] ==> !Deviates(bars[|bars| - 1].close, entry))
  {
    hide HistKeeps, NeverFalls, KnownHists;
    HistsKept(before, bars);
  }

  lemma WatchedAreFirstFive(sig: Signal, v: View)
    requires sig.triggerTs.Some?
    ensures forall bars :: FirstFive(v.bars, sig.triggerTs.value, bars) <==> bars == Watched(sig, v)
  {
    hide LaterThan, BarsAfter;
    var ts := sig.triggerTs.value;
    var ids := BarsAfterAreLater(v.bars, ts);
    var first := if |ids| > 5 then ids[..5] else ids;
    assert Selects(v.bars, first, Watched(sig, v));
    forall bars | FirstFive(v.bars, ts, bars) ensures bars == Watched(sig, v) {
      var others :| LaterThan(v.bars, ts, others) && Selects(v.bars, if |others| > 5 then others[..5] else others, bars);
      SameSelection(v.bars, ts, ids, others);
    }
  }

  /** The code's check of a trigger is that it was kept. */
  lemma HoldsIffKept(sig: Signal, v: View)
    ensures TriggerHolds(sig, v) <==> TriggerKept(sig, v)
  {
    hide Keeps, Stands, NeverFalls, KnownHists, Deviates, Watched, FirstFive;
    if sig.triggerTs.Some? && sig.triggerLevel.Some? && sig.entry.Some? {
      WatchedAreFirstFive(sig, v);
      StandsIff(Watched(sig, v), sig.triggerLevel.value, sig.entry.value, v.histAt(sig.triggerTs.value));
      if Watched(sig, v) == [] {
        NothingKept(sig.triggerLevel.value, sig.entry.value, v.histAt(sig.triggerTs.value));
      }
    }
  }

  lemma NothingKept(level: real, entry: real, before: Option<real>)
    ensures Keeps([], level, entry, before)
  {
  }

  lemma SameSelection(bars: seq<TriggerBar>, ts: Time, ids: seq<nat>, others: seq<nat>)
    requires LaterThan(bars, ts, ids) && LaterThan(bars, ts, others)
    ensures ids == others
  {
    SameAscending(ids, others);
  }

  lemma {:induction false} SameAscending(ids: seq<nat>, others: seq<nat>)
    requires Ascends(ids) && Ascends(others) && forall i: nat :: i in ids <==> i in others
    ensures ids == others
  {
    hide Ascends;
    assert ids != [] ==> ids[0] in others;
    assert others != [] ==> others[0] in ids;
    if ids != [] && others != [] {
      var m, n := |ids| - 1, |others| - 1;
      LastIsLargest(ids);
      LastIsLargest(others);
      assert ids[m] in others && others[n] in ids;
      assert ids == ids[..m] + [ids[m]] && others == others[..n] + [others[n]];
      SameAscending(ids[..m], others[..n]);
    }
  }

  lemma LastIsLargest(ids: seq<nat>)
    requires Ascends(ids) && ids != []
    ensures var m := |ids| - 1; Ascends(ids[..m]) && forall i: nat :: i in ids ==> i <= ids[m] && (i in ids[..m] <==> i != ids[m])
  {
    var m := |ids| - 1;
    assert ids == ids[..m] + [ids[m]];
    assert forall k :: 0 <= k < m ==> ids[..m][k] == ids[k];
  }
}
