/** Idempotent persistence of detections: app/services/structures.py:280-347. */
module StructureTable {
  import opened Common
  import opened Structures
  import opened Lifecycle

  /** A structure_events row; the index is the id. */
  datatype EventRow = EventRow(
    symbol: string,
    event: Detection,
    parentId: Option<nat>,
    invalidated: bool,
    failed: bool,
    direction: Direction)

  function DirectionOf(k: EventKind, bearish: bool): Direction {
    match k
    case BottomPassivation => Long
    case BottomStructure => Long
    case TopInvalidated => Long
    case TopStructure => if bearish then Short else RiskOnly
    case _ => RiskOnly
  }

  predicate HasKey(row: EventRow, symbol: string, k: EventKind, ts: int) {
    row.symbol == symbol && row.event.kind == k && row.event.ts == ts
  }

  function FindEvent(rows: seq<EventRow>, symbol: string, k: EventKind, ts: int): (r: Option<nat>)
    ensures r.Some? ==> r.value < |rows| && HasKey(rows[r.value], symbol, k, ts)
    ensures r.None? <==> forall i :: 0 <= i < |rows| ==> !HasKey(rows[i], symbol, k, ts)
  {
    if rows == [] then None
    else
      var r := FindEvent(rows[..|rows| - 1], symbol, k, ts);
      if r.Some? then r
      else if HasKey(rows[|rows| - 1], symbol, k, ts) then Some(|rows| - 1)
      else None
  }

  function ParentOf(rows: seq<EventRow>, symbol: string, d: Detection): Option<nat> {
    if d.parentKind.Some? && d.parentTs.Some? then FindEvent(rows, symbol, d.parentKind.value, d.parentTs.value) else None
  }

  /** A failure marks its structure failed and invalidated, an invalidation only the latter. */
  function Marked(row: EventRow, k: EventKind): EventRow {
    if k.BottomFailed? then row.(failed := true, invalidated := true)
    else if k.TopInvalidated? then row.(invalidated := true)
    else row
  }

  function Insert(rows: seq<EventRow>, symbol: string, d: Detection, bearish: bool): seq<EventRow> {
    var parent := ParentOf(rows, symbol, d);
    var marked := if parent.Some? && parent.value < |rows| then rows[parent.value := Marked(rows[parent.value], d.kind)] else rows;
    marked + [EventRow(symbol, d, parent, false, false, DirectionOf(d.kind, bearish))]
  }

  /** One detection: refresh the label of the row that has its key, or insert it under its parent. */
  function Persist(rows: seq<EventRow>, symbol: string, d: Detection, bearish: bool): seq<EventRow> {
    var at := FindEvent(rows, symbol, d.kind, d.ts);
    if at.Some? then rows[at.value := rows[at.value].(direction := DirectionOf(d.kind, bearish))]
    else Insert(rows, symbol, d, bearish)
  }

  function PersistAll(rows: seq<EventRow>, symbol: string, ds: seq<Detection>, bearish: bool): seq<EventRow> {
    if ds == [] then rows else Persist(PersistAll(rows, symbol, ds[..|ds| - 1], bearish), symbol, ds[|ds| - 1], bearish)
  }

  class EventTable {
    var rows: seq<EventRow>

    constructor ()
      ensures rows == []
    {
      rows := [];
    }

    /** One detection, in place: refresh the row that has its key, or insert it under its parent. */
    method PersistOne(symbol: string, d: Detection, bearish: bool) returns (id: nat)
      modifies this
      ensures rows == Persist(old(rows), symbol, d, bearish)
      ensures id < |rows| && HasKey(rows[id], symbol, d.kind, d.ts)
    {
      var existing := FindEvent(rows, symbol, d.kind, d.ts);
      if existing.Some? {
        id := existing.value;
        rows := rows[id := rows[id].(direction := DirectionOf(d.kind, bearish))];
        return;
      }
      var parent := ParentOf(rows, symbol, d);
      id := |rows|;
      if parent.Some? {
        var row := rows[parent.value];
        if d.kind.BottomFailed? {
          row := row.(failed := true, invalidated := true);
        } else if d.kind.TopInvalidated? {
          row := row.(invalidated := true);
        }
        rows := rows[parent.value := row];
      }
      rows := rows + [EventRow(symbol, d, parent, false, false, DirectionOf(d.kind, bearish))];
    }

    /** `persist_structure_detections`: the loop over the detections. */
    method PersistDetections(symbol: string, ds: seq<Detection>, bearish: bool) returns (records: seq<nat>)
      modifies this
      ensures rows == PersistAll(old(rows), symbol, ds, bearish)
      ensures |records| == |ds|
      ensures forall k :: 0 <= k < |ds| ==> records[k] < |rows| && HasKey(rows[records[k]], symbol, ds[k].kind, ds[k].ts)
    {
      hide Insert, FindEvent;
      records := [];
      for k := 0 to |ds|
        invariant rows == PersistAll(old(rows), symbol, ds[..k], bearish)
        invariant |records| == k
        invariant forall j :: 0 <= j < k ==> records[j] < |rows| && HasKey(rows[records[j]], symbol, ds[j].kind, ds[j].ts)
      {
        ghost var before := rows;
        assert ds[..k + 1][..k] == ds[..k];
        var id := PersistOne(symbol, ds[k], bearish);
        PersistKeepsRows(before, symbol, ds[k], bearish);
        records := records + [id];
      }
      assert ds[..|ds|] == ds;
    }
  }

  /** Persisting never renames a row. */
  lemma PersistKeepsRows(rows: seq<EventRow>, symbol: string, d: Detection, bearish: bool)
    ensures var r := Persist(rows, symbol, d, bearish);
      |rows| <= |r| && forall i :: 0 <= i < |rows| ==> r[i].symbol == rows[i].symbol && r[i].event == rows[i].event && r[i].parentId == rows[i].parentId
  {
  }

  // ------------------------------------------------------------ idempotence

  /** Equal but for the label that every scan refreshes. */
  predicate SameEvent(r: EventRow, q: EventRow) {
    r == q.(direction := r.direction)
  }

  ghost predicate SameEvents(rows: seq<EventRow>, other: seq<EventRow>) {
    |rows| == |other| && forall i :: 0 <= i < |rows| ==> SameEvent(rows[i], other[i])
  }

  ghost predicate HasAll(rows: seq<EventRow>, symbol: string, ds: seq<Detection>) {
    forall j :: 0 <= j < |ds| ==> FindEvent(rows, symbol, ds[j].kind, ds[j].ts).Some?
  }

  lemma {:induction false} SameLookup(rows: seq<EventRow>, other: seq<EventRow>, symbol: string, k: EventKind, ts: int)
    requires SameEvents(rows, other)
    ensures FindEvent(rows, symbol, k, ts) == FindEvent(other, symbol, k, ts)
  {
    if rows != [] {
      var n := |rows| - 1;
      SameLookup(rows[..n], other[..n], symbol, k, ts);
      assert SameEvent(rows[n], other[n]);
    }
  }

  /** Persisting does not see the labels. */
  lemma PersistIgnoresLabels(rows: seq<EventRow>, other: seq<EventRow>, symbol: string, d: Detection, bearish: bool, bearish': bool)
    requires SameEvents(rows, other)
    ensures SameEvents(Persist(rows, symbol, d, bearish), Persist(other, symbol, d, bearish'))
  {
    hide FindEvent, DirectionOf;
    SameLookup(rows, other, symbol, d.kind, d.ts);
    if d.parentKind.Some? && d.parentTs.Some? {
      SameLookup(rows, other, symbol, d.parentKind.value, d.parentTs.value);
    }
  }

  lemma {:induction false} PersistAllIgnoresLabels(rows: seq<EventRow>, other: seq<EventRow>, symbol: string, ds: seq<Detection>, bearish: bool, bearish': bool)
    requires SameEvents(rows, other)
    ensures SameEvents(PersistAll(rows, symbol, ds, bearish), PersistAll(other, symbol, ds, bearish'))
  {
    hide Persist;
    if ds != [] {
      var init := ds[..|ds| - 1];
      PersistAllIgnoresLabels(rows, other, symbol, init, bearish, bearish');
      PersistIgnoresLabels(PersistAll(rows, symbol, init, bearish), PersistAll(other, symbol, init, bearish'), symbol, ds[|ds| - 1], bearish, bearish');
    }
  }

  /** A persisted key stays, and persisting one adds it. */
  lemma PersistKeepsKeys(rows: seq<EventRow>, symbol: string, d: Detection, bearish: bool, k: EventKind, ts: int)
    ensures FindEvent(Persist(rows, symbol, d, bearish), symbol, d.kind, d.ts).Some?
    ensures FindEvent(rows, symbol, k, ts).Some? ==> FindEvent(Persist(rows, symbol, d, bearish), symbol, k, ts).Some?
  {
    var r := Persist(rows, symbol, d, bearish);
    var at := FindEvent(rows, symbol, d.kind, d.ts);
    assert HasKey(r[if at.Some? then at.value else |rows|], symbol, d.kind, d.ts);
    var was := FindEvent(rows, symbol, k, ts);
    if was.Some? {
      assert HasKey(r[was.value], symbol, k, ts);
    }
  }

  lemma {:induction false} PersistAllHasAll(rows: seq<EventRow>, symbol: string, ds: seq<Detection>, bearish: bool)
    ensures HasAll(PersistAll(rows, symbol, ds, bearish), symbol, ds)
  {
    hide Persist, FindEvent, HasKey;
    if ds != [] {
      var n := |ds| - 1;
      var prev := PersistAll(rows, symbol, ds[..n], bearish);
      PersistAllHasAll(rows, symbol, ds[..n], bearish);
      forall j | 0 <= j < |ds| ensures FindEvent(PersistAll(rows, symbol, ds, bearish), symbol, ds[j].kind, ds[j].ts).Some? {
        if j < n {
          assert ds[..n][j] == ds[j];
        }
        PersistKeepsKeys(prev, symbol, ds[n], bearish, ds[j].kind, ds[j].ts);
      }
    }
  }

  /** Persisting what is already there changes labels only. */
  lemma {:induction false} PersistAgain(rows: seq<EventRow>, symbol: string, ds: seq<Detection>, bearish: bool)
    requires HasAll(rows, symbol, ds)
    ensures SameEvents(PersistAll(rows, symbol, ds, bearish), rows)
  {
    hide Insert;
    if ds != [] {
      var n := |ds| - 1;
      assert HasAll(rows, symbol, ds[..n]) by {
        forall j | 0 <= j < n ensures FindEvent(rows, symbol, ds[..n][j].kind, ds[..n][j].ts).Some? {
          assert ds[..n][j] == ds[j];
        }
      }
      PersistAgain(rows, symbol, ds[..n], bearish);
      SameLookup(PersistAll(rows, symbol, ds[..n], bearish), rows, symbol, ds[n].kind, ds[n].ts);
    }
  }

  lemma {:induction false} PersistAllAppend(rows: seq<EventRow>, symbol: string, ds: seq<Detection>, more: seq<Detection>, bearish: bool)
    ensures PersistAll(rows, symbol, ds + more, bearish) == PersistAll(PersistAll(rows, symbol, ds, bearish), symbol, more, bearish)
    decreases |more|
  {
    hide Persist;
    if more == [] {
      assert ds + more == ds;
    } else {
      var init := more[..|more| - 1];
      PersistAllAppend(rows, symbol, ds, init, bearish);
      assert (ds + more)[..|ds + more| - 1] == ds + init;
    }
  }

  lemma SameEventsCompose(a: seq<EventRow>, b: seq<EventRow>, c: seq<EventRow>)
    requires SameEvents(a, b) && SameEvents(b, c)
    ensures SameEvents(a, c)
  {
    forall i | 0 <= i < |a| ensures SameEvent(a[i], c[i]) {
      assert SameEvent(a[i], b[i]) && SameEvent(b[i], c[i]);
    }
  }

  /** Persisting a list after one of its prefixes leaves what persisting it at once leaves. */
  lemma {:induction false} PersistAfterPrefix(rows: seq<EventRow>, symbol: string, ds: seq<Detection>, all: seq<Detection>, bearish: bool, bearish': bool)
    requires ds <= all
    ensures SameEvents(PersistAll(PersistAll(rows, symbol, ds, bearish), symbol, all, bearish'), PersistAll(rows, symbol, all, bearish'))
  {
    hide PersistAll, HasAll, SameEvents;
    var more := all[|ds|..];
    assert all == ds + more;
    var once, once' := PersistAll(rows, symbol, ds, bearish), PersistAll(rows, symbol, ds, bearish');
    var again := PersistAll(once, symbol, ds, bearish');
    PersistAllHasAll(rows, symbol, ds, bearish);
    PersistAgain(once, symbol, ds, bearish');
    Reflexive(rows);
    PersistAllIgnoresLabels(rows, rows, symbol, ds, bearish, bearish');
    SameEventsCompose(again, once, once');
    PersistAllIgnoresLabels(again, once', symbol, more, bearish', bearish');
    PersistAllAppend(once, symbol, ds, more, bearish');
    PersistAllAppend(rows, symbol, ds, more, bearish');
  }

  lemma Reflexive(rows: seq<EventRow>)
    ensures SameEvents(rows, rows)
  {
  }

  // ----------------------------------------------- incremental is one-shot

  /** One scan: the history it sees, and the daily state it labels with. */
  datatype Scan = Scan(bars: nat, bearish: bool)

  function AfterScans(rows: seq<EventRow>, symbol: string, bars: seq<StoredBar>, scans: seq<Scan>): seq<EventRow>
    requires forall k :: 0 <= k < |scans| ==> scans[k].bars <= |bars|
  {
    if scans == [] then rows
    else
      var last := scans[|scans| - 1];
      PersistAll(AfterScans(rows, symbol, bars, scans[..|scans| - 1]), symbol, Detect(JoinedSeries(bars[..last.bars])), last.bearish)
  }

  ghost predicate Growing(scans: seq<Scan>, n: nat) {
    (forall j, k :: 0 <= j < k < |scans| ==> scans[j].bars <= scans[k].bars) && forall k :: 0 <= k < |scans| ==> scans[k].bars <= n
  }

  /**
   Incremental scanning equals one-shot scanning.  For a history inside the window, scanning it as it
   grows, in any number of steps, leaves the events, levels, parent links and flags of one scan of
   the longest history.
   */
  lemma {:induction false} IncrementalEqualsOneShot(rows: seq<EventRow>, symbol: string, bars: seq<StoredBar>, scans: seq<Scan>)
    requires |bars| <= WINDOW && scans != [] && Growing(scans, |bars|)
    ensures var last := scans[|scans| - 1];
      SameEvents(AfterScans(rows, symbol, bars, scans), PersistAll(rows, symbol, Detect(JoinedSeries(bars[..last.bars])), last.bearish))
  {
    hide PersistAll, Detect, JoinedSeries, SameEvents;
    var n := |scans| - 1;
    var last := scans[n];
    var all := Detect(JoinedSeries(bars[..last.bars]));
    if n == 0 {
      assert scans[..0] == [];
      Reflexive(PersistAll(rows, symbol, all, last.bearish));
    } else {
      var before := scans[n - 1];
      var ds := Detect(JoinedSeries(bars[..before.bars]));
      assert scans[..n][n - 1] == before;
      IncrementalEqualsOneShot(rows, symbol, bars, scans[..n]);
      assert bars[..last.bars][..before.bars] == bars[..before.bars];
      DetectionsOfStoredPrefix(bars[..last.bars], before.bars);
      var prev := AfterScans(rows, symbol, bars, scans[..n]);
      PersistAllIgnoresLabels(prev, PersistAll(rows, symbol, ds, before.bearish), symbol, all, last.bearish, last.bearish);
      PersistAfterPrefix(rows, symbol, ds, all, before.bearish, last.bearish);
      SameEventsCompose(AfterScans(rows, symbol, bars, scans),
        PersistAll(PersistAll(rows, symbol, ds, before.bearish), symbol, all, last.bearish), PersistAll(rows, symbol, all, last.bearish));
    }
  }

  // -------------------------------------------------- flags and parent links

  predicate IsChild(row: EventRow, i: nat) {
    row.parentId == Some(i)
  }

  predicate Ends(k: EventKind, failure: bool) {
    k.BottomFailed? || (!failure && k.TopInvalidated?)
  }

  /** Some event points at row `i` and ends it: by a failure, or in any way. */
  ghost predicate EndedIn(rows: seq<EventRow>, i: nat, failure: bool) {
    exists j :: 0 <= j < |rows| && IsChild(rows[j], i) && Ends(rows[j].event.kind, failure)
  }

  /** A structure is flagged exactly when an event that ends it points at it. */
  ghost predicate FlagsMatch(rows: seq<EventRow>) {
    forall i :: 0 <= i < |rows| ==>
      (rows[i].failed <==> EndedIn(rows, i, true)) && (rows[i].invalidated <==> EndedIn(rows, i, false))
  }

  ghost predicate ParentsInTable(rows: seq<EventRow>) {
    forall j :: 0 <= j < |rows| && rows[j].parentId.Some? ==> rows[j].parentId.value < j
  }

  ghost predicate SameLinks(rows: seq<EventRow>, r: seq<EventRow>) {
    |rows| <= |r| && forall j :: 0 <= j < |rows| ==> r[j].parentId == rows[j].parentId && r[j].event == rows[j].event
  }

  lemma EndedAfterRelabel(rows: seq<EventRow>, r: seq<EventRow>, i: nat, failure: bool)
    requires SameLinks(rows, r) && |r| == |rows|
    ensures EndedIn(r, i, failure) <==> EndedIn(rows, i, failure)
  {
    assert forall j :: 0 <= j < |rows| ==> (IsChild(r[j], i) <==> IsChild(rows[j], i));
  }

  lemma EndedAfterInsert(rows: seq<EventRow>, r: seq<EventRow>, i: nat, failure: bool)
    requires SameLinks(rows, r) && |r| == |rows| + 1
    ensures EndedIn(r, i, failure) <==>
      EndedIn(rows, i, failure) || (IsChild(r[|rows|], i) && Ends(r[|rows|].event.kind, failure))
  {
    var init := r[..|rows|];
    EndedAfterRelabel(rows, init, i, failure);
    if EndedIn(init, i, failure) {
      var j :| 0 <= j < |init| && IsChild(init[j], i) && Ends(init[j].event.kind, failure);
      assert IsChild(r[j], i);
    }
    if EndedIn(r, i, failure) {
      var j :| 0 <= j < |r| && IsChild(r[j], i) && Ends(r[j].event.kind, failure);
      assert j == |rows| || IsChild(init[j], i);
    }
  }

  lemma InsertKeepsFlags(rows: seq<EventRow>, symbol: string, d: Detection, bearish: bool)
    requires FlagsMatch(rows) && ParentsInTable(rows)
    ensures FlagsMatch(Insert(rows, symbol, d, bearish)) && ParentsInTable(Insert(rows, symbol, d, bearish))
  {
    hide FindEvent, HasKey, DirectionOf, EndedIn;
    var n, r, parent := |rows|, Insert(rows, symbol, d, bearish), ParentOf(rows, symbol, d);
    forall i | 0 <= i < |r|
      ensures (r[i].failed <==> EndedIn(r, i, true)) && (r[i].invalidated <==> EndedIn(r, i, false))
    {
      EndedAfterInsert(rows, r, i, true);
      EndedAfterInsert(rows, r, i, false);
      if i == n {
        NothingPointsAhead(rows, true);
        NothingPointsAhead(rows, false);
      }
    }
  }

  lemma NothingPointsAhead(rows: seq<EventRow>, failure: bool)
    requires ParentsInTable(rows)
    ensures !EndedIn(rows, |rows|, failure)
  {
  }

  lemma RelabelKeepsFlags(rows: seq<EventRow>, k: nat, direction: Direction)
    requires k < |rows| && FlagsMatch(rows) && ParentsInTable(rows)
    ensures FlagsMatch(rows[k := rows[k].(direction := direction)]) && ParentsInTable(rows[k := rows[k].(direction := direction)])
  {
    hide EndedIn;
    var r := rows[k := rows[k].(direction := direction)];
    forall i | 0 <= i < |r|
      ensures (r[i].failed <==> EndedIn(r, i, true)) && (r[i].invalidated <==> EndedIn(r, i, false))
    {
      EndedAfterRelabel(rows, r, i, true);
      EndedAfterRelabel(rows, r, i, false);
    }
  }

  /** Whatever is persisted, in whatever order, the flags match the parent links. */
  lemma {:induction false} PersistAllKeepsFlags(rows: seq<EventRow>, symbol: string, ds: seq<Detection>, bearish: bool)
    requires FlagsMatch(rows) && ParentsInTable(rows)
    ensures FlagsMatch(PersistAll(rows, symbol, ds, bearish)) && ParentsInTable(PersistAll(rows, symbol, ds, bearish))
  {
    hide Insert, FlagsMatch;
    if ds != [] {
      var prev, d := PersistAll(rows, symbol, ds[..|ds| - 1], bearish), ds[|ds| - 1];
      PersistAllKeepsFlags(rows, symbol, ds[..|ds| - 1], bearish);
      var at := FindEvent(prev, symbol, d.kind, d.ts);
      if at.Some? {
        RelabelKeepsFlags(prev, at.value, DirectionOf(d.kind, bearish));
      } else {
        InsertKeepsFlags(prev, symbol, d, bearish);
      }
    }
  }

  ghost predicate HasParentBefore(ds: seq<Detection>, n: nat)
    requires n < |ds|
  {
    ds[n].parentKind.Some? ==>
      ds[n].parentTs.Some? && exists m :: 0 <= m < n && ds[m].kind == ds[n].parentKind.value && ds[m].ts == ds[n].parentTs.value
  }

  /** Every event with a parent finds it among the events before it. */
  ghost predicate ParentsComeFirst(ds: seq<Detection>) {
    forall n :: 0 <= n < |ds| ==> HasParentBefore(ds, n)
  }

  lemma ParentsOfPrefix(ds: seq<Detection>, n: nat)
    requires n < |ds|
    ensures ParentsComeFirst(ds[..n + 1]) <==> ParentsComeFirst(ds[..n]) && HasParentBefore(ds, n)
  {
    var init, next := ds[..n], ds[..n + 1];
    assert next[..n] == init;
    forall k | 0 <= k < n ensures HasParentBefore(init, k) <==> HasParentBefore(next, k) {
      SameParent(init, next, k);
    }
    SameParent(next, ds, n);
  }

  lemma SameParent(init: seq<Detection>, ds: seq<Detection>, k: nat)
    requires k < |init| && init <= ds
    ensures HasParentBefore(init, k) <==> HasParentBefore(ds, k)
  {
    assert forall m :: 0 <= m <= k ==> init[m] == ds[m];
    if HasParentBefore(ds, k) && ds[k].parentKind.Some? {
      var m :| 0 <= m < k && ds[m].kind == ds[k].parentKind.value && ds[m].ts == ds[k].parentTs.value;
      assert init[m] == ds[m];
    }
  }

  lemma {:induction false} SidesAreMembers(ds: seq<Detection>)
    ensures forall d :: d in Bottoms(ds) || d in Tops(ds) ==> d in ds
  {
    if ds != [] {
      var init, last := ds[..|ds| - 1], ds[|ds| - 1];
      SidesAreMembers(init);
      assert ds == init + [last];
      assert Bottoms(ds) == if IsBottom(last.kind) then Bottoms(init) + [last] else Bottoms(init);
      assert Tops(ds) == if IsBottom(last.kind) then Tops(init) else Tops(init) + [last];
    }
  }

  lemma {:induction false} GrammarLinks(ds: seq<Detection>)
    requires Grammar(Bottoms(ds), BottomKind) && Grammar(Tops(ds), TopKind)
    ensures ParentsComeFirst(ds)
  {
    hide Grammar, HasParentBefore, ParentsComeFirst;
    if ds == [] {
      NoParentsToFind();
    } else {
      var n, init := |ds| - 1, ds[..|ds| - 1];
      GrammarOfPrefix(Bottoms(init), Bottoms(ds), BottomKind);
      GrammarOfPrefix(Tops(init), Tops(ds), TopKind);
      GrammarLinks(init);
      LastHasParent(ds);
      assert ds[..n + 1] == ds;
      ParentsOfPrefix(ds, n);
    }
  }

  lemma NoParentsToFind()
    ensures ParentsComeFirst([])
  {
  }

  lemma {:induction false} LastHasParent(ds: seq<Detection>)
    requires ds != [] && Grammar(Bottoms(ds), BottomKind) && Grammar(Tops(ds), TopKind)
    ensures HasParentBefore(ds, |ds| - 1)
  {
    hide Grammar, HasParentBefore;
    var init, d := ds[..|ds| - 1], ds[|ds| - 1];
    SidesAreMembers(init);
    if IsBottom(d.kind) {
      LastOfSide(ds, Bottoms(init), BottomKind);
    } else {
      LastOfSide(ds, Tops(init), TopKind);
    }
  }

  lemma LastOfSide(ds: seq<Detection>, before: seq<Detection>, kind: nat -> EventKind)
    requires ds != [] && Grammar(before + [ds[|ds| - 1]], kind) && (kind == BottomKind || kind == TopKind)
    requires forall d :: d in before ==> d in ds[..|ds| - 1]
    ensures HasParentBefore(ds, |ds| - 1)
  {
    var es, j, d := before + [ds[|ds| - 1]], |before|, ds[|ds| - 1];
    if d.parentKind.Some? {
      assert es[j] == d && j % 3 != 0;
      assert Continues(es[j - 1], es[j]);
      assert es[j - 1] == before[j - 1] && before[j - 1] in before;
    }
  }

  lemma GrammarOfPrefix(es: seq<Detection>, fs: seq<Detection>, kind: nat -> EventKind)
    requires es <= fs && Grammar(fs, kind)
    ensures Grammar(es, kind)
  {
    assert forall j :: 0 <= j < |es| ==> es[j] == fs[j];
  }

  /** A row with a parent event points at the row of that event. */
  ghost predicate LinksResolved(rows: seq<EventRow>) {
    forall j :: 0 <= j < |rows| && rows[j].event.parentKind.Some? ==>
      && rows[j].event.parentTs.Some? && rows[j].parentId.Some? && rows[j].parentId.value < |rows|
      && HasKey(rows[rows[j].parentId.value], rows[j].symbol, rows[j].event.parentKind.value, rows[j].event.parentTs.value)
  }

  lemma PersistResolvesLink(rows: seq<EventRow>, symbol: string, d: Detection, bearish: bool)
    requires LinksResolved(rows)
    requires d.parentKind.Some? ==> d.parentTs.Some? && FindEvent(rows, symbol, d.parentKind.value, d.parentTs.value).Some?
    ensures LinksResolved(Persist(rows, symbol, d, bearish))
  {
    PersistKeepsRows(rows, symbol, d, bearish);
  }

  lemma {:induction false} PersistAllResolvesLinks(rows: seq<EventRow>, symbol: string, ds: seq<Detection>, bearish: bool)
    requires LinksResolved(rows) && ParentsComeFirst(ds)
    ensures LinksResolved(PersistAll(rows, symbol, ds, bearish))
  {
    hide Persist, LinksResolved, ParentsComeFirst;
    if ds != [] {
      var n, init, d := |ds| - 1, ds[..|ds| - 1], ds[|ds| - 1];
      assert ds[..n + 1] == ds;
      ParentsOfPrefix(ds, n);
      PersistAllResolvesLinks(rows, symbol, init, bearish);
      PersistAllHasAll(rows, symbol, init, bearish);
      if d.parentKind.Some? {
        var m :| 0 <= m < n && ds[m].kind == d.parentKind.value && ds[m].ts == d.parentTs.value;
        assert init[m] == ds[m];
      }
      PersistResolvesLink(PersistAll(rows, symbol, init, bearish), symbol, d, bearish);
    }
  }

  /**
   One scan of any history, into a table that is already linked and flagged, leaves it so: every
   confirmation and ending points at the row of its own parent event, and a structure is failed or
   invalidated exactly when an ending points at it.
   */
  lemma ScanLeavesLinkedTable(rows: seq<EventRow>, symbol: string, bars: seq<StoredBar>, bearish: bool)
    requires TimesIncrease(bars) && LinksResolved(rows) && FlagsMatch(rows) && ParentsInTable(rows)
    ensures var r := PersistAll(rows, symbol, Detect(JoinedSeries(bars)), bearish);
      LinksResolved(r) && FlagsMatch(r) && ParentsInTable(r)
  {
    hide Detect, JoinedSeries, FlagsMatch, LinksResolved, ParentsInTable, PersistAll, Grammar;
    var ds := Detect(JoinedSeries(bars));
    EveryScanIsGrammatical(bars);
    GrammarLinks(ds);
    PersistAllResolvesLinks(rows, symbol, ds, bearish);
    PersistAllKeepsFlags(rows, symbol, ds, bearish);
  }
}
