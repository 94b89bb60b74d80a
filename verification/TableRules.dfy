/** What persisting one detection leaves, row by row (app/services/structures.py:293-347). */
module TableRules {
  import opened Common
  import opened Structures
  import opened StructureTable

  /** The first row of a symbol with this kind and time. */
  predicate RowOf(rows: seq<EventRow>, symbol: string, kind: EventKind, ts: int, i: int) {
    && 0 <= i < |rows| && Keyed(rows[i], symbol, kind, ts)
    && forall j :: 0 <= j < i ==> !Keyed(rows[j], symbol, kind, ts)
  }

  predicate Keyed(row: EventRow, symbol: string, kind: EventKind, ts: int) {
    row.symbol == symbol && row.event.kind == kind && row.event.ts == ts
  }

  /** A bottom, or a top that was overcome, is for buying; a top structure is for selling in a bearish day; the rest only warn. */
  predicate Labels(kind: EventKind, bearish: bool, direction: Direction) {
    match direction
    case Long => kind.BottomPassivation? || kind.BottomStructure? || kind.TopInvalidated?
    case Short => kind.TopStructure? && bearish
    case RiskOnly => kind.TopPassivation? || kind.BottomFailed? || (kind.TopStructure? && !bearish)
  }

  /** Row `p` is the one the detection names as its parent. */
  predicate IsParent(rows: seq<EventRow>, symbol: string, d: Detection, p: int) {
    d.parentKind.Some? && d.parentTs.Some? && RowOf(rows, symbol, d.parentKind.value, d.parentTs.value, p)
  }

  /** A failure flags its parent failed and invalidated, an invalidation only invalidated. */
  predicate Flags(row: EventRow, kind: EventKind, q: EventRow) {
    q == row.(failed := row.failed || kind.BottomFailed?, invalidated := row.invalidated || kind.BottomFailed? || kind.TopInvalidated?)
  }

  /** A detection on file is only labelled again; a new one is added under its parent, which its kind may flag. */
  ghost predicate Persists(rows: seq<EventRow>, symbol: string, d: Detection, bearish: bool, r: seq<EventRow>) {
    if exists i :: RowOf(rows, symbol, d.kind, d.ts, i) then
      exists i, to :: RowOf(rows, symbol, d.kind, d.ts, i) && Labels(d.kind, bearish, to) && r == rows[i := rows[i].(direction := to)]
    else
      && |r| == |rows| + 1
      && var added := r[|rows|];
      && added == EventRow(symbol, d, added.parentId, false, false, added.direction) && Labels(d.kind, bearish, added.direction)
      && (forall p: nat :: added.parentId == Some(p) <==> IsParent(rows, symbol, d, p))
      && forall i :: 0 <= i < |rows| ==> if added.parentId == Some(i) then Flags(rows[i], d.kind, r[i]) else r[i] == rows[i]
  }

  lemma RowOfPrefix(rows: seq<EventRow>, symbol: string, kind: EventKind, ts: int, i: int)
    requires rows != [] && 0 <= i < |rows| - 1
    ensures RowOf(rows, symbol, kind, ts, i) <==> RowOf(rows[..|rows| - 1], symbol, kind, ts, i)
  {
  }

  lemma {:induction false} FindsTheFirst(rows: seq<EventRow>, symbol: string, kind: EventKind, ts: int)
    ensures forall i :: RowOf(rows, symbol, kind, ts, i) <==> i >= 0 && FindEvent(rows, symbol, kind, ts) == Some(i)
  {
    if rows != [] {
      var n := |rows| - 1;
      FindsTheFirst(rows[..n], symbol, kind, ts);
      forall i | 0 <= i < n ensures RowOf(rows, symbol, kind, ts, i) <==> RowOf(rows[..n], symbol, kind, ts, i) {
        RowOfPrefix(rows, symbol, kind, ts, i);
      }
      assert RowOf(rows, symbol, kind, ts, n) <==> Keyed(rows[n], symbol, kind, ts) && FindEvent(rows[..n], symbol, kind, ts).None? by {
        assert forall j :: 0 <= j < n ==> rows[..n][j] == rows[j];
      }
    }
  }

  lemma LabelIs(kind: EventKind, bearish: bool)
    ensures Labels(kind, bearish, DirectionOf(kind, bearish))
  {
  }

  /** Persisting a detection does just that. */
  lemma PersistsByRule(rows: seq<EventRow>, symbol: string, d: Detection, bearish: bool)
    ensures Persists(rows, symbol, d, bearish, Persist(rows, symbol, d, bearish))
  {
    hide RowOf, Labels, DirectionOf, FindEvent;
    LabelIs(d.kind, bearish);
    FindsTheFirst(rows, symbol, d.kind, d.ts);
    if d.parentKind.Some? && d.parentTs.Some? {
      FindsTheFirst(rows, symbol, d.parentKind.value, d.parentTs.value);
    }
    var at := FindEvent(rows, symbol, d.kind, d.ts);
    if at.Some? {
      assert RowOf(rows, symbol, d.kind, d.ts, at.value);
    }
  }

  /** The loop persists the detections one by one, each on the rows the one before left. */
  lemma PersistsInOrder(rows: seq<EventRow>, symbol: string, ds: seq<Detection>, bearish: bool, n: nat)
    requires n < |ds|
    ensures PersistAll(rows, symbol, [], bearish) == rows
    ensures Persists(PersistAll(rows, symbol, ds[..n], bearish), symbol, ds[n], bearish, PersistAll(rows, symbol, ds[..n + 1], bearish))
  {
    hide Persist, Persists;
    assert ds[..n + 1][..n] == ds[..n];
    PersistsByRule(PersistAll(rows, symbol, ds[..n], bearish), symbol, ds[n], bearish);
  }
}
