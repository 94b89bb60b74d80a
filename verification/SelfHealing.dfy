/** Position sync repairs what reconciliation would otherwise report. */
module SelfHealing {
  import opened Common
  import opened Ledger
  import opened PositionSync
  import opened Reconciler
  import opened ReconcilerTheorems

  /** The local row says what the remote row says. */
  predicate Agrees(p: Position, row: RemotePosition) {
    p.status.Open? && p.shares == row.qty && (row.cost != 0.0 ==> p.entryPrice == row.cost)
  }

  /** Every symbol held in the first `n` rows has a row, and that row agrees with its last word. */
  ghost predicate Mirrors(ps: seq<Position>, rows: seq<RemotePosition>) {
    && (forall k :: 0 <= k < |ps| && Holding(rows, ps[k].symbol).Some? ==> Agrees(ps[k], Holding(rows, ps[k].symbol).value))
    && (forall s :: Holding(rows, s).Some? ==> FindPosition(ps, s).Some?)
  }

  lemma SyncRowKeepsRowsUnique(db: Db, row: RemotePosition, now: Time, cfg: Config)
    requires OneRowPerSymbol(db.positions)
    ensures var r := SyncRow(db, row, now, cfg);
      OneRowPerSymbol(r.positions) && forall k :: 0 <= k < |db.positions| ==> r.positions[k].symbol == db.positions[k].symbol
  {
    hide MatchingEntry, OrphanLevels, EnterPlan, InferFill;
  }

  /** A holding row rewrites or appends one row, which then agrees with it. */
  lemma SyncRowAdopts(db: Db, row: RemotePosition, now: Time, cfg: Config) returns (k: nat)
    requires IsHolding(row)
    ensures var ps, r := db.positions, SyncRow(db, row, now, cfg).positions;
      && k < |r| && r[k].symbol == row.symbol && Agrees(r[k], row)
      && k == (if FindPosition(ps, row.symbol).Some? then FindPosition(ps, row.symbol).value else |ps|)
      && |r| == (if k < |ps| then |ps| else |ps| + 1)
      && forall i :: 0 <= i < |ps| && i != k ==> r[i] == ps[i]
  {
    var at := FindPosition(db.positions, row.symbol);
    k := if at.Some? then at.value else |db.positions|;
  }

  lemma HoldingOfSnoc(rows: seq<RemotePosition>, row: RemotePosition, s: Symbol)
    ensures Holding(rows + [row], s) == if IsHolding(row) && row.symbol == s then Some(row) else Holding(rows, s)
  {
    assert (rows + [row])[..|rows|] == rows;
  }

  lemma {:induction false} SyncRowMirrors(db: Db, before: seq<RemotePosition>, row: RemotePosition, now: Time, cfg: Config)
    requires OneRowPerSymbol(db.positions) && Mirrors(db.positions, before)
    ensures Mirrors(SyncRow(db, row, now, cfg).positions, before + [row])
  {
    hide Agrees, FindPosition, Holding, IsHolding;
    var ps, r := db.positions, SyncRow(db, row, now, cfg).positions;
    forall s ensures Holding(before + [row], s) == if IsHolding(row) && row.symbol == s then Some(row) else Holding(before, s) {
      HoldingOfSnoc(before, row, s);
    }
    if IsHolding(row) {
      hide SyncRow;
      var at := SyncRowAdopts(db, row, now, cfg);
      forall k | 0 <= k < |r| && k != at ensures r[k].symbol != row.symbol && r[k] == ps[k] {
      }
      forall s | Holding(before + [row], s).Some? ensures FindPosition(r, s).Some? {
        if s == row.symbol {
          assert r[at].symbol == s;
        } else {
          var k := FindPosition(ps, s).value;
          assert r[k].symbol == s;
        }
      }
    } else {
      assert r == ps;
    }
  }

  lemma {:induction false} SyncRowsMirror(db: Db, rows: seq<RemotePosition>, now: Time, cfg: Config, n: nat)
    requires n <= |rows| && OneRowPerSymbol(db.positions)
    ensures var r := SyncRowsUpTo(db, rows, now, cfg, n);
      OneRowPerSymbol(r.positions) && Mirrors(r.positions, rows[..n])
  {
    if n > 0 {
      hide SyncRow, Mirrors, OneRowPerSymbol;
      SyncRowsMirror(db, rows, now, cfg, n - 1);
      assert rows[..n] == rows[..n - 1] + [rows[n - 1]];
      var prev := SyncRowsUpTo(db, rows, now, cfg, n - 1);
      SyncRowKeepsRowsUnique(prev, rows[n - 1], now, cfg);
      SyncRowMirrors(prev, rows[..n - 1], rows[n - 1], now, cfg);
    }
  }

  /** After a successful position sync every remote holding is mirrored, and what is open but not held is local only. */
  lemma SyncMirrorsRemote(db: Db, a: PositionAnswers, cfg: Config)
    requires a.rows.Got? && OneRowPerSymbol(db.positions)
    ensures var ps := SyncPositions(db, a, cfg).positions;
      && OneRowPerSymbol(ps) && Mirrors(ps, a.rows.rows)
      && forall k :: 0 <= k < |ps| && ps[k].status.Open? && Holding(a.rows.rows, ps[k].symbol).None? ==> ps[k].source.LocalStrategy?
  {
    var rows := a.rows.rows;
    var adopted := SyncRowsUpTo(db, rows, a.now, cfg, |rows|);
    SyncRowsMirror(db, rows, a.now, cfg, |rows|);
    assert rows[..|rows|] == rows;
    PositionsAfterClose(adopted, Seen(rows), a.now, |adopted.positions|);
    var ps := SyncPositions(db, a, cfg).positions;
    forall k | 0 <= k < |ps|
      ensures ps[k].symbol == adopted.positions[k].symbol
      ensures Holding(rows, ps[k].symbol).Some? ==> ps[k] == adopted.positions[k]
      ensures Holding(rows, ps[k].symbol).None? && ps[k].status.Open? ==> ps[k].source.LocalStrategy?
    {
    }
    forall s | Holding(rows, s).Some? ensures FindPosition(ps, s).Some? {
      var k := FindPosition(adopted.positions, s).value;
      assert ps[k].symbol == s;
    }
  }

  predicate PositionIssue(t: IssueType) {
    t.RemotePositionWithoutLocal? || t.PositionQtyMismatch? || t.PositionCostMismatch?
  }

  lemma MirroredLedgerHasNoPositionIssue(db: Db, ra: ReconcileAnswers, k: IssueKey)
    requires ReadsOk(ra) && Mirrors(db.positions, ra.positions.rows) && Discrepancy(db, ra, k)
    ensures !PositionIssue(k.kind)
  {
    var ps, rows := db.positions, ra.positions.rows;
    if k.kind.RemotePositionWithoutLocal? {
      MirroredSymbolIsHeldLocally(db, ra, k.symbol);
    } else if k.kind.PositionQtyMismatch? || k.kind.PositionCostMismatch? {
      LocalPositionsFind(db, ra, k);
      var i := Check2Origin(ps, rows, |ps|, k);
      AgreeingPositionAsksNothing(ps[i], i, rows, k);
    }
  }

  lemma MirroredSymbolIsHeldLocally(db: Db, ra: ReconcileAnswers, s: Symbol)
    requires ReadsOk(ra) && Mirrors(db.positions, ra.positions.rows) && HeldRemotely(ra, s)
    ensures HeldLocally(db, s)
  {
    assert Holding(ra.positions.rows, s).Some?;
    var i := FindPosition(db.positions, s).value;
    assert db.positions[i].status.Open?;
  }

  lemma AgreeingPositionAsksNothing(p: Position, i: nat, rows: seq<RemotePosition>, k: IssueKey)
    requires k in KeysOfPosition(p, i, rows) && (Holding(rows, p.symbol).Some? ==> Agrees(p, Holding(rows, p.symbol).value))
    ensures k.kind.LocalPositionMissingRemote?
  {
  }

  /**
   Self-healing: if reconciliation reads the positions the sync read, it finds no missing local
   position, no quantity and no cost mismatch, and a position missing remotely is still LOCAL_STRATEGY.
   */
  lemma SyncHealsPositions(db: Db, a: PositionAnswers, cfg: Config, ra: ReconcileAnswers, k: IssueKey)
    requires OneRowPerSymbol(db.positions) && a.rows.Got? && ReadsOk(ra) && ra.positions == a.rows
    requires Discrepancy(SyncPositions(db, a, cfg), ra, k)
    ensures !PositionIssue(k.kind)
    ensures k.kind.LocalPositionMissingRemote? ==>
      var ps := SyncPositions(db, a, cfg).positions;
      k.positionId.Some? && k.positionId.value < |ps| && ps[k.positionId.value].source.LocalStrategy?
  {
    var healed := SyncPositions(db, a, cfg);
    SyncMirrorsRemote(db, a, cfg);
    MirroredLedgerHasNoPositionIssue(healed, ra, k);
    if k.kind.LocalPositionMissingRemote? {
      var ps := healed.positions;
      var i :| 0 <= i < |ps| && k == PositionKey(k.kind, ps[i], i) && ps[i].status.Open? && !HeldRemotely(ra, ps[i].symbol);
      assert Holding(a.rows.rows, ps[i].symbol).None?;
    }
  }
}
