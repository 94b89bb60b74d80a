/** The time-step replay and its precomputed indicators: app/services/backtest.py:81-103, 446-500. */
module Replay {
  import opened Common
  import opened Indicators
  import opened IndicatorRows

  datatype Key = Key(symbol: string, frame: Timeframe)

  datatype BarId = BarId(key: Key, ts: int)

  function KeyOf(b: Bar): Key {
    Key(b.symbol, b.frame)
  }

  function IdOf(b: Bar): BarId {
    BarId(KeyOf(b), b.ts)
  }

  /** How long after its timestamp a bar is complete. */
  function Delay(frame: Timeframe): int {
    match frame
    case Daily => 86400
    case Hourly => 3600
    case Quarter => 900
    case OtherFrame => 0
  }

  function AvailableAt(b: Bar): int {
    b.ts + Delay(b.frame)
  }

  /** The query result: in time order, one bar for each symbol, timeframe and time. */
  ghost predicate IsSource(bars: seq<Bar>) {
    Ordered(bars) && forall i, j :: 0 <= i < j < |bars| ==> IdOf(bars[i]) != IdOf(bars[j])
  }

  // --------------------------------------------------------------- selections

  function GroupOf(bars: seq<Bar>, k: Key): seq<Bar> {
    if bars == [] then []
    else if KeyOf(bars[|bars| - 1]) == k then GroupOf(bars[..|bars| - 1], k) + [bars[|bars| - 1]]
    else GroupOf(bars[..|bars| - 1], k)
  }

  /** The bars that become available at `t`. */
  function BatchAt(bars: seq<Bar>, t: int): seq<Bar> {
    if bars == [] then []
    else if AvailableAt(bars[|bars| - 1]) == t then BatchAt(bars[..|bars| - 1], t) + [bars[|bars| - 1]]
    else BatchAt(bars[..|bars| - 1], t)
  }

  /** The bars available by `t`: what a decision taken at `t` may see. */
  function VisibleAt(bars: seq<Bar>, t: int): seq<Bar> {
    if bars == [] then []
    else if AvailableAt(bars[|bars| - 1]) <= t then VisibleAt(bars[..|bars| - 1], t) + [bars[|bars| - 1]]
    else VisibleAt(bars[..|bars| - 1], t)
  }

  lemma {:induction false} SelectedMembers(bars: seq<Bar>, k: Key, t: int)
    ensures forall b :: b in GroupOf(bars, k) <==> b in bars && KeyOf(b) == k
    ensures forall b :: b in BatchAt(bars, t) <==> b in bars && AvailableAt(b) == t
    ensures forall b :: b in VisibleAt(bars, t) <==> b in bars && AvailableAt(b) <= t
  {
    if bars != [] {
      SelectedMembers(bars[..|bars| - 1], k, t);
    }
  }

  ghost predicate Increasing(ts: seq<int>) {
    forall i, j :: 0 <= i < j < |ts| ==> ts[i] < ts[j]
  }

  function InsertTime(ts: seq<int>, t: int): seq<int> {
    if ts == [] || ts[|ts| - 1] < t then ts + [t]
    else if ts[|ts| - 1] == t then ts
    else InsertTime(ts[..|ts| - 1], t) + [ts[|ts| - 1]]
  }

  /** `sorted(bars_by_ts)`: the availability times, each once, in order. */
  function Times(bars: seq<Bar>): seq<int> {
    if bars == [] then [] else InsertTime(Times(bars[..|bars| - 1]), AvailableAt(bars[|bars| - 1]))
  }

  lemma {:induction false} InsertTimeIncreases(ts: seq<int>, t: int)
    requires Increasing(ts)
    ensures Increasing(InsertTime(ts, t))
    ensures forall u :: u in InsertTime(ts, t) <==> u in ts || u == t
  {
    if ts != [] {
      var n := |ts| - 1;
      assert ts == ts[..n] + [ts[n]];
      if ts[n] > t {
        InsertTimeIncreases(ts[..n], t);
        var r := InsertTime(ts[..n], t);
        forall i | 0 <= i < |r| ensures r[i] < ts[n] {
          assert r[i] in r;
        }
      }
    }
  }

  lemma {:induction false} TimesAreAvailabilities(bars: seq<Bar>)
    ensures Increasing(Times(bars))
    ensures forall t :: t in Times(bars) <==> exists b :: b in bars && AvailableAt(b) == t
  {
    if bars != [] {
      var n := |bars| - 1;
      TimesAreAvailabilities(bars[..n]);
      InsertTimeIncreases(Times(bars[..n]), AvailableAt(bars[n]));
      assert bars == bars[..n] + [bars[n]];
      forall b | b in bars ensures AvailableAt(b) in Times(bars) {
        assert b in bars[..n] || b == bars[n];
      }
    }
  }

  // -------------------------------------------------------------- the tables

  /** The indicator columns the replay database keeps. */
  datatype Stored = Stored(
    ma20: Option<real>, ma60: Option<real>, dif: real, dea: Option<real>, hist: Option<real>,
    atr: Option<real>, volumeMa20: Option<real>)

  function StoredOf(r: Row): Stored {
    Stored(r.ma20, r.ma60, r.dif, r.dea, r.hist, r.atr, r.volumeMa20)
  }

  /** `_copy_bar` drops the turnover. */
  function CopyOf(b: Bar): Bar {
    b.(turnover := None)
  }

  function CopyAll(bars: seq<Bar>): (r: seq<Bar>)
    ensures |r| == |bars|
  {
    seq(|bars|, i requires 0 <= i < |bars| => CopyOf(bars[i]))
  }

  function IndexOf(bars: seq<Bar>, ts: int): (r: Option<nat>)
    ensures r.Some? ==> r.value < |bars| && bars[r.value].ts == ts
    ensures r.None? ==> forall i :: 0 <= i < |bars| ==> bars[i].ts != ts
  {
    if bars == [] then None
    else if bars[|bars| - 1].ts == ts then Some(|bars| - 1)
    else IndexOf(bars[..|bars| - 1], ts)
  }

  /** The row of one bar in the rows of its whole history. */
  function PrecomputedRow(source: seq<Bar>, id: BarId, std: Deviation): Option<Row> {
    var group := GroupOf(source, id.key);
    var at := IndexOf(SortByTs(group), id.ts);
    if at.Some? then Some(RowsOf(group, std)[at.value]) else None
  }

  datatype Tables = Tables(bars: seq<Bar>, indicators: map<BarId, Stored>)

  function Admitted(t: Tables, batch: seq<Bar>, source: seq<Bar>, std: Deviation): Tables
    requires forall b :: b in batch ==> PrecomputedRow(source, IdOf(b), std).Some?
  {
    if batch == [] then t
    else
      var n := |batch| - 1;
      var prev := Admitted(t, batch[..n], source, std);
      Tables(prev.bars + [CopyOf(batch[n])],
             prev.indicators[IdOf(batch[n]) := StoredOf(PrecomputedRow(source, IdOf(batch[n]), std).value)])
  }

  lemma RowsCoverSource(source: seq<Bar>, b: Bar, std: Deviation)
    requires b in source
    ensures PrecomputedRow(source, IdOf(b), std).Some?
  {
    var group := GroupOf(source, KeyOf(b));
    SelectedMembers(source, KeyOf(b), 0);
    SortOrders(group);
    assert b in multiset(group);
    assert b in SortByTs(group);
  }

  /** The replay tables after the first `n` time steps. */
  function After(source: seq<Bar>, std: Deviation, n: nat): Tables
    requires n <= |Times(source)|
  {
    if n == 0 then Tables([], map[])
    else
      var batch := BatchAt(source, Times(source)[n - 1]);
      assert forall b :: b in batch ==> PrecomputedRow(source, IdOf(b), std).Some? by {
        SelectedMembers(source, Key("", Daily), Times(source)[n - 1]);
        forall b | b in batch ensures PrecomputedRow(source, IdOf(b), std).Some? {
          RowsCoverSource(source, b, std);
        }
      }
      Admitted(After(source, std, n - 1), batch, source, std)
  }

  // ------------------------------------------------------ selections commute

  lemma GroupSnoc(bars: seq<Bar>, b: Bar, k: Key)
    ensures GroupOf(bars + [b], k) == if KeyOf(b) == k then GroupOf(bars, k) + [b] else GroupOf(bars, k)
  {
    assert (bars + [b])[..|bars|] == bars;
  }

  lemma BatchSnoc(bars: seq<Bar>, b: Bar, t: int)
    ensures BatchAt(bars + [b], t) == if AvailableAt(b) == t then BatchAt(bars, t) + [b] else BatchAt(bars, t)
  {
    assert (bars + [b])[..|bars|] == bars;
  }

  lemma {:induction false} GroupAppend(bars: seq<Bar>, more: seq<Bar>, k: Key)
    ensures GroupOf(bars + more, k) == GroupOf(bars, k) + GroupOf(more, k)
  {
    if more == [] {
      assert bars + more == bars;
    } else {
      var n := |more| - 1;
      GroupAppend(bars, more[..n], k);
      GroupSnoc(bars + more[..n], more[n], k);
      assert bars + more[..n] + [more[n]] == bars + more;
    }
  }

  lemma {:induction false} GroupOfBatch(bars: seq<Bar>, t: int, k: Key)
    ensures GroupOf(BatchAt(bars, t), k) == BatchAt(GroupOf(bars, k), t)
  {
    if bars != [] {
      var n := |bars| - 1;
      GroupOfBatch(bars[..n], t, k);
      GroupSnoc(BatchAt(bars[..n], t), bars[n], k);
      BatchSnoc(GroupOf(bars[..n], k), bars[n], t);
    }
  }

  lemma {:induction false} GroupOfCopies(bars: seq<Bar>, k: Key)
    ensures GroupOf(CopyAll(bars), k) == CopyAll(GroupOf(bars, k))
  {
    if bars != [] {
      var n := |bars| - 1;
      GroupOfCopies(bars[..n], k);
      assert CopyAll(bars) == CopyAll(bars[..n]) + [CopyOf(bars[n])];
      GroupSnoc(CopyAll(bars[..n]), CopyOf(bars[n]), k);
      assert CopyAll(GroupOf(bars[..n], k) + [bars[n]]) == CopyAll(GroupOf(bars[..n], k)) + [CopyOf(bars[n])];
    }
  }

  // ------------------------------------------------- one group through time

  /** The bars of one symbol and timeframe, each later than the one before. */
  ghost predicate IsHistory(g: seq<Bar>, k: Key) {
    (forall i :: 0 <= i < |g| ==> KeyOf(g[i]) == k) && forall i, j :: 0 <= i < j < |g| ==> g[i].ts < g[j].ts
  }

  lemma {:induction false} GroupIsHistory(source: seq<Bar>, k: Key)
    requires IsSource(source)
    ensures IsHistory(GroupOf(source, k), k)
  {
    if source != [] {
      var n := |source| - 1;
      GroupIsHistory(source[..n], k);
      var g, x := GroupOf(source[..n], k), source[n];
      SelectedMembers(source[..n], k, 0);
      if KeyOf(x) == k {
        forall i | 0 <= i < |g| ensures g[i].ts < x.ts {
          assert g[i] in g;
          var j :| 0 <= j < n && source[..n][j] == g[i];
          assert IdOf(source[j]) != IdOf(source[n]);
        }
      }
    }
  }

  /** No bar becomes available strictly between two times. */
  ghost predicate NothingBetween(bars: seq<Bar>, earlier: int, t: int) {
    earlier < t && forall b :: b in bars ==> AvailableAt(b) <= earlier || t <= AvailableAt(b)
  }

  /** What is visible at `t` is what was visible before plus the batch of `t`. */
  lemma {:induction false} HistoryStep(g: seq<Bar>, k: Key, earlier: int, t: int)
    requires IsHistory(g, k) && NothingBetween(g, earlier, t)
    ensures VisibleAt(g, t) == VisibleAt(g, earlier) + BatchAt(g, t)
  {
    if g != [] {
      var n := |g| - 1;
      HistoryStep(g[..n], k, earlier, t);
      assert g[n] in g;
      if AvailableAt(g[n]) <= earlier {
        EarlierIsNotInBatch(g, k, earlier, t);
      }
      hide AvailableAt, IsHistory;
    }
  }

  lemma EarlierIsNotInBatch(g: seq<Bar>, k: Key, earlier: int, t: int)
    requires IsHistory(g, k) && g != [] && AvailableAt(g[|g| - 1]) <= earlier < t
    ensures BatchAt(g, t) == [] && BatchAt(g[..|g| - 1], t) == []
  {
    SelectedMembers(g, k, t);
    SelectedMembers(g[..|g| - 1], k, t);
    forall b | b in g ensures AvailableAt(b) < t {
      var i :| 0 <= i < |g| && g[i] == b;
    }
    NoMembers(BatchAt(g, t));
    NoMembers(BatchAt(g[..|g| - 1], t));
  }

  lemma NoMembers(bars: seq<Bar>)
    ensures bars == [] || bars[0] in bars
  {
  }

  /** What is visible of a history is a prefix of it. */
  lemma {:induction false} VisibleIsPrefix(g: seq<Bar>, k: Key, t: int)
    requires IsHistory(g, k)
    ensures VisibleAt(g, t) <= g
  {
    if g != [] {
      var n := |g| - 1;
      VisibleIsPrefix(g[..n], k, t);
      if AvailableAt(g[n]) <= t {
        AllVisible(g[..n], t);
      }
    }
  }

  lemma {:induction false} AllVisible(g: seq<Bar>, t: int)
    requires forall i :: 0 <= i < |g| ==> AvailableAt(g[i]) <= t
    ensures VisibleAt(g, t) == g
  {
    if g != [] {
      AllVisible(g[..|g| - 1], t);
    }
  }

  lemma CopySnoc(bars: seq<Bar>, b: Bar)
    ensures CopyAll(bars + [b]) == CopyAll(bars) + [CopyOf(b)]
  {
  }

  lemma {:induction false} VisibleStep(bars: seq<Bar>, earlier: int, t: int)
    requires NothingBetween(bars, earlier, t)
    ensures multiset(CopyAll(VisibleAt(bars, t))) == multiset(CopyAll(VisibleAt(bars, earlier))) + multiset(CopyAll(BatchAt(bars, t)))
  {
    hide CopyAll;
    if bars == [] {
      NoCopies();
    } else {
      var n := |bars| - 1;
      VisibleStep(bars[..n], earlier, t);
      assert bars[n] in bars;
      CopySnoc(VisibleAt(bars[..n], t), bars[n]);
      CopySnoc(VisibleAt(bars[..n], earlier), bars[n]);
      CopySnoc(BatchAt(bars[..n], t), bars[n]);
    }
  }

  lemma NoCopies()
    ensures CopyAll([]) == []
  {
  }

  // ----------------------------------------------------- through the replay

  /** The clock after `n` steps: the time of the last batch, or a time before every batch. */
  function Clock(source: seq<Bar>, n: nat): int
    requires n <= |Times(source)|
  {
    if n > 0 then Times(source)[n - 1] else if Times(source) == [] then 0 else Times(source)[0] - 1
  }

  /** The batches of the first `n` steps. */
  function Released(source: seq<Bar>, n: nat): seq<Bar>
    requires n <= |Times(source)|
  {
    if n == 0 then [] else Released(source, n - 1) + BatchAt(source, Times(source)[n - 1])
  }

  lemma ClockSkipsNothing(source: seq<Bar>, n: nat)
    requires 0 < n <= |Times(source)|
    ensures NothingBetween(source, Clock(source, n - 1), Clock(source, n))
  {
    var ts := Times(source);
    TimesAreAvailabilities(source);
    forall b | b in source ensures AvailableAt(b) <= Clock(source, n - 1) || Clock(source, n) <= AvailableAt(b) {
      assert AvailableAt(b) in ts;
      var i :| 0 <= i < |ts| && ts[i] == AvailableAt(b);
      assert i < n - 1 ==> ts[i] < ts[n - 2] || i == n - 2;
      assert i > n - 1 ==> ts[n - 1] < ts[i];
    }
  }

  lemma NothingIsVisibleYet(source: seq<Bar>)
    ensures VisibleAt(source, Clock(source, 0)) == []
  {
    TimesAreAvailabilities(source);
    var ts := Times(source);
    forall b | b in source ensures AvailableAt(b) > Clock(source, 0) {
      assert AvailableAt(b) in ts;
      var i :| 0 <= i < |ts| && ts[i] == AvailableAt(b);
      assert i == 0 || ts[0] < ts[i];
    }
    SelectedMembers(source, Key("", Daily), Clock(source, 0));
    NoMembers(VisibleAt(source, Clock(source, 0)));
  }

  lemma CopiesAppend(a: seq<Bar>, b: seq<Bar>)
    ensures CopyAll(a + b) == CopyAll(a) + CopyAll(b)
  {
  }

  /** After every step, exactly the bars whose availability time has passed have been released. */
  lemma {:induction false} ReleasedIsVisible(source: seq<Bar>, n: nat)
    requires n <= |Times(source)|
    ensures multiset(CopyAll(Released(source, n))) == multiset(CopyAll(VisibleAt(source, Clock(source, n))))
  {
    hide CopyAll, VisibleAt, BatchAt;
    if n == 0 {
      NothingIsVisibleYet(source);
    } else {
      ReleasedIsVisible(source, n - 1);
      CopiesAppend(Released(source, n - 1), BatchAt(source, Clock(source, n)));
      ClockSkipsNothing(source, n);
      VisibleStep(source, Clock(source, n - 1), Clock(source, n));
    }
  }

  /** And each history has been released in its own order. */
  lemma {:induction false} ReleasedGroup(source: seq<Bar>, n: nat, k: Key)
    requires IsSource(source) && n <= |Times(source)|
    ensures GroupOf(Released(source, n), k) == VisibleAt(GroupOf(source, k), Clock(source, n))
  {
    var g := GroupOf(source, k);
    if n == 0 {
      NothingIsVisibleYet(source);
      SelectedMembers(source, k, Clock(source, 0));
      SelectedMembers(g, k, Clock(source, 0));
      NoMembers(VisibleAt(g, Clock(source, 0)));
    } else {
      ReleasedGroup(source, n - 1, k);
      ClockSkipsNothing(source, n);
      SelectedMembers(source, k, 0);
      GroupIsHistory(source, k);
      GroupAppend(Released(source, n - 1), BatchAt(source, Clock(source, n)), k);
      GroupOfBatch(source, Clock(source, n), k);
      HistoryStep(g, k, Clock(source, n - 1), Clock(source, n));
    }
  }

  ghost predicate HasRow(t: Tables, b: Bar, source: seq<Bar>, std: Deviation) {
    var row := PrecomputedRow(source, IdOf(b), std);
    row.Some? && IdOf(b) in t.indicators && t.indicators[IdOf(b)] == StoredOf(row.value)
  }

  /** Every released bar has its precomputed row, and no other bar has one. */
  ghost predicate RowsOfReleased(t: Tables, released: seq<Bar>, source: seq<Bar>, std: Deviation) {
    && t.bars == CopyAll(released)
    && (forall id :: id in t.indicators <==> exists b :: b in released && IdOf(b) == id)
    && forall b :: b in released ==> HasRow(t, b, source, std)
  }

  lemma {:induction false} AdmitKeepsRows(t: Tables, released: seq<Bar>, batch: seq<Bar>, source: seq<Bar>, std: Deviation)
    requires RowsOfReleased(t, released, source, std)
    requires forall b :: b in batch ==> PrecomputedRow(source, IdOf(b), std).Some?
    ensures RowsOfReleased(Admitted(t, batch, source, std), released + batch, source, std)
  {
    hide PrecomputedRow;
    if batch == [] {
      assert released + batch == released;
    } else {
      var n := |batch| - 1;
      AdmitKeepsRows(t, released, batch[..n], source, std);
      assert released + batch == released + batch[..n] + [batch[n]];
      AdmitOne(Admitted(t, batch[..n], source, std), released + batch[..n], batch[n], source, std);
    }
  }

  lemma AdmitOne(t: Tables, released: seq<Bar>, b: Bar, source: seq<Bar>, std: Deviation)
    requires RowsOfReleased(t, released, source, std) && PrecomputedRow(source, IdOf(b), std).Some?
    ensures var r := Tables(t.bars + [CopyOf(b)], t.indicators[IdOf(b) := StoredOf(PrecomputedRow(source, IdOf(b), std).value)]);
      RowsOfReleased(r, released + [b], source, std)
  {
    hide PrecomputedRow;
    var r := Tables(t.bars + [CopyOf(b)], t.indicators[IdOf(b) := StoredOf(PrecomputedRow(source, IdOf(b), std).value)]);
    assert r.bars == CopyAll(released + [b]);
    forall id ensures id in r.indicators <==> exists c :: c in released + [b] && IdOf(c) == id {
      if id in t.indicators {
        var c :| c in released && IdOf(c) == id;
        assert c in released + [b];
      }
      if id == IdOf(b) {
        assert b in released + [b];
      }
    }
    forall c | c in released + [b] ensures HasRow(r, c, source, std) {
      assert c == b || HasRow(t, c, source, std);
    }
  }

  lemma {:induction false} TablesHoldReleased(source: seq<Bar>, std: Deviation, n: nat)
    requires n <= |Times(source)|
    ensures RowsOfReleased(After(source, std, n), Released(source, n), source, std)
  {
    hide PrecomputedRow, Admitted;
    if n > 0 {
      TablesHoldReleased(source, std, n - 1);
      var batch := BatchAt(source, Times(source)[n - 1]);
      SelectedMembers(source, Key("", Daily), Times(source)[n - 1]);
      forall b | b in batch ensures PrecomputedRow(source, IdOf(b), std).Some? {
        RowsCoverSource(source, b, std);
      }
      AdmitKeepsRows(After(source, std, n - 1), Released(source, n - 1), batch, source, std);
    }
  }

  // -------------------------------------------------------- no look-ahead

  /** Equal but for the turnover column. */
  predicate SameButTurnover(c: Columns, d: Columns) {
    c == d.(turnovers := c.turnovers)
  }

  lemma CopiesHaveTheSameColumns(g: seq<Bar>)
    ensures SameButTurnover(ColumnsOf(g), ColumnsOf(CopyAll(g)))
  {
    hide DifAt, TrueRange, TurnoverOf;
    assert PricesOf(g) == PricesOf(CopyAll(g));
  }

  lemma StoredIgnoresTurnover(c: Columns, d: Columns, std: Deviation, i: nat)
    requires WellSized(c) && WellSized(d) && SameButTurnover(c, d) && i < |c.volumes|
    ensures StoredOf(RowAt(c, std, i)) == StoredOf(RowAt(d, std, i))
  {
    hide WindowMean, EmaAt, DeaAt, HistAt, BandAt, RsiAt, KdjAt, RatioTo, ChangeAt, AmplitudeAt;
  }

  /** What the replay stores of a row does not use the turnover. */
  lemma CopiesHaveTheSameRows(g: seq<Bar>, std: Deviation, i: nat)
    requires Ordered(g) && i < |g|
    ensures i < |RowsOf(g, std)| && i < |RowsOf(CopyAll(g), std)|
    ensures StoredOf(RowsOf(CopyAll(g), std)[i]) == StoredOf(RowsOf(g, std)[i])
  {
    SortOfOrdered(g);
    SortOfOrdered(CopyAll(g));
    ColumnsAreSized(g);
    ColumnsAreSized(CopyAll(g));
    hide ColumnsOf, RowAt, CopyAll, SortByTs, WellSized, SameButTurnover;
    CopiesHaveTheSameColumns(g);
    StoredIgnoresTurnover(ColumnsOf(g), ColumnsOf(CopyAll(g)), std, i);
  }

  /** Recomputing the indicators from the visible bars of one history gives what the tables hold. */
  ghost predicate AgreesWithRecomputation(t: Tables, k: Key, std: Deviation) {
    var g := GroupOf(t.bars, k);
    && |RowsOf(g, std)| == |g|
    && forall i :: 0 <= i < |g| ==> IdOf(g[i]) in t.indicators && t.indicators[IdOf(g[i])] == StoredOf(RowsOf(g, std)[i])
  }

  lemma {:induction false} IndexInHistory(g: seq<Bar>, k: Key, i: nat)
    requires IsHistory(g, k) && i < |g|
    ensures IndexOf(g, g[i].ts) == Some(i)
  {
    var n := |g| - 1;
    if i < n {
      assert g[i].ts < g[n].ts;
      IndexInHistory(g[..n], k, i);
    }
  }

  lemma PrecomputedIsRecomputed(source: seq<Bar>, std: Deviation, k: Key, t: int, i: nat)
    requires IsSource(source) && i < |VisibleAt(GroupOf(source, k), t)|
    ensures var v := VisibleAt(GroupOf(source, k), t);
      && Ordered(v) && |RowsOf(v, std)| == |v| && IdOf(v[i]).key == k
      && PrecomputedRow(source, IdOf(v[i]), std) == Some(RowsOf(v, std)[i])
  {
    hide RowAt, ColumnsOf, GroupOf, VisibleAt, SortByTs, IsSource;
    var g, v := GroupOf(source, k), VisibleAt(GroupOf(source, k), t);
    GroupIsHistory(source, k);
    VisibleIsPrefix(g, k, t);
    RowsOfPrefix(v, g, std);
    SortOfOrdered(g);
    SortOfOrdered(v);
    IndexInHistory(g, k, i);
  }

  /**
   At every step of the replay the tables hold exactly the bars whose availability time has passed,
   each history in its own order, and the indicators taken from the rows computed once over the full
   history are those computed from the visible bars alone.
   */
  lemma NoLookAhead(source: seq<Bar>, std: Deviation, n: nat, k: Key)
    requires IsSource(source) && n <= |Times(source)|
    ensures var t, now := After(source, std, n), Clock(source, n);
      && multiset(t.bars) == multiset(CopyAll(VisibleAt(source, now)))
      && GroupOf(t.bars, k) == CopyAll(VisibleAt(GroupOf(source, k), now))
      && AgreesWithRecomputation(t, k, std)
      && forall id :: id in t.indicators <==> exists b :: b in VisibleAt(source, now) && IdOf(b) == id
  {
    var t, now, released := After(source, std, n), Clock(source, n), Released(source, n);
    TablesHoldReleased(source, std, n);
    ReleasedIsVisible(source, n);
    GroupOfCopies(released, k);
    ReleasedGroup(source, n, k);
    var v := VisibleAt(GroupOf(source, k), now);
    SelectedMembers(released, k, 0);
    assert forall b :: b in v ==> b in released;
    RowsAgree(t, released, source, std, k, now);
    ReleasedMembers(source, n);
  }

  lemma ReleasedMembers(source: seq<Bar>, n: nat)
    requires IsSource(source) && n <= |Times(source)|
    ensures forall b :: b in Released(source, n) <==> b in VisibleAt(source, Clock(source, n))
  {
    var released, now := Released(source, n), Clock(source, n);
    hide Released, Clock;
    forall b ensures b in released <==> b in VisibleAt(source, now) {
      var k := KeyOf(b);
      ReleasedGroup(source, n, k);
      SelectedMembers(released, k, now);
      SelectedMembers(source, k, now);
      SelectedMembers(GroupOf(source, k), k, now);
    }
  }

  lemma RowsAgree(t: Tables, released: seq<Bar>, source: seq<Bar>, std: Deviation, k: Key, now: int)
    requires IsSource(source) && RowsOfReleased(t, released, source, std)
    requires forall b :: b in VisibleAt(GroupOf(source, k), now) ==> b in released
    requires GroupOf(t.bars, k) == CopyAll(VisibleAt(GroupOf(source, k), now))
    ensures AgreesWithRecomputation(t, k, std)
  {
    var g, v := GroupOf(t.bars, k), VisibleAt(GroupOf(source, k), now);
    RowsOfVisible(source, std, k, now);
    hide RowsOf, PrecomputedRow, VisibleAt, GroupOf;
    assert forall b :: b in v ==> HasRow(t, b, source, std);
    hide IsSource, RowsOfReleased, StoredOf;
    forall i | 0 <= i < |g| ensures IdOf(g[i]) in t.indicators && t.indicators[IdOf(g[i])] == StoredOf(RowsOf(g, std)[i]) {
      PrecomputedIsRecomputed(source, std, k, now, i);
      CopiesHaveTheSameRows(v, std, i);
      assert v[i] in v && IdOf(g[i]) == IdOf(v[i]);
    }
  }

  lemma RowsOfVisible(source: seq<Bar>, std: Deviation, k: Key, now: int)
    requires IsSource(source)
    ensures var v := VisibleAt(GroupOf(source, k), now);
      Ordered(v) && |RowsOf(CopyAll(v), std)| == |v|
  {
    var v := VisibleAt(GroupOf(source, k), now);
    GroupIsHistory(source, k);
    VisibleIsPrefix(GroupOf(source, k), k, now);
    SortOfOrdered(CopyAll(v));
  }

  // ------------------------------------------------------- the method form

  /** The rows of every group, under the id of their bar. */
  ghost predicate IsPrecomputed(rows: map<BarId, Row>, source: seq<Bar>, std: Deviation) {
    forall id :: (id in rows <==> PrecomputedRow(source, id, std).Some?)
      && (id in rows ==> Some(rows[id]) == PrecomputedRow(source, id, std))
  }

  method GroupBars(bars: seq<Bar>) returns (grouped: map<Key, seq<Bar>>)
    ensures forall k :: (k in grouped <==> GroupOf(bars, k) != []) && (k in grouped ==> grouped[k] == GroupOf(bars, k))
  {
    grouped := map[];
    for i := 0 to |bars|
      invariant forall k :: k in grouped <==> GroupOf(bars[..i], k) != []
      invariant forall k :: k in grouped ==> grouped[k] == GroupOf(bars[..i], k)
    {
      var k := KeyOf(bars[i]);
      assert bars[..i + 1][..i] == bars[..i];
      grouped := grouped[k := (if k in grouped then grouped[k] else []) + [bars[i]]];
    }
    assert bars[..|bars|] == bars;
  }

  /** One group's rows, each under its bar's id; a later bar of the same time overwrites. */
  method StoreRows(output0: map<BarId, Row>, k: Key, ordered: seq<Bar>, rows: seq<Row>) returns (output: map<BarId, Row>)
    requires |rows| == |ordered| && forall id :: id in output0 ==> id.key != k
    ensures forall id: BarId :: id.key != k ==> (id in output <==> id in output0) && (id in output ==> output[id] == output0[id])
    ensures forall ts :: (BarId(k, ts) in output <==> IndexOf(ordered, ts).Some?)
    ensures forall ts :: BarId(k, ts) in output ==> output[BarId(k, ts)] == rows[IndexOf(ordered, ts).value]
  {
    output := output0;
    for i := 0 to |ordered|
      invariant forall id: BarId :: id.key != k ==> (id in output <==> id in output0) && (id in output ==> output[id] == output0[id])
      invariant forall ts :: (BarId(k, ts) in output <==> IndexOf(ordered[..i], ts).Some?)
      invariant forall ts :: BarId(k, ts) in output ==> output[BarId(k, ts)] == rows[IndexOf(ordered[..i], ts).value]
    {
      assert ordered[..i + 1][..i] == ordered[..i];
      output := output[BarId(k, ordered[i].ts) := rows[i]];
    }
    assert ordered[..|ordered|] == ordered;
  }

  /** `_precompute_indicators`: group by symbol and timeframe, order each group, compute its rows once. */
  method PrecomputeIndicators(source: seq<Bar>, std: Deviation) returns (output: map<BarId, Row>)
    ensures IsPrecomputed(output, source, std)
  {
    hide RowsOf, SortByTs;
    var grouped := GroupBars(source);
    var todo := grouped.Keys;
    output := map[];
    while todo != {}
      invariant todo <= grouped.Keys
      invariant forall id :: id in output <==> id.key in grouped && id.key !in todo && PrecomputedRow(source, id, std).Some?
      invariant forall id :: id in output ==> Some(output[id]) == PrecomputedRow(source, id, std)
    {
      var k :| k in todo;
      var ordered := SortByTs(grouped[k]);
      SortOrders(grouped[k]);
      SortOfOrdered(ordered);
      var rows := CalculateIndicatorRows(ordered, std);
      SameRows(grouped[k], std);
      output := StoreRows(output, k, ordered, rows);
      todo := todo - {k};
    }
    forall id: BarId | id.key !in grouped ensures PrecomputedRow(source, id, std).None? {
      NoRowWithoutBars(source, id, std);
    }
  }

  lemma SameRows(group: seq<Bar>, std: Deviation)
    ensures RowsOf(SortByTs(group), std) == RowsOf(group, std)
  {
    SortOrders(group);
    SortOfOrdered(SortByTs(group));
  }

  lemma NoRowWithoutBars(source: seq<Bar>, id: BarId, std: Deviation)
    requires GroupOf(source, id.key) == []
    ensures PrecomputedRow(source, id, std).None?
  {
  }

  method GroupByTime(bars: seq<Bar>) returns (byTime: map<int, seq<Bar>>)
    ensures forall t :: t in byTime <==> t in Times(bars)
    ensures forall t :: t in byTime ==> byTime[t] == BatchAt(bars, t)
  {
    byTime := map[];
    for i := 0 to |bars|
      invariant forall t :: t in byTime <==> BatchAt(bars[..i], t) != []
      invariant forall t :: t in byTime ==> byTime[t] == BatchAt(bars[..i], t)
    {
      var t := AvailableAt(bars[i]);
      assert bars[..i + 1][..i] == bars[..i];
      byTime := byTime[t := (if t in byTime then byTime[t] else []) + [bars[i]]];
    }
    assert bars[..|bars|] == bars;
    forall t ensures BatchAt(bars, t) != [] <==> t in Times(bars) {
      TimesHaveBatches(bars, t);
    }
  }

  lemma TimesHaveBatches(bars: seq<Bar>, t: int)
    ensures BatchAt(bars, t) != [] <==> t in Times(bars)
  {
    TimesAreAvailabilities(bars);
    SelectedMembers(bars, Key("", Daily), t);
    NoMembers(BatchAt(bars, t));
    if t in Times(bars) {
      var b :| b in bars && AvailableAt(b) == t;
      assert b in BatchAt(bars, t);
    }
  }

  class ReplayTables {
    var bars: seq<Bar>
    var indicators: map<BarId, Stored>

    constructor ()
      ensures Snapshot() == Tables([], map[])
    {
      bars, indicators := [], map[];
    }

    ghost function Snapshot(): Tables
      reads this
    {
      Tables(bars, indicators)
    }

    /** One time step: copy the batch and the rows that were computed for it. */
    method Admit(batch: seq<Bar>, rows: map<BarId, Row>, ghost source: seq<Bar>, ghost std: Deviation)
      requires IsPrecomputed(rows, source, std)
      requires forall b :: b in batch ==> PrecomputedRow(source, IdOf(b), std).Some?
      modifies this
      ensures Snapshot() == Admitted(old(Snapshot()), batch, source, std)
    {
      hide PrecomputedRow;
      for i := 0 to |batch|
        invariant Snapshot() == Admitted(old(Snapshot()), batch[..i], source, std)
      {
        assert batch[..i + 1][..i] == batch[..i];
        var id := IdOf(batch[i]);
        bars := bars + [CopyOf(batch[i])];
        indicators := indicators[id := StoredOf(rows[id])];
      }
      assert batch[..|batch|] == batch;
    }
  }

  /** The replay loop of `run_backtest`, as far as bars and indicators go. */
  method ReplayBars(source: seq<Bar>, std: Deviation) returns (tables: ReplayTables)
    ensures tables.Snapshot() == After(source, std, |Times(source)|)
  {
    hide Admitted, PrecomputedRow;
    var rows := PrecomputeIndicators(source, std);
    var byTime := GroupByTime(source);
    var times := Times(source);
    tables := new ReplayTables();
    for n := 0 to |times|
      invariant tables.Snapshot() == After(source, std, n)
    {
      var now := times[n];
      assert now in times;
      var batch := byTime[now];
      forall b | b in batch ensures PrecomputedRow(source, IdOf(b), std).Some? {
        SelectedMembers(source, KeyOf(b), now);
        RowsCoverSource(source, b, std);
      }
      tables.Admit(batch, rows, source, std);
    }
  }
}
