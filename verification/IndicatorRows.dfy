/** The indicator rows of a series of bars: app/services/indicators.py:125-214. */
module IndicatorRows {
  import opened Common
  import opened Indicators

  datatype Timeframe = Daily | Hourly | Quarter | OtherFrame

  datatype Bar = Bar(
    symbol: string,
    frame: Timeframe,
    ts: int,
    high: real,
    low: real,
    close: real,
    volume: real,
    turnover: Option<real>)

  datatype Row = Row(
    ma5: Option<real>, ma10: Option<real>, ma20: Option<real>, ma60: Option<real>,
    ema5: real, ema10: real, ema20: real, ema60: real,
    dif: real, dea: Option<real>, hist: Option<real>,
    atr: Option<real>,
    volumeMa20: Option<real>,
    bollUpper: Option<real>, bollLower: Option<real>,
    rsi6: Option<real>, rsi14: Option<real>,
    kdj: Kdj,
    turnover: real, turnoverMa20: Option<real>,
    volumeRatio: Option<real>, changePct: Option<real>, amplitudePct: Option<real>)

  /** The standard deviation of a window, which the model leaves open. */
  type Deviation = seq<real> -> real

  // ------------------------------------------------------------ the columns

  /** The input columns the indicators are computed from. */
  datatype Columns = Columns(prices: Prices, volumes: seq<real>, turnovers: seq<real>, difs: seq<real>, ranges: seq<real>)

  function TurnoverOf(b: Bar): real {
    if b.turnover.Some? && b.turnover.value > 0.0 then b.turnover.value else b.close * b.volume
  }

  function PricesOf(bars: seq<Bar>): (p: Prices)
    ensures SameLength(p) && |p.closes| == |bars|
  {
    Prices(seq(|bars|, i requires 0 <= i < |bars| => bars[i].high),
           seq(|bars|, i requires 0 <= i < |bars| => bars[i].low),
           seq(|bars|, i requires 0 <= i < |bars| => bars[i].close))
  }

  function DifAt(closes: seq<real>, i: nat): real
    requires i < |closes|
  {
    EmaAt(closes, 12, i) - EmaAt(closes, 26, i)
  }

  function TrueRange(p: Prices, i: nat): real
    requires SameLength(p) && i < |p.closes|
  {
    if i == 0 then p.highs[0] - p.lows[0]
    else
      MaxReal(MaxReal(p.highs[i] - p.lows[i], AbsReal(p.highs[i] - p.closes[i - 1])), AbsReal(p.lows[i] - p.closes[i - 1]))
  }

  function ColumnsOf(bars: seq<Bar>): (c: Columns) {
    var p := PricesOf(bars);
    Columns(p,
            seq(|bars|, i requires 0 <= i < |bars| => bars[i].volume),
            seq(|bars|, i requires 0 <= i < |bars| => TurnoverOf(bars[i])),
            seq(|bars|, i requires 0 <= i < |bars| => DifAt(p.closes, i)),
            seq(|bars|, i requires 0 <= i < |bars| => TrueRange(p, i)))
  }

  predicate WellSized(c: Columns) {
    SameLength(c.prices) && |c.volumes| == |c.turnovers| == |c.difs| == |c.ranges| == |c.prices.closes|
  }

  // --------------------------------------------------------------- one row

  function DeaAt(difs: seq<real>, i: nat): Option<real>
    requires i < |difs|
  {
    if i >= 25 then Some(EmaAt(difs, 9, i)) else None
  }

  function Histogram(dif: real, dea: Option<real>): Option<real> {
    if dea.Some? then Some((dif - dea.value) * 2.0) else None
  }

  function HistAt(difs: seq<real>, i: nat): Option<real>
    requires i < |difs|
  {
    Histogram(difs[i], DeaAt(difs, i))
  }

  function DeviationAt(xs: seq<real>, window: nat, i: nat, std: Deviation): Option<real>
    requires 0 < window && i < |xs|
  {
    if i + 1 < window then None else Some(std(xs[i + 1 - window..i + 1]))
  }

  function Band(mid: Option<real>, deviation: Option<real>, width: real): Option<real> {
    if mid.Some? && deviation.Some? then Some(mid.value + width * deviation.value) else None
  }

  function BandAt(xs: seq<real>, i: nat, std: Deviation, width: real): Option<real>
    requires i < |xs|
  {
    Band(WindowMean(xs, 20, i), DeviationAt(xs, 20, i, std), width)
  }

  function RatioTo(x: real, base: Option<real>): Option<real> {
    if base.Some? && base.value != 0.0 then Some(x / base.value) else None
  }

  function ChangeAt(closes: seq<real>, i: nat): Option<real>
    requires i < |closes|
  {
    if i == 0 || closes[i - 1] == 0.0 then None else Some(closes[i] / closes[i - 1] - 1.0)
  }

  function AmplitudeAt(p: Prices, i: nat): Option<real>
    requires SameLength(p) && i < |p.closes|
  {
    if i == 0 || p.closes[i - 1] == 0.0 then None else Some((p.highs[i] - p.lows[i]) / p.closes[i - 1])
  }

  function RowAt(c: Columns, std: Deviation, i: nat): Row
    requires WellSized(c) && i < |c.volumes|
  {
    var xs := c.prices.closes;
    Row(WindowMean(xs, 5, i), WindowMean(xs, 10, i), WindowMean(xs, 20, i), WindowMean(xs, 60, i),
        EmaAt(xs, 5, i), EmaAt(xs, 10, i), EmaAt(xs, 20, i), EmaAt(xs, 60, i),
        c.difs[i], DeaAt(c.difs, i), HistAt(c.difs, i),
        WindowMean(c.ranges, 14, i),
        WindowMean(c.volumes, 20, i),
        BandAt(xs, i, std, 2.0), BandAt(xs, i, std, -2.0),
        RsiAt(xs, 6, i), RsiAt(xs, 14, i),
        KdjAt(c.prices, 9, i),
        c.turnovers[i], WindowMean(c.turnovers, 20, i),
        RatioTo(c.volumes[i], WindowMean(c.volumes, 20, i)), ChangeAt(xs, i), AmplitudeAt(c.prices, i))
  }

  // ------------------------------------------------------------- the series

  predicate Ordered(bars: seq<Bar>) {
    forall i, j :: 0 <= i < j < |bars| ==> bars[i].ts <= bars[j].ts
  }

  function InsertByTs(bars: seq<Bar>, b: Bar): seq<Bar> {
    if bars == [] || bars[|bars| - 1].ts <= b.ts then bars + [b]
    else InsertByTs(bars[..|bars| - 1], b) + [bars[|bars| - 1]]
  }

  /** `sorted(klines, key=ts)`. */
  function SortByTs(bars: seq<Bar>): seq<Bar> {
    if bars == [] then [] else InsertByTs(SortByTs(bars[..|bars| - 1]), bars[|bars| - 1])
  }

  lemma {:induction false} InsertKeepsBars(bars: seq<Bar>, b: Bar)
    ensures multiset(InsertByTs(bars, b)) == multiset(bars) + multiset{b}
  {
    if bars != [] && bars[|bars| - 1].ts > b.ts {
      var n := |bars| - 1;
      InsertKeepsBars(bars[..n], b);
      assert bars == bars[..n] + [bars[n]];
    }
  }

  lemma {:induction false} InsertKeepsOrder(bars: seq<Bar>, b: Bar)
    requires Ordered(bars)
    ensures Ordered(InsertByTs(bars, b))
  {
    if bars != [] && bars[|bars| - 1].ts > b.ts {
      var n := |bars| - 1;
      InsertKeepsOrder(bars[..n], b);
      InsertKeepsBars(bars[..n], b);
      var r := InsertByTs(bars[..n], b);
      forall x | x in r ensures x.ts <= bars[n].ts {
        assert x in multiset(r);
        assert x in bars[..n] || x == b;
      }
      hide InsertByTs;
      assert forall k :: 0 <= k < |r| ==> r[k] in r;
    }
  }

  /** The sort orders the bars and loses none. */
  lemma {:induction false} SortOrders(bars: seq<Bar>)
    ensures Ordered(SortByTs(bars)) && multiset(SortByTs(bars)) == multiset(bars)
  {
    if bars != [] {
      var n := |bars| - 1;
      SortOrders(bars[..n]);
      InsertKeepsOrder(SortByTs(bars[..n]), bars[n]);
      InsertKeepsBars(SortByTs(bars[..n]), bars[n]);
      assert bars == bars[..n] + [bars[n]];
    }
  }

  /** Bars that are already in order stay as they are. */
  lemma {:induction false} SortOfOrdered(bars: seq<Bar>)
    requires Ordered(bars)
    ensures SortByTs(bars) == bars
  {
    if bars != [] {
      var n := |bars| - 1;
      SortOfOrdered(bars[..n]);
      assert bars == bars[..n] + [bars[n]];
    }
  }

  function RowsInOrder(ordered: seq<Bar>, std: Deviation): (rows: seq<Row>)
    ensures |rows| == |ordered|
  {
    var c := ColumnsOf(ordered);
    seq(|ordered|, i requires 0 <= i < |ordered| => RowAt(c, std, i))
  }

  /** `calculate_indicator_rows`. */
  function RowsOf(klines: seq<Bar>, std: Deviation): (rows: seq<Row>)
    ensures |rows| == |SortByTs(klines)|
  {
    RowsInOrder(SortByTs(klines), std)
  }

  // ------------------------------------------------------- prefix stability

  ghost predicate ColumnsPrefix(c: Columns, d: Columns) {
    && WellSized(c) && WellSized(d) && PricesPrefix(c.prices, d.prices)
    && c.volumes <= d.volumes && c.turnovers <= d.turnovers && c.difs <= d.difs && c.ranges <= d.ranges
  }

  lemma ColumnsOfPrefix(s: seq<Bar>, t: seq<Bar>)
    requires s <= t
    ensures ColumnsPrefix(ColumnsOf(s), ColumnsOf(t))
  {
    hide EmaAt;
    var p, q := PricesOf(s), PricesOf(t);
    assert p.closes <= q.closes;
    forall i | 0 <= i < |s| ensures DifAt(p.closes, i) == DifAt(q.closes, i) && TrueRange(p, i) == TrueRange(q, i) {
      EmaOfPrefix(p.closes, q.closes, 12, i);
      EmaOfPrefix(p.closes, q.closes, 26, i);
    }
  }

  lemma AveragesOfRow(xs: seq<real>, ys: seq<real>, i: nat)
    requires i < |xs| && xs <= ys
    ensures WindowMean(xs, 5, i) == WindowMean(ys, 5, i) && WindowMean(xs, 10, i) == WindowMean(ys, 10, i)
    ensures WindowMean(xs, 20, i) == WindowMean(ys, 20, i) && WindowMean(xs, 60, i) == WindowMean(ys, 60, i)
    ensures EmaAt(xs, 5, i) == EmaAt(ys, 5, i) && EmaAt(xs, 10, i) == EmaAt(ys, 10, i)
    ensures EmaAt(xs, 20, i) == EmaAt(ys, 20, i) && EmaAt(xs, 60, i) == EmaAt(ys, 60, i)
  {
    hide WindowMean, EmaAt;
    MeanOfPrefix(xs, ys, 5, i);
    MeanOfPrefix(xs, ys, 10, i);
    MeanOfPrefix(xs, ys, 20, i);
    MeanOfPrefix(xs, ys, 60, i);
    EmaOfPrefix(xs, ys, 5, i);
    EmaOfPrefix(xs, ys, 10, i);
    EmaOfPrefix(xs, ys, 20, i);
    EmaOfPrefix(xs, ys, 60, i);
  }

  lemma BandsOfPrefix(xs: seq<real>, ys: seq<real>, i: nat, std: Deviation, width: real)
    requires i < |xs| && xs <= ys
    ensures BandAt(xs, i, std, width) == BandAt(ys, i, std, width)
  {
    hide WindowMean, Band;
    MeanOfPrefix(xs, ys, 20, i);
    assert i >= 19 ==> xs[i + 1 - 20..i + 1] == ys[i + 1 - 20..i + 1];
    assert DeviationAt(xs, 20, i, std) == DeviationAt(ys, 20, i, std);
  }

  lemma MacdOfPrefix(xs: seq<real>, ys: seq<real>, i: nat)
    requires i < |xs| && xs <= ys
    ensures DeaAt(xs, i) == DeaAt(ys, i) && HistAt(xs, i) == HistAt(ys, i)
  {
    hide EmaAt;
    EmaOfPrefix(xs, ys, 9, i);
  }

  /** A bar's row depends on that bar and the bars before it. */
  lemma RowOfPrefix(c: Columns, d: Columns, std: Deviation, i: nat)
    requires ColumnsPrefix(c, d) && i < |c.volumes|
    ensures RowAt(c, std, i) == RowAt(d, std, i)
  {
    hide WindowMean, EmaAt, DeaAt, HistAt, BandAt, RsiAt, KAt, DAt;
    var xs, ys := c.prices.closes, d.prices.closes;
    AveragesOfRow(xs, ys, i);
    BandsOfPrefix(xs, ys, i, std, 2.0);
    BandsOfPrefix(xs, ys, i, std, -2.0);
    MacdOfPrefix(c.difs, d.difs, i);
    MeanOfPrefix(c.ranges, d.ranges, 14, i);
    MeanOfPrefix(c.volumes, d.volumes, 20, i);
    MeanOfPrefix(c.turnovers, d.turnovers, 20, i);
    RsiOfPrefix(xs, ys, 6, i);
    RsiOfPrefix(xs, ys, 14, i);
    KdOfPrefix(c.prices, d.prices, 9, i);
  }

  /** The rows of a prefix are a prefix of the rows: no later bar changes an earlier row. */
  lemma RowsOfPrefix(s: seq<Bar>, t: seq<Bar>, std: Deviation)
    requires s <= t && Ordered(t)
    ensures |RowsOf(t, std)| == |t| && RowsOf(s, std) == RowsOf(t, std)[..|s|]
  {
    hide RowAt, ColumnsOf;
    SortOfOrdered(s);
    SortOfOrdered(t);
    ColumnsOfPrefix(s, t);
    ColumnsAreSized(s);
    ColumnsAreSized(t);
    hide WellSized, ColumnsPrefix, SortByTs;
    forall i | 0 <= i < |s| ensures RowAt(ColumnsOf(s), std, i) == RowAt(ColumnsOf(t), std, i) {
      RowOfPrefix(ColumnsOf(s), ColumnsOf(t), std, i);
    }
  }

  // ------------------------------------------------------- the method form

  method RollingDeviation(values: seq<real>, window: nat, std: Deviation) returns (result: seq<Option<real>>)
    requires 0 < window
    ensures |result| == |values|
    ensures forall i :: 0 <= i < |values| ==> result[i] == DeviationAt(values, window, i, std)
  {
    result := [];
    for index := 0 to |values|
      invariant |result| == index
      invariant forall i :: 0 <= i < index ==> result[i] == DeviationAt(values, window, i, std)
    {
      result := result + [if index + 1 < window then None else Some(std(values[index + 1 - window..index + 1]))];
    }
  }

  method CalculateColumns(ordered: seq<Bar>) returns (c: Columns)
    ensures c == ColumnsOf(ordered)
  {
    var p := PricesOf(ordered);
    var ema12 := Ema(p.closes, 12);
    var ema26 := Ema(p.closes, 26);
    var difs: seq<real>, ranges: seq<real> := [], [];
    var volumes: seq<real>, turnovers: seq<real> := [], [];
    for i := 0 to |ordered|
      invariant |difs| == |ranges| == |volumes| == |turnovers| == i
      invariant forall k :: 0 <= k < i ==> difs[k] == DifAt(p.closes, k) && ranges[k] == TrueRange(p, k)
      invariant forall k :: 0 <= k < i ==> volumes[k] == ordered[k].volume && turnovers[k] == TurnoverOf(ordered[k])
    {
      difs := difs + [ema12[i] - ema26[i]];
      ranges := ranges + [TrueRange(p, i)];
      volumes := volumes + [ordered[i].volume];
      turnovers := turnovers + [TurnoverOf(ordered[i])];
    }
    c := Columns(p, volumes, turnovers, difs, ranges);
  }

  /** The averages of every length, the deviations, the oscillators and the smoothed columns, one row a bar. */
  method CalculateIndicatorRows(klines: seq<Bar>, std: Deviation) returns (rows: seq<Row>)
    ensures rows == RowsOf(klines, std)
  {
    hide WindowMean, EmaAt, RsiAt, KdjAt, ColumnsOf, SortByTs, Band, Histogram, RatioTo, ChangeAt, AmplitudeAt, DeviationAt;
    var c := CalculateColumns(SortByTs(klines));
    ColumnsAreSized(SortByTs(klines));
    var xs := c.prices.closes;
    var ma5 := RollingAverage(xs, 5);
    var ma10 := RollingAverage(xs, 10);
    var ma20 := RollingAverage(xs, 20);
    var ma60 := RollingAverage(xs, 60);
    var ema5 := Ema(xs, 5);
    var ema10 := Ema(xs, 10);
    var ema20 := Ema(xs, 20);
    var ema60 := Ema(xs, 60);
    var dea := Ema(c.difs, 9);
    var atr := RollingAverage(c.ranges, 14);
    var volumeMa20 := RollingAverage(c.volumes, 20);
    var turnoverMa20 := RollingAverage(c.turnovers, 20);
    var std20 := RollingDeviation(xs, 20, std);
    var rsi6 := Rsi(xs, 6);
    var rsi14 := Rsi(xs, 14);
    var kdj := CalculateKdj(c.prices, 9);
    rows := [];
    for i := 0 to |xs|
      invariant |rows| == i
      invariant forall k :: 0 <= k < i ==> rows[k] == RowAt(c, std, k)
    {
      var signal := if i >= 25 then Some(dea[i]) else None;
      rows := rows + [Row(
        ma5[i], ma10[i], ma20[i], ma60[i], ema5[i], ema10[i], ema20[i], ema60[i],
        c.difs[i], signal, Histogram(c.difs[i], signal),
        atr[i], volumeMa20[i], Band(ma20[i], std20[i], 2.0), Band(ma20[i], std20[i], -2.0),
        rsi6[i], rsi14[i], kdj[i], c.turnovers[i], turnoverMa20[i],
        RatioTo(c.volumes[i], volumeMa20[i]), ChangeAt(xs, i), AmplitudeAt(c.prices, i))];
    }
  }

  lemma ColumnsAreSized(bars: seq<Bar>)
    ensures WellSized(ColumnsOf(bars)) && |ColumnsOf(bars).volumes| == |bars|
  {
  }
}
