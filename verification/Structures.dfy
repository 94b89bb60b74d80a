/** The structure detector: lifecycle events from a series of bars (app/services/structures.py:30-277). */
module Structures {
  import opened Common

  /** A bar joined with its indicators; DIF and histogram are present in every joined bar. */
  datatype Point = Point(
    ts: int,
    high: real,
    low: real,
    close: real,
    volume: real,
    dif: real,
    hist: real,
    atr: Option<real>,
    ma20: Option<real>,
    volumeMa: Option<real>)

  datatype EventKind =
    | BottomPassivation | BottomStructure | BottomFailed
    | TopPassivation | TopStructure | TopInvalidated

  predicate IsBottom(k: EventKind) {
    k.BottomPassivation? || k.BottomStructure? || k.BottomFailed?
  }

  datatype Detection = Detection(
    kind: EventKind,
    ts: int,
    price: real,
    pivot: real,                 // pivot_low of a bottom event, pivot_high of a top event
    confirm: Option<real>,
    invalidation: real,
    trigger: Option<real>,
    parentKind: Option<EventKind>,
    parentTs: Option<int>,
    expires: Option<int>)

  const LOOKBACK := 30
  const CONFIRMATION := 8
  const MINIMUM_HISTORY := 40
  const NEAR_ATR := 0.8
  const PRE_MOVE_ATR := 2.0
  const PRE_MOVE_PCT := 0.06
  const VOLUME_RATIO := 0.65
  const EXPIRY_SECONDS := 14 * 86400
  const FIRST_INDEX := LOOKBACK + 5
  const WINDOW := 160

  // ------------------------------------------------------- window extremes

  function LowestLow(s: seq<Point>, lo: nat, hi: nat): (m: real)
    requires lo < hi <= |s|
    ensures forall k :: lo <= k < hi ==> m <= s[k].low
    ensures exists k :: lo <= k < hi && m == s[k].low
  {
    if hi == lo + 1 then s[lo].low else MinReal(LowestLow(s, lo, hi - 1), s[hi - 1].low)
  }

  function HighestHigh(s: seq<Point>, lo: nat, hi: nat): (m: real)
    requires lo < hi <= |s|
    ensures forall k :: lo <= k < hi ==> s[k].high <= m
    ensures exists k :: lo <= k < hi && m == s[k].high
  {
    if hi == lo + 1 then s[lo].high else MaxReal(HighestHigh(s, lo, hi - 1), s[hi - 1].high)
  }

  function LowestDif(s: seq<Point>, lo: nat, hi: nat): (m: real)
    requires lo < hi <= |s|
  {
    if hi == lo + 1 then s[lo].dif else MinReal(LowestDif(s, lo, hi - 1), s[hi - 1].dif)
  }

  function HighestDif(s: seq<Point>, lo: nat, hi: nat): (m: real)
    requires lo < hi <= |s|
  {
    if hi == lo + 1 then s[lo].dif else MaxReal(HighestDif(s, lo, hi - 1), s[hi - 1].dif)
  }

  // ------------------------------------------------------- one bar's events

  /** The open cycle of each side. */
  datatype Cycle = Cycle(
    bottomPassivation: Option<Detection>,
    bottomStructure: Option<Detection>,
    topPassivation: Option<Detection>,
    topStructure: Option<Detection>)

  const NO_CYCLE := Cycle(None, None, None, None)

  predicate Ready(s: seq<Point>, i: nat)
    requires FIRST_INDEX <= i < |s|
  {
    s[i].atr.Some? && s[i].atr.value != 0.0
  }

  predicate Improving(s: seq<Point>, i: nat)
    requires 1 <= i < |s|
  {
    s[i].hist > s[i - 1].hist
  }

  predicate Weakening(s: seq<Point>, i: nat)
    requires 1 <= i < |s|
  {
    s[i].hist < s[i - 1].hist
  }

  function Opening(kind: EventKind, p: Point, pivot: real): Detection {
    Detection(kind, p.ts, p.close, pivot, None, pivot, None, None, None, Some(p.ts + EXPIRY_SECONDS))
  }

  /** A confirmation inherits the pivot of its passivation. */
  function Confirming(kind: EventKind, p: Point, level: real, parent: Detection): Detection {
    Detection(kind, p.ts, p.close, parent.pivot, Some(level), parent.pivot, Some(level), Some(parent.kind), Some(parent.ts), Some(p.ts + EXPIRY_SECONDS))
  }

  /** A closing event inherits every level of its structure. */
  function Closing(kind: EventKind, p: Point, parent: Detection): Detection {
    Detection(kind, p.ts, p.close, parent.pivot, parent.confirm, parent.invalidation, None, Some(parent.kind), Some(parent.ts), None)
  }

  function FindBottomPassivation(s: seq<Point>, i: nat, c: Cycle): Option<Detection>
    requires FIRST_INDEX <= i < |s| && Ready(s, i)
  {
    var low, high, atr := LowestLow(s, i - LOOKBACK, i), HighestHigh(s, i - LOOKBACK, i), s[i].atr.value;
    var near := s[i].low <= low + NEAR_ATR * atr;
    var moved := (high - s[i].low) / MaxReal(high, 0.0001) >= PRE_MOVE_PCT || high - s[i].low >= PRE_MOVE_ATR * atr;
    if c.bottomPassivation.None? && c.bottomStructure.None? && near && moved
      && s[i].dif > LowestDif(s, i - LOOKBACK, i) && Improving(s, i)
    then Some(Opening(BottomPassivation, s[i], MinReal(s[i].low, low)))
    else None
  }

  function FindTopPassivation(s: seq<Point>, i: nat, c: Cycle): Option<Detection>
    requires FIRST_INDEX <= i < |s| && Ready(s, i)
  {
    var low, high, atr := LowestLow(s, i - LOOKBACK, i), HighestHigh(s, i - LOOKBACK, i), s[i].atr.value;
    var near := s[i].high >= high - NEAR_ATR * atr;
    var moved := (s[i].high - low) / MaxReal(low, 0.0001) >= PRE_MOVE_PCT || s[i].high - low >= PRE_MOVE_ATR * atr;
    if c.topPassivation.None? && c.topStructure.None? && near && moved
      && s[i].dif < HighestDif(s, i - LOOKBACK, i) && Weakening(s, i)
    then Some(Opening(TopPassivation, s[i], MaxReal(s[i].high, high)))
    else None
  }

  /** `c` already holds a passivation found in this bar, which is too young to be confirmed. */
  function FindBottomStructure(s: seq<Point>, i: nat, c: Cycle): Option<Detection>
    requires FIRST_INDEX <= i < |s|
  {
    if c.bottomStructure.None? && c.bottomPassivation.Some? && c.bottomPassivation.value.ts < s[i].ts then
      var level := HighestHigh(s, i - CONFIRMATION, i);
      if s[i].close >= level && s[i].ma20.Some? && s[i].close >= s[i].ma20.value && Improving(s, i) && s[i].dif >= s[i - 1].dif
        && (s[i].volumeMa.None? || s[i].volume >= s[i].volumeMa.value * VOLUME_RATIO)
      then Some(Confirming(BottomStructure, s[i], level, c.bottomPassivation.value))
      else None
    else None
  }

  function FindTopStructure(s: seq<Point>, i: nat, c: Cycle): Option<Detection>
    requires FIRST_INDEX <= i < |s|
  {
    if c.topStructure.None? && c.topPassivation.Some? && c.topPassivation.value.ts < s[i].ts then
      var level := LowestLow(s, i - CONFIRMATION, i);
      if s[i].close <= level && Weakening(s, i) && s[i].dif <= s[i - 1].dif
      then Some(Confirming(TopStructure, s[i], level, c.topPassivation.value))
      else None
    else None
  }

  function FindBottomFailed(s: seq<Point>, i: nat, c: Cycle): Option<Detection>
    requires FIRST_INDEX <= i < |s|
  {
    if c.bottomStructure.Some? && c.bottomStructure.value.ts < s[i].ts
      && s[i].close < c.bottomStructure.value.invalidation && Weakening(s, i)
    then Some(Closing(BottomFailed, s[i], c.bottomStructure.value))
    else None
  }

  function FindTopInvalidated(s: seq<Point>, i: nat, c: Cycle): Option<Detection>
    requires FIRST_INDEX <= i < |s|
  {
    if c.topStructure.Some? && c.topStructure.value.ts < s[i].ts
      && s[i].close > c.topStructure.value.invalidation && s[i].ma20.Some? && s[i].close > s[i].ma20.value
    then Some(Closing(TopInvalidated, s[i], c.topStructure.value))
    else None
  }

  function ToSeq(d: Option<Detection>): seq<Detection> {
    if d.Some? then [d.value] else []
  }

  function WithPassivations(c: Cycle, bottom: Option<Detection>, top: Option<Detection>): Cycle {
    c.(bottomPassivation := if bottom.Some? then bottom else c.bottomPassivation,
       topPassivation := if top.Some? then top else c.topPassivation)
  }

  /** `_detect_at_index`: the events of bar `i`, in the order the code appends them. */
  function DetectAt(s: seq<Point>, i: nat, c: Cycle): seq<Detection>
    requires FIRST_INDEX <= i < |s|
  {
    if !Ready(s, i) then []
    else
      var bottom, top := FindBottomPassivation(s, i, c), FindTopPassivation(s, i, c);
      var c1 := WithPassivations(c, bottom, top);
      ToSeq(bottom) + ToSeq(top)
      + ToSeq(FindBottomStructure(s, i, c1)) + ToSeq(FindTopStructure(s, i, c1))
      + ToSeq(FindBottomFailed(s, i, c)) + ToSeq(FindTopInvalidated(s, i, c))
  }

  /** How one event moves the open cycles. */
  function Advance(c: Cycle, d: Detection): Cycle {
    match d.kind
    case BottomPassivation => c.(bottomPassivation := Some(d))
    case BottomStructure => c.(bottomStructure := Some(d))
    case BottomFailed => c.(bottomPassivation := None, bottomStructure := None)
    case TopPassivation => c.(topPassivation := Some(d))
    case TopStructure => c.(topStructure := Some(d))
    case TopInvalidated => c.(topPassivation := None, topStructure := None)
  }

  function AdvanceAll(c: Cycle, ds: seq<Detection>): Cycle {
    if ds == [] then c else Advance(AdvanceAll(c, ds[..|ds| - 1]), ds[|ds| - 1])
  }

  /** The events of the bars before index `n`, and the cycles they leave open. */
  function DetectUpTo(s: seq<Point>, n: nat): (r: (seq<Detection>, Cycle))
    requires n <= |s|
  {
    if n <= FIRST_INDEX then ([], NO_CYCLE)
    else
      var before := DetectUpTo(s, n - 1);
      var found := DetectAt(s, n - 1, before.1);
      (before.0 + found, AdvanceAll(before.1, found))
  }

  /** `detect_latest_structures` on a joined series. */
  function Detect(s: seq<Point>): seq<Detection> {
    if |s| < MINIMUM_HISTORY then [] else DetectUpTo(s, |s|).0
  }

  /** The loop over the bars with its four cycle variables. */
  method DetectLatestStructures(s: seq<Point>) returns (detections: seq<Detection>)
    ensures detections == Detect(s)
  {
    hide DetectAt;
    detections := [];
    if |s| < MINIMUM_HISTORY {
      return;
    }
    var bottomPassivation, bottomStructure, topPassivation, topStructure := None, None, None, None;
    var i := FIRST_INDEX;
    while i < |s|
      invariant FIRST_INDEX <= i <= |s|
      invariant DetectUpTo(s, i) == (detections, Cycle(bottomPassivation, bottomStructure, topPassivation, topStructure))
    {
      var before := Cycle(bottomPassivation, bottomStructure, topPassivation, topStructure);
      var found := DetectAt(s, i, before);
      ghost var detections0 := detections;
      for k := 0 to |found|
        invariant detections == detections0 + found[..k]
        invariant AdvanceAll(before, found[..k]) == Cycle(bottomPassivation, bottomStructure, topPassivation, topStructure)
      {
        var d := found[k];
        assert found[..k + 1][..k] == found[..k];
        detections := detections + [d];
        match d.kind
        case BottomPassivation => bottomPassivation := Some(d);
        case BottomStructure => bottomStructure := Some(d);
        case BottomFailed => bottomPassivation, bottomStructure := None, None;
        case TopPassivation => topPassivation := Some(d);
        case TopStructure => topStructure := Some(d);
        case TopInvalidated => topPassivation, topStructure := None, None;
      }
      assert found[..|found|] == found;
      i := i + 1;
    }
  }

  // -------------------------------------------------------- the joined series

  /** A stored bar; the indicator columns are missing until they can be computed. */
  datatype StoredBar = StoredBar(
    ts: int,
    high: real,
    low: real,
    close: real,
    volume: real,
    dif: Option<real>,
    hist: Option<real>,
    atr: Option<real>,
    ma20: Option<real>,
    volumeMa: Option<real>)

  function JoinBar(b: StoredBar): seq<Point> {
    if b.dif.Some? && b.hist.Some?
    then [Point(b.ts, b.high, b.low, b.close, b.volume, b.dif.value, b.hist.value, b.atr, b.ma20, b.volumeMa)]
    else []
  }

  function Join(bars: seq<StoredBar>): seq<Point> {
    if bars == [] then [] else Join(bars[..|bars| - 1]) + JoinBar(bars[|bars| - 1])
  }

  /** `_joined_series`: the last 160 valid bars, in time order, those with a DIF and a histogram. */
  function JoinedSeries(bars: seq<StoredBar>): seq<Point> {
    Join(if |bars| <= WINDOW then bars else bars[|bars| - WINDOW..])
  }

  ghost predicate TimesIncrease(bars: seq<StoredBar>) {
    forall i, j :: 0 <= i < j < |bars| ==> bars[i].ts < bars[j].ts
  }

  ghost predicate Increasing(s: seq<Point>) {
    forall i, j :: 0 <= i < j < |s| ==> s[i].ts < s[j].ts
  }
}
