/** Structure stops, position size and the portfolio limits: app/services/risk.py. */
module Risk {
  import opened Common
  import opened Ledger
  import opened Structures

  datatype RiskConfig = RiskConfig(
    accountEquity: real,
    riskPerTrade: real,
    neutralMultiplier: real,
    scriptBMultiplier: real,
    maxPositions: int,
    maxSymbolPct: real,
    maxIndustryPct: real,
    cooldownDays: int)

  datatype Market = RiskOn | NeutralPositive | NeutralNegative | RiskOff

  predicate Tradeable(m: Market) {
    m.RiskOn? || m.NeutralPositive?
  }

  datatype Script = BottomTrendResume | TopInvalidationContinuation

  /** A structure_events row of one symbol; the index is the id. */
  datatype Structure = Structure(
    kind: EventKind,
    hourly: bool,
    ts: Time,
    pivotLow: Option<real>,
    invalidation: Option<real>,
    parentId: Option<nat>,
    expiresAt: Option<Time>,
    invalidated: bool,
    failed: bool)

  // ------------------------------------------------------- structure stop

  /** `calculate_structure_stop`; `atr` is the hourly ATR at the time of the structure. */
  function StructureStop(st: Structure, atr: Option<real>, entry: real, script: Script): (stop: Option<real>)
    ensures stop.Some? ==> 0.0 < stop.value < entry
  {
    if !st.hourly || entry <= 0.0 || atr.None? || atr.value <= 0.0 then None
    else
      var level :=
        match script
        case BottomTrendResume => if st.kind.BottomStructure? && st.pivotLow.Some? then Some(st.pivotLow.value - atr.value * 0.5) else None
        case TopInvalidationContinuation => if st.kind.TopInvalidated? && st.invalidation.Some? then Some(st.invalidation.value - atr.value * 0.25) else None;
      if level.None? || level.value <= 0.0 || level.value >= entry then None else level
  }

  /** The structure's own level stands a script's share of the ATR above `stop`. */
  predicate SupportsStop(st: Structure, atr: real, script: Script, stop: real) {
    match script
    case BottomTrendResume => st.kind.BottomStructure? && st.pivotLow == Some(stop + atr * 0.5)
    case TopInvalidationContinuation => st.kind.TopInvalidated? && st.invalidation == Some(stop + atr * 0.25)
  }

  /** There is a stop exactly when a positive price below the entry is supported by an hourly structure with a positive ATR. */
  lemma StopIffSupported(st: Structure, atr: Option<real>, entry: real, script: Script, stop: real)
    ensures StructureStop(st, atr, entry, script) == Some(stop) <==>
      st.hourly && atr.Some? && atr.value > 0.0 && 0.0 < stop < entry && SupportsStop(st, atr.value, script, stop)
  {
  }

  // --------------------------------------------------------- position size

  datatype Size = Size(
    entry: real, stop: real, riskPerShare: real, allowedLoss: real, shares: int, value: real, pct: real)

  function Sized(entry: real, stop: real, loss: real, shares: int, equity: real): Size
    requires equity != 0.0
  {
    var value := shares as real * entry;
    Size(entry, stop, entry - stop, loss, shares, value, value / equity)
  }

  function Multiplier(cfg: RiskConfig, market: Market, script: Script): real {
    (if market.NeutralPositive? then cfg.neutralMultiplier else 1.0)
    * (if script.TopInvalidationContinuation? then cfg.scriptBMultiplier else 1.0)
  }

  function AllowedLoss(cfg: RiskConfig, market: Market, script: Script, equity: real): real {
    equity * cfg.riskPerTrade * Multiplier(cfg, market, script)
  }

  /** What a position in one symbol may cost. */
  function MaxValue(cfg: RiskConfig, equity: real): real {
    equity * cfg.maxSymbolPct
  }

  /** `n` shares risk no more than the allowed loss and cost no more than the symbol cap. */
  predicate Affordable(n: int, entry: real, stop: real, loss: real, value: real) {
    n as real * (entry - stop) <= loss && n as real * entry <= value
  }

  /** The inputs `calculate_position_size` refuses outright. */
  predicate Sizeable(entry: real, stop: Option<real>, equity: real) {
    stop.Some? && 0.0 < stop.value < entry && equity > 0.0
  }

  /** `int(limit // per_share)`. */
  function WholeShares(limit: real, perShare: real): int
    requires perShare > 0.0
  {
    (limit / perShare).Floor
  }

  lemma Scaled(a: real, b: real, d: real)
    requires d > 0.0
    ensures a <= b <==> a * d <= b * d
  {
  }

  lemma WholeSharesFit(limit: real, perShare: real, n: int)
    requires perShare > 0.0
    ensures n <= WholeShares(limit, perShare) <==> n as real * perShare <= limit
  {
    var q := limit / perShare;
    assert q * perShare == limit;
    Scaled(n as real, q, perShare);
  }

  /**
   `calculate_position_size`: the largest whole number of shares within both limits, or nothing when
   the inputs are refused or not even one share fits.
   */
  method CalculatePositionSize(cfg: RiskConfig, entry: real, stop: Option<real>, market: Market, script: Script, equity: real)
    returns (size: Option<Size>)
    ensures size == PositionSize(cfg, entry, stop, market, script, equity)
  {
    if stop.None? || entry <= 0.0 || stop.value <= 0.0 || stop.value >= entry {
      return None;
    }
    var riskPerShare := entry - stop.value;
    var multiplier := 1.0;
    if market.NeutralPositive? {
      multiplier := multiplier * cfg.neutralMultiplier;
    }
    if script.TopInvalidationContinuation? {
      multiplier := multiplier * cfg.scriptBMultiplier;
    }
    if equity <= 0.0 {
      return None;
    }
    var allowedLoss := equity * cfg.riskPerTrade * multiplier;
    assert allowedLoss == AllowedLoss(cfg, market, script, equity);
    var maxValue := equity * cfg.maxSymbolPct;
    assert maxValue == MaxValue(cfg, equity);
    hide AllowedLoss, MaxValue, WholeShares;
    var sharesByRisk := WholeShares(allowedLoss, riskPerShare);
    var sharesByCap := WholeShares(maxValue, entry);
    var shares := MaxInt(0, MinInt(sharesByRisk, sharesByCap));
    if shares <= 0 {
      return None;
    }
    assert shares == MinInt(sharesByRisk, sharesByCap);
    size := Some(Sized(entry, stop.value, allowedLoss, shares, equity));
  }

  function PositionSize(cfg: RiskConfig, entry: real, stop: Option<real>, market: Market, script: Script, equity: real): Option<Size> {
    if !Sizeable(entry, stop, equity) then None
    else
      var loss := AllowedLoss(cfg, market, script, equity);
      var shares := MinInt(WholeShares(loss, entry - stop.value), WholeShares(MaxValue(cfg, equity), entry));
      if shares <= 0 then None
      else Some(Sized(entry, stop.value, loss, shares, equity))
  }

  /** What a size is: the greatest number of shares, at least one, that is affordable; and when there is none. */
  lemma SizeIsGreatest(cfg: RiskConfig, entry: real, stop: Option<real>, market: Market, script: Script, equity: real)
    ensures var size, loss, value := PositionSize(cfg, entry, stop, market, script, equity), AllowedLoss(cfg, market, script, equity), MaxValue(cfg, equity);
      match size
      case Some(z) =>
        && Sizeable(entry, stop, equity) && z.entry == entry && z.stop == stop.value && z.allowedLoss == loss && z.shares >= 1
        && forall n: int :: Affordable(n, entry, stop.value, loss, value) <==> n <= z.shares
      case None => !Sizeable(entry, stop, equity) || !Affordable(1, entry, stop.value, loss, value)
  {
    hide AllowedLoss, MaxValue, WholeShares;
    var loss, value := AllowedLoss(cfg, market, script, equity), MaxValue(cfg, equity);
    if Sizeable(entry, stop, equity) {
      var shares := MinInt(WholeShares(loss, entry - stop.value), WholeShares(value, entry));
      forall n: int ensures Affordable(n, entry, stop.value, loss, value) <==> n <= shares {
        WholeSharesFit(loss, entry - stop.value, n);
        WholeSharesFit(value, entry, n);
      }
      hide Affordable;
    }
  }

  // ------------------------------------------------------ portfolio limits

  datatype PosStatus = PosOpen | PosClosed

  /** A positions row as the signal state machine uses it. */
  datatype Holding = Holding(
    symbol: Symbol,
    status: PosStatus,
    entrySignal: Option<nat>,
    entry: real,
    stop: real,
    trailing: Option<real>,
    shares: int,
    currentR: real)

  predicate HoldsOpen(hs: seq<Holding>, s: Symbol) {
    exists i :: 0 <= i < |hs| && hs[i].status.PosOpen? && hs[i].symbol == s
  }

  function CountOpen(hs: seq<Holding>): nat {
    if hs == [] then 0 else CountOpen(hs[..|hs| - 1]) + if hs[|hs| - 1].status.PosOpen? then 1 else 0
  }

  /** The value, at entry prices, of the open positions of one industry. */
  function IndustryValue(hs: seq<Holding>, industry: string, industryOf: Symbol -> string): real {
    if hs == [] then 0.0
    else
      var h := hs[|hs| - 1];
      IndustryValue(hs[..|hs| - 1], industry, industryOf)
      + if h.status.PosOpen? && industryOf(h.symbol) == industry then h.shares as real * h.entry else 0.0
  }

  /** `portfolio_allows_new_position`; an unknown industry is the empty text. */
  predicate PortfolioAllows(hs: seq<Holding>, s: Symbol, cfg: RiskConfig, industryOf: Symbol -> string) {
    && !HoldsOpen(hs, s) && CountOpen(hs) < cfg.maxPositions
    && (industryOf(s) != "" ==>
          cfg.accountEquity != 0.0 && IndustryValue(hs, industryOf(s), industryOf) / cfg.accountEquity < cfg.maxIndustryPct)
  }

  method PortfolioAllowsNewPosition(hs: seq<Holding>, s: Symbol, cfg: RiskConfig, industryOf: Symbol -> string) returns (allowed: bool)
    ensures allowed == PortfolioAllows(hs, s, cfg, industryOf)
  {
    var openCount := 0;
    var sameIndustry := 0.0;
    var held := false;
    for i := 0 to |hs|
      invariant openCount == CountOpen(hs[..i])
      invariant held <==> HoldsOpen(hs[..i], s)
      invariant sameIndustry == IndustryValue(hs[..i], industryOf(s), industryOf)
    {
      assert hs[..i + 1][..i] == hs[..i];
      HoldsOpenSnoc(hs, i, s);
      if hs[i].status.PosOpen? {
        openCount := openCount + 1;
        held := held || hs[i].symbol == s;
        if industryOf(hs[i].symbol) == industryOf(s) {
          sameIndustry := sameIndustry + hs[i].shares as real * hs[i].entry;
        }
      }
    }
    assert hs[..|hs|] == hs;
    if held || openCount >= cfg.maxPositions {
      return false;
    }
    if industryOf(s) != "" {
      if cfg.accountEquity == 0.0 || sameIndustry / cfg.accountEquity >= cfg.maxIndustryPct {
        return false;
      }
    }
    allowed := true;
  }

  lemma HoldsOpenSnoc(hs: seq<Holding>, i: nat, s: Symbol)
    requires i < |hs|
    ensures HoldsOpen(hs[..i + 1], s) <==> HoldsOpen(hs[..i], s) || (hs[i].status.PosOpen? && hs[i].symbol == s)
  {
    var init, next := hs[..i], hs[..i + 1];
    assert next[i] == hs[i] && forall k :: 0 <= k < i ==> next[k] == init[k];
  }
}
