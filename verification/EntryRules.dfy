/** When an advance creates an entry, what it holds, and every other state it leads to, on the fields (state_machine.py, risk.py, entry_trigger.py). */
module EntryRules {
  import opened Common
  import opened Ledger
  import opened Structures
  import opened Risk
  import opened EntryTrigger
  import opened Corrections
  import opened StateMachine
  import opened SignalRules

  // ------------------------------------------------------------ the trigger

  predicate Known(bar: TriggerBar) {
    bar.indicator.Some?
  }

  /** A histogram value over the one before it, both known. */
  predicate HistRises(bars: seq<TriggerBar>, i: int)
    requires 0 < i < |bars|
  {
    Hist(bars[i - 1]).Some? && Hist(bars[i]).Some? && Hist(bars[i]).value > Hist(bars[i - 1]).value
  }

  /** The level the entry is measured from: the invalidation level, unless missing or zero, else the pivot. */
  predicate Guards(st: Structure, level: real) {
    if st.invalidation.Some? && st.invalidation.value != 0.0 then level == st.invalidation.value else st.pivotLow == Some(level)
  }

  /** The last bar closes over the highs of the eight before it, over its MA20, with the histogram rising twice, DIF not falling, enough volume and a near stop. */
  ghost predicate Resumed(bars: seq<TriggerBar>, st: Structure, level: real) {
    var n := |bars| - 1;
    && |bars| >= 9 && (forall i :: n - 8 <= i <= n ==> Known(bars[i]))
    && (forall i :: n - 8 <= i < n ==> bars[i].high <= level) && (exists i :: n - 8 <= i < n && bars[i].high == level)
    && bars[n].close > level
    && HistRises(bars, n) && HistRises(bars, n - 1)
    && var g := bars[n].indicator.value;
    && g.ma20.Some? && g.ma20.value <= bars[n].close
    && g.dif.Some? && bars[n - 1].indicator.value.dif.Some? && g.dif.value >= bars[n - 1].indicator.value.dif.value
    && g.volumeMa20.Some? && bars[n].volume >= g.volumeMa20.value * 0.65
    && g.atr.Some?
    && exists guard :: Guards(st, guard) && guard < bars[n].close && bars[n].close != 0.0
         && (bars[n].close - guard) / bars[n].close <= 0.08 && bars[n].close - guard <= g.atr.value * 4.0
  }

  predicate Live(st: Structure) {
    st.kind.BottomStructure? && st.hourly && !st.invalidated && !st.failed
  }

  /** The latest bar fires the trigger of a live structure that is older than it and not expired. */
  ghost predicate Fires(bars: seq<TriggerBar>, st: Structure, ts: Time, price: real, level: real) {
    && Live(st) && bars != [] && ts == bars[|bars| - 1].ts && price == bars[|bars| - 1].close
    && st.ts < ts && (st.expiresAt.Some? ==> ts <= st.expiresAt.value) && Resumed(bars, st, level)
  }

  lemma ResumedIff(bars: seq<TriggerBar>, st: Structure, level: real)
    requires |bars| >= 9
    ensures TrendResumed(bars, st, level) <==> Resumed(bars, st, level)
  {
    var n := |bars| - 1;
    assert (forall i :: n - HISTOGRAM_BARS + 1 < i <= n ==> EntryTrigger.Rises(bars[i - 1], bars[i])) <==>
      EntryTrigger.Rises(bars[n - 1], bars[n]) && EntryTrigger.Rises(bars[n - 2], bars[n - 1]);
    assert EntryTrigger.Rises(bars[n - 1], bars[n]) <==> HistRises(bars, n);
    assert EntryTrigger.Rises(bars[n - 2], bars[n - 1]) <==> HistRises(bars, n - 1);
    var guard := InvalidationLevel(st);
    if guard.Some? {
      assert Guards(st, guard.value);
    }
    assert forall x :: Guards(st, x) <==> guard == Some(x);
    hide HistRises, EntryTrigger.Rises, InvalidationLevel, Guards;
  }

  /** The trigger fires, and expires its structure, exactly so. */
  lemma TriggerFiresIff(bars: seq<TriggerBar>, st: Structure, ts: Time, price: real, level: real)
    ensures EvaluateTrigger(bars, st) == Fired(ts, price, level) <==> Fires(bars, st, ts, price, level)
    ensures EvaluateTrigger(bars, st).StructureExpired? <==> Live(st) && bars != [] && st.expiresAt.Some? && st.expiresAt.value < bars[|bars| - 1].ts
  {
    hide TrendResumed, Resumed, Breakout, Complete, AllIndicated;
    FiredIffResumes(bars, st, ts, price, level);
    if |bars| >= 9 {
      ResumedIff(bars, st, level);
    } else {
      TooShort(bars, st, level);
    }
  }

  lemma TooShort(bars: seq<TriggerBar>, st: Structure, level: real)
    ensures Resumed(bars, st, level) ==> |bars| >= 9
  {
  }

  // ---------------------------------------------------------------- the size

  /** The loss one trade may make, and what one position may cost. */
  function LossOf(cfg: RiskConfig, market: Market, equity: real): real {
    if market.NeutralPositive? then equity * cfg.riskPerTrade * cfg.neutralMultiplier else equity * cfg.riskPerTrade
  }

  predicate Fits(n: int, entry: real, stop: real, loss: real, cap: real) {
    n as real * (entry - stop) <= loss && n as real * entry <= cap
  }

  /** The greatest number of shares, at least one, that fits the loss and the cap. */
  predicate SizedAt(n: int, entry: real, stop: real, cfg: RiskConfig, market: Market, equity: real) {
    var loss, cap := LossOf(cfg, market, equity), equity * cfg.maxSymbolPct;
    equity > 0.0 && 0.0 < stop < entry && n >= 1 && Fits(n, entry, stop, loss, cap) && !Fits(n + 1, entry, stop, loss, cap)
  }

  /** Half an ATR under the pivot of an hourly bottom structure, between zero and the entry. */
  predicate StopsAt(st: Structure, atr: Option<real>, entry: real, stop: real) {
    st.hourly && st.kind.BottomStructure? && atr.Some? && atr.value > 0.0 && 0.0 < stop < entry
    && st.pivotLow.Some? && stop == st.pivotLow.value - 0.5 * atr.value
  }

  /** The entry: its price, stop, size and source. */
  predicate IsEntry(sig: Signal, s: Symbol, id: nat, ts: Time, price: real, level: real, stop: real, n: int, loss: real, now: Time) {
    && sig.symbol == s && sig.kind.EntrySignal? && sig.status.Pending? && sig.entry == Some(price)
    && sig.stop.Some? && sig.stop.value == stop && sig.shares == Some(n)
    && sig.allowedLoss.Some? && sig.allowedLoss.value == loss && sig.value.Some? && sig.value.value == n as real * price
    && sig.structureId == Some(id) && sig.fromQuarter && sig.triggerTs == Some(ts) && sig.triggerLevel == Some(level) && sig.createdAt == now
  }

  /** No open row of the symbol, fewer open rows than permitted, room in its industry if that is known. */
  ghost predicate HasRoom(hs: seq<Risk.Holding>, s: Symbol, cfg: RiskConfig, industryOf: Symbol -> string) {
    && (forall i :: 0 <= i < |hs| && hs[i].symbol == s ==> !hs[i].status.PosOpen?)
    && |set i | 0 <= i < |hs| && hs[i].status.PosOpen?| < cfg.maxPositions
    && (industryOf(s) != "" ==>
          cfg.accountEquity != 0.0 && exists sums :: Invested(hs, industryOf(s), industryOf, sums) && sums[|hs|] / cfg.accountEquity < cfg.maxIndustryPct)
  }

  /** The running value, at entry prices, of the open rows of an industry. */
  ghost predicate Invested(hs: seq<Risk.Holding>, industry: string, industryOf: Symbol -> string, sums: seq<real>) {
    |sums| == |hs| + 1 && sums[0] == 0.0 && forall i :: 0 <= i < |hs| ==>
      sums[i + 1] == sums[i] + if hs[i].status.PosOpen? && industryOf(hs[i].symbol) == industry then hs[i].shares as real * hs[i].entry else 0.0
  }

  lemma LossIs(cfg: RiskConfig, market: Market, equity: real)
    ensures AllowedLoss(cfg, market, BottomTrendResume, equity) == LossOf(cfg, market, equity)
  {
    var base := equity * cfg.riskPerTrade;
    assert base * (cfg.neutralMultiplier * 1.0) == base * cfg.neutralMultiplier;
  }

  /** The size of the code is the greatest that fits, and there is none exactly when none does. */
  lemma SizeIffFits(cfg: RiskConfig, price: real, stop: real, market: Market, equity: real)
    ensures var size := PositionSize(cfg, price, Some(stop), market, BottomTrendResume, equity);
      && (size.None? ==> forall n :: !SizedAt(n, price, stop, cfg, market, equity))
      && (size.Some? ==> forall n :: SizedAt(n, price, stop, cfg, market, equity) <==> n == size.value.shares)
      && (size.Some? ==>
            && size.value.entry == price && size.value.stop == stop && size.value.allowedLoss == LossOf(cfg, market, equity)
            && size.value.value == size.value.shares as real * price)
  {
    LossIs(cfg, market, equity);
    SizeIsGreatest(cfg, price, Some(stop), market, BottomTrendResume, equity);
    var size, loss, cap := PositionSize(cfg, price, Some(stop), market, BottomTrendResume, equity), LossOf(cfg, market, equity), equity * cfg.maxSymbolPct;
    SizeIsPriced(cfg, price, Some(stop), market, BottomTrendResume, equity);
    hide PositionSize, LossOf, AllowedLoss;
    forall n: int ensures Fits(n, price, stop, loss, cap) <==> Affordable(n, price, stop, loss, MaxValue(cfg, equity)) {
    }
    hide Fits, Affordable;
    if size.None? && Sizeable(price, Some(stop), equity) {
      forall n | SizedAt(n, price, stop, cfg, market, equity) ensures false {
        FitsDown(n, price, stop, loss, cap);
      }
    }
    if size.Some? {
      forall n ensures SizedAt(n, price, stop, cfg, market, equity) <==> n == size.value.shares {
        assert Affordable(n, price, stop, loss, MaxValue(cfg, equity)) <==> n <= size.value.shares;
        assert Affordable(n + 1, price, stop, loss, MaxValue(cfg, equity)) <==> n + 1 <= size.value.shares;
      }
    }
  }

  lemma SizeIsPriced(cfg: RiskConfig, entry: real, stop: Option<real>, market: Market, script: Script, equity: real)
    ensures var size := PositionSize(cfg, entry, stop, market, script, equity);
      size.Some? ==> size.value.value == size.value.shares as real * entry
  {
    hide AllowedLoss, MaxValue, WholeShares;
  }

  /** If more shares fit, one does. */
  lemma FitsDown(n: int, entry: real, stop: real, loss: real, cap: real)
    requires n >= 1 && 0.0 < stop < entry && Fits(n, entry, stop, loss, cap)
    ensures Fits(1, entry, stop, loss, cap)
  {
    assert (n - 1) as real * (entry - stop) >= 0.0 && (n - 1) as real * entry >= 0.0;
  }

  lemma StopIs(st: Structure, atr: Option<real>, entry: real, stop: real)
    ensures StructureStop(st, atr, entry, BottomTrendResume) == Some(stop) <==> StopsAt(st, atr, entry, stop)
  {
    StopIffSupported(st, atr, entry, BottomTrendResume, stop);
  }

  // ------------------------------------------------------------- the room

  lemma {:induction false} OpenHoldingsCounted(hs: seq<Risk.Holding>)
    ensures Risk.CountOpen(hs) == |set i | 0 <= i < |hs| && hs[i].status.PosOpen?|
  {
    var rows := set i | 0 <= i < |hs| && hs[i].status.PosOpen?;
    if hs != [] {
      var n, init := |hs| - 1, hs[..|hs| - 1];
      OpenHoldingsCounted(init);
      var before := set i | 0 <= i < |init| && init[i].status.PosOpen?;
      assert rows == before + if hs[n].status.PosOpen? then {n} else {};
    }
  }

  lemma {:induction false} InvestedAddsUp(hs: seq<Risk.Holding>, industry: string, industryOf: Symbol -> string, sums: seq<real>, n: nat)
    requires Invested(hs, industry, industryOf, sums) && n <= |hs|
    ensures sums[n] == IndustryValue(hs[..n], industry, industryOf)
  {
    if n > 0 {
      InvestedAddsUp(hs, industry, industryOf, sums, n - 1);
      assert hs[..n][..n - 1] == hs[..n - 1];
    }
  }

  lemma RunningValue(hs: seq<Risk.Holding>, industry: string, industryOf: Symbol -> string) returns (sums: seq<real>)
    ensures Invested(hs, industry, industryOf, sums)
  {
    sums := seq(|hs| + 1, i requires 0 <= i <= |hs| => IndustryValue(hs[..i], industry, industryOf));
    forall i | 0 <= i < |hs|
      ensures sums[i + 1] == sums[i] + if hs[i].status.PosOpen? && industryOf(hs[i].symbol) == industry then hs[i].shares as real * hs[i].entry else 0.0
    {
      assert hs[..i + 1][..i] == hs[..i];
    }
  }

  lemma RoomIff(hs: seq<Risk.Holding>, s: Symbol, cfg: RiskConfig, industryOf: Symbol -> string)
    ensures PortfolioAllows(hs, s, cfg, industryOf) <==> HasRoom(hs, s, cfg, industryOf)
  {
    OpenHoldingsCounted(hs);
    var sums := RunningValue(hs, industryOf(s), industryOf);
    forall sums | Invested(hs, industryOf(s), industryOf, sums) ensures sums[|hs|] == IndustryValue(hs, industryOf(s), industryOf) {
      InvestedAddsUp(hs, industryOf(s), industryOf, sums, |hs|);
      assert hs[..|hs|] == hs;
    }
    hide Invested, Risk.CountOpen, IndustryValue;
    assert Invested(hs, industryOf(s), industryOf, sums);
  }

  // ------------------------------------------------------------ the outcomes

  /** Nothing but the symbol's record changes, to this state and cooldown. */
  predicate Becomes(d: Desk, r: Desk, s: Symbol, state: DeskState, until: Option<int>) {
    && r.signals == d.signals && r.holdings == d.holdings && r.records == d.records[s := Record(state, until)]
  }

  predicate Turns(d: Desk, r: Desk, s: Symbol, state: DeskState) {
    Becomes(d, r, s, state, if s in d.records then d.records[s].cooldownUntil else None)
  }

  /** The newest hourly structure of one of the kinds: none is later, and of the same time none comes after it. */
  predicate Newest(ss: seq<Structure>, kinds: set<EventKind>, i: int) {
    && 0 <= i < |ss| && ss[i].hourly && ss[i].kind in kinds
    && forall j :: 0 <= j < |ss| && ss[j].hourly && ss[j].kind in kinds ==> ss[j].ts < ss[i].ts || (ss[j].ts == ss[i].ts && j <= i)
  }

  lemma NewestStep(ss: seq<Structure>, kinds: set<EventKind>, i: int)
    requires ss != [] && 0 <= i < |ss| - 1
    ensures var n := |ss| - 1;
      Newest(ss, kinds, i) <==> Newest(ss[..n], kinds, i) && (ss[n].hourly && ss[n].kind in kinds ==> ss[n].ts < ss[i].ts)
  {
    var n := |ss| - 1;
    assert forall j :: 0 <= j < n ==> ss[..n][j] == ss[j];
  }

  lemma {:induction false} LatestIsNewest(ss: seq<Structure>, kinds: set<EventKind>)
    ensures forall i :: Newest(ss, kinds, i) <==> i >= 0 && LatestOf(ss, kinds) == Some(i)
  {
    if ss != [] {
      var n := |ss| - 1;
      LatestIsNewest(ss[..n], kinds);
      forall i | 0 <= i < n
        ensures Newest(ss, kinds, i) <==> Newest(ss[..n], kinds, i) && (ss[n].hourly && ss[n].kind in kinds ==> ss[n].ts < ss[i].ts)
      {
        NewestStep(ss, kinds, i);
      }
      var best := LatestOf(ss[..n], kinds);
      assert best.Some? ==> Newest(ss[..n], kinds, best.value);
      assert Newest(ss, kinds, n) <==> ss[n].hourly && ss[n].kind in kinds && (best.None? || ss[best.value].ts <= ss[n].ts) by {
        assert forall j :: 0 <= j < n ==> ss[..n][j] == ss[j];
      }
    }
  }

  /** There is a stop for the entry, and a size. */
  predicate Takes(st: Structure, atr: Option<real>, price: real, market: Market, equity: real, cfg: RiskConfig, stop: real, n: int) {
    StopsAt(st, atr, price, stop) && SizedAt(n, price, stop, cfg, market, equity)
  }

  /** What a fired trigger leads to: an entry if there is room, a stop and a size for it. */
  ghost predicate Creates(d: Desk, s: Symbol, market: Market, id: nat, ts: Time, price: real, level: real, v: View, cfg: RiskConfig, r: Desk)
    requires id < |v.structures|
  {
    var atr := v.hourlyAtr(v.structures[id].ts);
    if exists i :: 0 <= i < |d.signals| && IsPending(d.signals[i], s, EntrySignal) then Turns(d, r, s, EntryCandidate)
    else if !HasRoom(d.holdings, s, cfg, v.industryOf) then Turns(d, r, s, TrendOk)
    else if exists stop, n :: Takes(v.structures[id], atr, price, market, v.equity, cfg, stop, n) then
      && |r.signals| == |d.signals| + 1
      && (exists stop, n :: Takes(v.structures[id], atr, price, market, v.equity, cfg, stop, n)
            && IsEntry(r.signals[|d.signals|], s, id, ts, price, level, stop, n, LossOf(cfg, market, v.equity), v.now))
      && Turns(d.(signals := r.signals), r, s, EntryCandidate) && r.signals[..|d.signals|] == d.signals
    else Turns(d, r, s, WaitTrigger)
  }

  lemma CreatesByRule(d: Desk, s: Symbol, market: Market, id: nat, fired: Trigger, v: View, cfg: RiskConfig)
    requires id < |v.structures| && fired.Fired?
    ensures Creates(d, s, market, id, fired.ts, fired.price, fired.level, v, cfg, CreateEntry(d, s, market, id, fired, v, cfg))
  {
    hide HasRoom, PortfolioAllows, StructureStop, PositionSize, StopsAt, SizedAt, LossOf;
    RoomIff(d.holdings, s, cfg, v.industryOf);
    var st := v.structures[id];
    var atr, price := v.hourlyAtr(st.ts), fired.price;
    var stop := StructureStop(st, atr, price, BottomTrendResume);
    forall x ensures stop == Some(x) <==> StopsAt(st, atr, price, x) {
      StopIs(st, atr, price, x);
    }
    if stop.Some? {
      SizeIffFits(cfg, price, stop.value, market, v.equity);
      var size := PositionSize(cfg, price, stop, market, BottomTrendResume, v.equity);
      if size.Some? {
        assert Takes(st, atr, price, market, v.equity, cfg, stop.value, size.value.shares);
        assert IsEntry(EntryOf(s, size.value, id, fired, v.now), s, id, fired.ts, price, fired.level, stop.value, size.value.shares,
                       LossOf(cfg, market, v.equity), v.now);
      }
    }
  }
}
