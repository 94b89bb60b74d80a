/** What every run of advances, approvals and rejections keeps. */
module SignalTheorems {
  import opened Common
  import opened Ledger
  import opened Structures
  import opened Risk
  import opened EntryTrigger
  import opened Corrections
  import opened StateMachine

  // ---------------------------------------------------------- the invariant

  ghost predicate OnePending(signals: seq<Signal>) {
    forall i, j :: 0 <= i < j < |signals| && signals[i].status.Pending? && signals[j].status.Pending? ==>
      signals[i].symbol != signals[j].symbol || signals[i].kind != signals[j].kind
  }

  ghost predicate OneRow(hs: seq<Holding>) {
    forall i, j :: 0 <= i < j < |hs| ==> hs[i].symbol != hs[j].symbol
  }

  /** Something is going on in the symbol: an entry waits for a decision, or a position is open. */
  predicate Engaged(d: Desk, s: Symbol) {
    PendingExists(d.signals, s, EntrySignal) || HoldsOpen(d.holdings, s)
  }

  /** Never both, and never in a cooldown. */
  predicate SymbolIsSane(d: Desk, s: Symbol, today: int) {
    && !(PendingExists(d.signals, s, EntrySignal) && HoldsOpen(d.holdings, s))
    && (Engaged(d, s) ==> !StillCooling(d, s, today))
  }

  /**
   At most one PENDING signal of a kind and one positions row for each symbol; no symbol has both a
   pending entry and an open position, and none that has either is cooling down.
   */
  ghost predicate Sane(d: Desk, today: int) {
    OnePending(d.signals) && OneRow(d.holdings) && forall s :: SymbolIsSane(d, s, today)
  }

  lemma LaterStaysSane(d: Desk, today: int, later: int)
    requires Sane(d, today) && today <= later
    ensures Sane(d, later)
  {
    forall s ensures SymbolIsSane(d, s, later) {
      assert SymbolIsSane(d, s, today);
    }
  }

  // ------------------------------------------------------ the small changes

  lemma StateChangeKeeps(d: Desk, s: Symbol, state: DeskState, today: int)
    requires Sane(d, today)
    ensures Sane(InState(d, s, state), today)
  {
    forall t ensures SymbolIsSane(InState(d, s, state), t, today) {
      assert SymbolIsSane(d, t, today);
    }
  }

  lemma CooldownKeeps(d: Desk, s: Symbol, until: int, today: int)
    requires Sane(d, today) && !Engaged(d, s)
    ensures Sane(InCooldown(d, s, until), today)
  {
    forall t ensures SymbolIsSane(InCooldown(d, s, until), t, today) {
      assert SymbolIsSane(d, t, today);
    }
  }

  lemma PendingAfterAppend(signals: seq<Signal>, sig: Signal, s: Symbol, kind: SignalKind)
    ensures PendingExists(signals + [sig], s, kind) <==> PendingExists(signals, s, kind) || IsPending(sig, s, kind)
  {
    var r := signals + [sig];
    assert r[|signals|] == sig;
    if PendingExists(signals, s, kind) {
      var i :| 0 <= i < |signals| && IsPending(signals[i], s, kind);
      assert r[i] == signals[i];
    }
  }

  lemma AppendKeeps(d: Desk, sig: Signal, today: int)
    requires Sane(d, today) && !PendingExists(d.signals, sig.symbol, sig.kind)
    requires sig.kind.EntrySignal? ==> !HoldsOpen(d.holdings, sig.symbol) && !StillCooling(d, sig.symbol, today)
    ensures Sane(d.(signals := d.signals + [sig]), today)
  {
    forall s ensures SymbolIsSane(d.(signals := d.signals + [sig]), s, today) {
      PendingAfterAppend(d.signals, sig, s, EntrySignal);
      assert SymbolIsSane(d, s, today);
      hide PendingExists, HoldsOpen, StillCooling;
    }
  }

  /** Deciding or cancelling a pending signal removes it from the pending ones, and adds none. */
  lemma PendingAfterStatus(signals: seq<Signal>, id: nat, status: SignalStatus, s: Symbol, kind: SignalKind)
    requires id < |signals| && !status.Pending?
    ensures var r := signals[id := signals[id].(status := status)];
      && (PendingExists(r, s, kind) ==> PendingExists(signals, s, kind))
      && (OnePending(signals) ==> OnePending(r))
      && (OnePending(signals) && IsPending(signals[id], s, kind) ==> !PendingExists(r, s, kind))
  {
    var r := signals[id := signals[id].(status := status)];
    if PendingExists(r, s, kind) {
      var i :| 0 <= i < |r| && IsPending(r[i], s, kind);
      assert IsPending(signals[i], s, kind) && i != id;
    }
  }

  lemma StatusKeeps(d: Desk, id: nat, status: SignalStatus, today: int)
    requires Sane(d, today) && id < |d.signals| && !status.Pending?
    ensures Sane(WithStatus(d, id, status), today)
  {
    PendingAfterStatus(d.signals, id, status, "", EntrySignal);
    forall s ensures SymbolIsSane(WithStatus(d, id, status), s, today) {
      PendingAfterStatus(d.signals, id, status, s, EntrySignal);
      assert SymbolIsSane(d, s, today);
      hide PendingExists, HoldsOpen, StillCooling;
    }
  }

  /** Rewriting a row under its symbol, without opening it. */
  lemma HoldingKeeps(d: Desk, k: nat, h: Holding, today: int)
    requires Sane(d, today) && k < |d.holdings|
    requires h.symbol == d.holdings[k].symbol && (h.status.PosOpen? ==> d.holdings[k].status.PosOpen?)
    ensures Sane(d.(holdings := d.holdings[k := h]), today)
    ensures h.status.PosClosed? ==> !HoldsOpen(d.holdings[k := h], h.symbol)
  {
    var r := d.(holdings := d.holdings[k := h]);
    forall s ensures SymbolIsSane(r, s, today) {
      assert SymbolIsSane(d, s, today);
      hide PendingExists, HoldsOpen, StillCooling;
    }
  }

  lemma OpenAfterAppend(hs: seq<Holding>, h: Holding, s: Symbol)
    ensures HoldsOpen(hs + [h], s) <==> HoldsOpen(hs, s) || (h.status.PosOpen? && h.symbol == s)
  {
    assert (hs + [h])[..|hs|] == hs && (hs + [h])[..|hs| + 1] == hs + [h];
    HoldsOpenSnoc(hs + [h], |hs|, s);
  }

  // --------------------------------------------------------- the operations

  lemma ReconcileKeeps(d: Desk, s: Symbol, market: Market, today: int, v: View)
    requires Sane(d, today)
    ensures var r := ReconcilePending(d.signals, s, market, v);
      && Sane(d.(signals := r.signals), today)
      && (r.correction.Some? ==> !Engaged(d.(signals := r.signals), s))
  {
    hide CorrectionOf, OnePending, StillCooling, HoldsOpen;
    var at := NewestPending(d.signals, s);
    var r := ReconcilePending(d.signals, s, market, v);
    if r.correction.Some? {
      CorrectionIsFinal(d.signals[at.value], market, v);
      StatusKeeps(d, at.value, r.correction.value.status, today);
      PendingAfterStatus(d.signals, at.value, r.correction.value.status, s, EntrySignal);
      assert IsPending(d.signals[at.value], s, EntrySignal);
      assert SymbolIsSane(d, s, today);
    }
  }

  lemma CorrectionIsFinal(sig: Signal, market: Market, v: View)
    ensures CorrectionOf(sig, market, v).Some? ==> !CorrectionOf(sig, market, v).value.status.Pending?
  {
  }

  lemma WithSignalKeeps(d: Desk, sig: Signal, today: int)
    requires Sane(d, today) && !sig.kind.EntrySignal?
    ensures Sane(WithSignal(d, sig), today)
  {
    if !PendingExists(d.signals, sig.symbol, sig.kind) {
      AppendKeeps(d, sig, today);
    }
  }

  lemma WithExitKeeps(d: Desk, h: Holding, now: Time, today: int)
    requires Sane(d, today)
    ensures Sane(WithExit(d, h, now), today)
  {
    hide Sane, InState, WithSignal;
    WithSignalKeeps(d, ExitOf(h, now), today);
    StateChangeKeeps(WithSignal(d, ExitOf(h, now)), h.symbol, ExitCandidate, today);
  }

  lemma ManageKeeps(d: Desk, k: nat, bar: DailyBar, market: Market, v: View, today: int)
    requires Sane(d, today) && k < |d.holdings|
    ensures Sane(ManageHolding(d, k, bar, market, v), today)
  {
    var h := d.holdings[k].(currentR := CurrentR(d.holdings[k], bar.close));
    var raised := h.(trailing := Some(MaxReal(EffectiveStop(h), h.entry)));
    var q := TrailedHolding(h, bar.close, bar.atr, h.currentR, market);
    HoldingKeeps(d, k, h, today);
    HoldingKeeps(d, k, raised, today);
    HoldingKeeps(d, k, q, today);
    var d1, dRaised, dq := d.(holdings := d.holdings[k := h]), d.(holdings := d.holdings[k := raised]), d.(holdings := d.holdings[k := q]);
    hide Sane, TriggerFailure, TrailedHolding, CurrentR, WithSignal, InState, EffectiveStop, LatestOf, WithExit;
    WithExitKeeps(d1, h, v.now, today);
    WithExitKeeps(dq, q, v.now, today);
    WithSignalKeeps(d1, ReduceOf(h, v.now), today);
    StateChangeKeeps(WithSignal(d1, ReduceOf(h, v.now)), h.symbol, RiskProtection, today);
    StateChangeKeeps(d1, h.symbol, RiskProtection, today);
    StateChangeKeeps(dRaised, h.symbol, RiskProtection, today);
    StateChangeKeeps(dq, h.symbol, DeskState.InPosition, today);
  }

  lemma CreateKeeps(d: Desk, s: Symbol, market: Market, id: nat, fired: Trigger, v: View, cfg: RiskConfig, today: int)
    requires id < |v.structures| && fired.Fired? && Sane(d, today) && !StillCooling(d, s, today)
    ensures Sane(CreateEntry(d, s, market, id, fired, v, cfg), today)
  {
    hide Sane, InState, StructureStop, PositionSize, PendingExists, CountOpen, IndustryValue;
    StateChangeKeeps(d, s, EntryCandidate, today);
    StateChangeKeeps(d, s, TrendOk, today);
    StateChangeKeeps(d, s, WaitTrigger, today);
    var r := CreateEntry(d, s, market, id, fired, v, cfg);
    if !PendingExists(d.signals, s, EntrySignal) && PortfolioAllows(d.holdings, s, cfg, v.industryOf) {
      var st := v.structures[id];
      var stop := StructureStop(st, v.hourlyAtr(st.ts), fired.price, BottomTrendResume);
      var size := PositionSize(cfg, fired.price, stop, market, BottomTrendResume, v.equity);
      if stop.Some? && size.Some? {
        var sig := EntryOf(s, size.value, id, fired, v.now);
        AppendKeeps(d, sig, today);
        StateChangeKeeps(d.(signals := d.signals + [sig]), s, EntryCandidate, today);
      }
    }
  }

  lemma LookKeeps(d: Desk, s: Symbol, market: Market, today: int, v: View, cfg: RiskConfig)
    requires Sane(d, today) && !StillCooling(d, s, today) && !Engaged(d, s)
    ensures Sane(LookForEntry(d, s, market, today, v, cfg), today)
  {
    hide Sane, InState, InCooldown, CreateEntry, EvaluateTrigger, LatestOf, StillCooling, Engaged;
    CooldownKeeps(d, s, today + cfg.cooldownDays, today);
    StateChangeKeeps(d, s, TrendOk, today);
    StateChangeKeeps(d, s, WatchBottom, today);
    StateChangeKeeps(d, s, WaitTrigger, today);
    var bottom := LatestOf(v.structures, {BottomStructure});
    if bottom.Some? {
      var fired := EvaluateTrigger(v.bars, v.structures[bottom.value]);
      if fired.Fired? {
        CreateKeeps(d, s, market, bottom.value, fired, v, cfg, today);
      }
    }
  }

  lemma AdvanceKeeps(d: Desk, s: Symbol, market: Market, trend: Trend, today: int, v: View, cfg: RiskConfig)
    requires Sane(d, today)
    ensures Sane(AdvanceSymbol(d, s, market, trend, today, v, cfg), today)
  {
    var r := ReconcilePending(d.signals, s, market, v);
    var d1 := d.(signals := r.signals);
    ReconcileKeeps(d, s, market, today, v);
    hide Sane, InState, InCooldown, ReconcilePending, AdvanceUncorrected;
    if r.correction.Some? {
      if r.correction.value.startCooldown {
        CooldownKeeps(d1, s, today + cfg.cooldownDays, today);
      } else {
        StateChangeKeeps(d1, s, r.correction.value.target, today);
      }
    } else {
      UncorrectedKeeps(d, s, market, trend, today, v, cfg);
    }
  }

  lemma UncorrectedKeeps(d: Desk, s: Symbol, market: Market, trend: Trend, today: int, v: View, cfg: RiskConfig)
    requires Sane(d, today)
    ensures Sane(AdvanceUncorrected(d, s, market, trend, today, v, cfg), today)
  {
    hide Sane, InState, InCooldown, ManageHolding, LookForEntry, StillCooling;
    StateChangeKeeps(d, s, Cooldown, today);
    StateChangeKeeps(d, s, Idle, today);
    StateChangeKeeps(d, s, EntryCandidate, today);
    var held := OpenHolding(d.holdings, s);
    if held.Some? && v.daily.Some? {
      ManageKeeps(d, held.value, v.daily.value, market, v, today);
    }
    if held.None? && !StillCooling(d, s, today) && !PendingExists(d.signals, s, EntrySignal) {
      LookKeeps(d, s, market, today, v, cfg);
    }
  }

  lemma ApproveEntryKeeps(d: Desk, id: nat, market: Option<Market>, v: View, today: int)
    requires Sane(d, today) && id < |d.signals| && d.signals[id].status.Pending? && d.signals[id].kind.EntrySignal?
    ensures Sane(ApproveEntry(d, id, market, v).desk, today)
  {
    var sig := d.signals[id];
    ReconcileKeeps(d, sig.symbol, if market.Some? then market.value else RiskOn, today, v);
    hide ReconcilePending;
    var r := ApproveEntry(d, id, market, v);
    if r.refusal.None? {
      OpeningKeeps(d, id, HoldingOf(sig, id), today);
    }
  }

  /** A decided entry becomes an open position. */
  lemma OpeningKeeps(d: Desk, id: nat, h: Holding, today: int)
    requires Sane(d, today) && id < |d.signals| && IsPending(d.signals[id], h.symbol, EntrySignal) && !HasRow(d.holdings, h.symbol)
    ensures Sane(WithStatus(SetState(d.(holdings := d.holdings + [h]), h.symbol, DeskState.InPosition), id, SignalApproved), today)
  {
    var r := WithStatus(SetState(d.(holdings := d.holdings + [h]), h.symbol, DeskState.InPosition), id, SignalApproved);
    PendingAfterStatus(d.signals, id, SignalApproved, h.symbol, EntrySignal);
    forall s ensures SymbolIsSane(r, s, today) {
      PendingAfterStatus(d.signals, id, SignalApproved, s, EntrySignal);
      OpenAfterAppend(d.holdings, h, s);
      assert SymbolIsSane(d, s, today);
      assert StillCooling(r, s, today) <==> StillCooling(d, s, today);
      assert IsPending(d.signals[id], h.symbol, EntrySignal);
      hide HoldsOpen, StillCooling, OnePending;
    }
  }

  lemma ClosingKeeps(d: Desk, k: nat, h: Holding, until: int, today: int)
    requires Sane(d, today) && k < |d.holdings| && d.holdings[k].status.PosOpen?
    requires h.symbol == d.holdings[k].symbol && h.status.PosClosed?
    ensures Sane(StartCooldown(d.(holdings := d.holdings[k := h]), h.symbol, until), today)
  {
    var d1 := d.(holdings := d.holdings[k := h]);
    HoldingKeeps(d, k, h, today);
    assert HoldsOpen(d.holdings, h.symbol);
    assert SymbolIsSane(d, h.symbol, today);
    assert !Engaged(d1, h.symbol);
    hide Sane, Engaged;
    if h.symbol in d1.records {
      CooldownKeeps(d1, h.symbol, until, today);
    }
  }

  lemma ApproveKeeps(d: Desk, id: nat, market: Option<Market>, today: int, v: View, cfg: RiskConfig)
    requires Sane(d, today)
    ensures Sane(Approve(d, id, market, today, v, cfg).desk, today)
  {
    hide Sane, StillCooling, ReconcilePending, ApproveEntry, InState, InCooldown, StartCooldown, SetState;
    if id < |d.signals| && d.signals[id].status.Pending? {
      var sig, until := d.signals[id], today + cfg.cooldownDays;
      var at := OpenHolding(d.holdings, sig.symbol);
      match sig.kind
      case EntrySignal =>
        ApproveEntryKeeps(d, id, market, v, today);
      case ReduceSignal =>
        ApproveReduceKeeps(d, id, until, today);
        StatusKeeps(ApproveReduce(d, id, until), id, SignalApproved, today);
      case ExitSignal =>
        if at.Some? {
          ClosingKeeps(d, at.value, d.holdings[at.value].(status := PosClosed), until, today);
        }
        StatusKeeps(ApproveExit(d, id, until), id, SignalApproved, today);
    }
  }

  lemma ApproveReduceKeeps(d: Desk, id: nat, until: int, today: int)
    requires Sane(d, today) && id < |d.signals|
    ensures Sane(ApproveReduce(d, id, until), today)
  {
    var sig := d.signals[id];
    var at := OpenHolding(d.holdings, sig.symbol);
    hide Sane, InState, StartCooldown;
    if at.Some? && sig.shares.Some? {
      var h := d.holdings[at.value];
      var left := MaxInt(0, h.shares - sig.shares.value);
      ClosingKeeps(d, at.value, h.(shares := 0, status := PosClosed), until, today);
      HoldingKeeps(d, at.value, h.(shares := left), today);
      StateChangeKeeps(d.(holdings := d.holdings[at.value := h.(shares := left)]), sig.symbol, DeskState.InPosition, today);
    }
  }

  lemma NextKeeps(d: Desk, step: Step, cfg: RiskConfig)
    requires Sane(d, step.today)
    ensures Sane(Next(d, step, cfg), step.today)
  {
    hide Sane, AdvanceSymbol, Approve, WithStatus;
    match step
    case AdvanceStep(s, market, trend, today, v) => AdvanceKeeps(d, s, market, trend, today, v, cfg);
    case ApproveStep(id, market, today, v) => ApproveKeeps(d, id, market, today, v, cfg);
    case RejectStep(id, today) =>
      if id < |d.signals| {
        StatusKeeps(d, id, SignalRejected, today);
      }
  }

  /** The days of a run never run backwards. */
  ghost predicate DaysPass(steps: seq<Step>, first: int) {
    && (forall i :: 0 <= i < |steps| ==> first <= steps[i].today)
    && forall i, j :: 0 <= i < j < |steps| ==> steps[i].today <= steps[j].today
  }

  function LastDay(steps: seq<Step>, first: int): int {
    if steps == [] then first else steps[|steps| - 1].today
  }

  /** Every run keeps the invariant, whatever the market tables say at each step. */
  lemma {:induction false} RunKeepsSane(d: Desk, steps: seq<Step>, cfg: RiskConfig, first: int)
    requires Sane(d, first) && DaysPass(steps, first)
    ensures Sane(RunDesk(d, steps, cfg), LastDay(steps, first))
  {
    hide Sane, Next;
    if steps != [] {
      var init, step := steps[..|steps| - 1], steps[|steps| - 1];
      RunKeepsSane(d, init, cfg, first);
      LaterStaysSane(RunDesk(d, init, cfg), LastDay(init, first), step.today);
      NextKeeps(RunDesk(d, init, cfg), step, cfg);
    }
  }

  const EMPTY_DESK := Desk([], [], map[])

  lemma EmptyDeskIsSane(today: int)
    ensures Sane(EMPTY_DESK, today)
  {
    forall s ensures SymbolIsSane(EMPTY_DESK, s, today) {
    }
  }

  // ----------------------------------------------------- every entry signal

  /** What holds at the moment an entry signal is created. */
  ghost predicate CreatedSoundly(d: Desk, s: Symbol, market: Market, trend: Trend, today: int, v: View, cfg: RiskConfig, sig: Signal) {
    && EntryWasAllowed(d, s, market, trend, today, v, cfg)
    && IsPending(sig, s, EntrySignal) && sig.fromQuarter && sig.entry.Some? && sig.stop.Some? && sig.shares.Some?
    && sig.allowedLoss.Some? && sig.triggerTs.Some? && sig.triggerLevel.Some? && sig.structureId.Some?
    && RestsOnStructure(v, sig.structureId.value, sig.triggerTs.value, sig.entry.value, sig.triggerLevel.value)
    && SizedSoundly(cfg, market, v.equity, sig.entry.value, sig.stop.value, sig.shares.value, sig.allowedLoss.value)
  }

  /** A tradeable market and trend, no cooldown, nothing open or pending, room in the portfolio. */
  predicate EntryWasAllowed(d: Desk, s: Symbol, market: Market, trend: Trend, today: int, v: View, cfg: RiskConfig) {
    && Tradeable(market) && !trend.OtherTrend? && !StillCooling(d, s, today) && !Engaged(d, s)
    && PortfolioAllows(d.holdings, s, cfg, v.industryOf)
  }

  /** The newest bottom structure, live and not failed since, resumed by a strictly later bar. */
  ghost predicate RestsOnStructure(v: View, id: nat, ts: Time, price: real, level: real) {
    && id < |v.structures| && Resumes(v.bars, v.structures[id], ts, price, level) && v.structures[id].ts < ts
    && forall i :: 0 <= i < |v.structures| && v.structures[i].hourly ==>
      (v.structures[i].kind.BottomStructure? ==> v.structures[i].ts <= v.structures[id].ts)
      && (v.structures[i].kind.BottomFailed? ==> v.structures[i].ts < v.structures[id].ts)
  }

  /** A stop below the entry, and the greatest whole number of shares, at least one, within both limits. */
  ghost predicate SizedSoundly(cfg: RiskConfig, market: Market, equity: real, entry: real, stop: real, shares: int, loss: real) {
    && 0.0 < stop < entry && shares >= 1 && equity > 0.0
    && loss == AllowedLoss(cfg, market, BottomTrendResume, equity)
    && forall n: int :: Affordable(n, entry, stop, loss, MaxValue(cfg, equity)) <==> n <= shares
  }

  /** Same signal but for its status, which is all that later steps change. */
  predicate SameButStatus(a: Signal, b: Signal) {
    b == a.(status := b.status)
  }

  ghost predicate SignalsKept(before: seq<Signal>, after: seq<Signal>) {
    |before| <= |after| && forall i :: 0 <= i < |before| ==> SameButStatus(before[i], after[i])
  }

  /** The signals a step leaves: the old ones, and at most one more, which is sound if it is an entry. */
  ghost predicate AddsSoundly(d: Desk, s: Symbol, market: Market, trend: Trend, today: int, v: View, cfg: RiskConfig, after: seq<Signal>) {
    && SignalsKept(d.signals, after) && |after| <= |d.signals| + 1
    && (|after| > |d.signals| && after[|d.signals|].kind.EntrySignal? ==>
          CreatedSoundly(d, s, market, trend, today, v, cfg, after[|d.signals|]))
  }

  lemma NothingAdded(d: Desk, s: Symbol, market: Market, trend: Trend, today: int, v: View, cfg: RiskConfig, after: seq<Signal>)
    requires SignalsKept(d.signals, after) && |after| == |d.signals|
    ensures AddsSoundly(d, s, market, trend, today, v, cfg, after)
  {
    hide CreatedSoundly;
  }

  lemma SignalsStay(signals: seq<Signal>)
    ensures SignalsKept(signals, signals)
  {
  }

  lemma ReconcileKeepsSignals(signals: seq<Signal>, s: Symbol, market: Market, v: View)
    ensures SignalsKept(signals, ReconcilePending(signals, s, market, v).signals)
  {
    hide CorrectionOf;
  }

  lemma StatusKeepsSignals(d: Desk, id: nat, status: SignalStatus)
    requires id < |d.signals|
    ensures SignalsKept(d.signals, WithStatus(d, id, status).signals)
  {
  }

  lemma ManageAddsNoEntry(d: Desk, k: nat, bar: DailyBar, market: Market, v: View)
    requires k < |d.holdings|
    ensures var r := ManageHolding(d, k, bar, market, v).signals;
      d.signals <= r && |r| <= |d.signals| + 1 && (|r| > |d.signals| ==> !r[|d.signals|].kind.EntrySignal?)
  {
    hide InState, TriggerFailure, TrailedHolding, CurrentR, EffectiveStop, LatestOf, PendingExists;
  }

  lemma CreatedIsSized(cfg: RiskConfig, price: real, st: Structure, atr: Option<real>, market: Market, equity: real)
    ensures var stop := StructureStop(st, atr, price, BottomTrendResume);
      var size := PositionSize(cfg, price, stop, market, BottomTrendResume, equity);
      size.Some? ==> SizedSoundly(cfg, market, equity, size.value.entry, size.value.stop, size.value.shares, size.value.allowedLoss) && size.value.entry == price
  {
    hide StructureStop, AllowedLoss, MaxValue, Affordable;
    SizeIsGreatest(cfg, price, StructureStop(st, atr, price, BottomTrendResume), market, BottomTrendResume, equity);
  }

  lemma CreateAddsSoundly(d: Desk, s: Symbol, market: Market, trend: Trend, today: int, v: View, cfg: RiskConfig, id: nat, fired: Trigger)
    requires Tradeable(market) && !trend.OtherTrend? && !StillCooling(d, s, today) && !HoldsOpen(d.holdings, s)
    requires fired.Fired? && id < |v.structures| && RestsOnStructure(v, id, fired.ts, fired.price, fired.level)
    ensures AddsSoundly(d, s, market, trend, today, v, cfg, CreateEntry(d, s, market, id, fired, v, cfg).signals)
  {
    hide InState, StillCooling, HoldsOpen, PendingExists, PortfolioAllows, RestsOnStructure, SizedSoundly, StructureStop, PositionSize;
    SignalsStay(d.signals);
    NothingAdded(d, s, market, trend, today, v, cfg, d.signals);
    var st := v.structures[id];
    CreatedIsSized(cfg, fired.price, st, v.hourlyAtr(st.ts), market, v.equity);
  }

  lemma LookAddsSoundly(d: Desk, s: Symbol, market: Market, trend: Trend, today: int, v: View, cfg: RiskConfig)
    requires Tradeable(market) && !trend.OtherTrend? && !StillCooling(d, s, today) && !HoldsOpen(d.holdings, s)
    ensures AddsSoundly(d, s, market, trend, today, v, cfg, LookForEntry(d, s, market, today, v, cfg).signals)
  {
    var bottom := LatestOf(v.structures, {BottomStructure});
    var failure := LatestOf(v.structures, {BottomFailed});
    SignalsStay(d.signals);
    NothingAdded(d, s, market, trend, today, v, cfg, d.signals);
    hide InState, InCooldown, StillCooling, HoldsOpen, AddsSoundly, CreateEntry, EvaluateTrigger, Resumes;
    if bottom.Some? {
      var fired := EvaluateTrigger(v.bars, v.structures[bottom.value]);
      if fired.Fired? && !(failure.Some? && v.structures[failure.value].ts >= v.structures[bottom.value].ts) {
        FiredIffResumes(v.bars, v.structures[bottom.value], fired.ts, fired.price, fired.level);
        ResumesLater(v.bars, v.structures[bottom.value], fired.ts, fired.price, fired.level);
        CreateAddsSoundly(d, s, market, trend, today, v, cfg, bottom.value, fired);
      }
    }
  }

  lemma ResumesLater(bars: seq<TriggerBar>, st: Structure, ts: Time, price: real, level: real)
    requires Resumes(bars, st, ts, price, level)
    ensures st.ts < ts
  {
  }

  lemma ManageAddsSoundly(d: Desk, s: Symbol, market: Market, trend: Trend, today: int, v: View, cfg: RiskConfig, k: nat, bar: DailyBar)
    requires k < |d.holdings|
    ensures AddsSoundly(d, s, market, trend, today, v, cfg, ManageHolding(d, k, bar, market, v).signals)
  {
    hide CreatedSoundly, ManageHolding;
    ManageAddsNoEntry(d, k, bar, market, v);
  }

  /** An advance keeps every signal, adds at most one, and adds an entry only when all the rules allow it. */
  lemma AdvanceAddsSoundly(d: Desk, s: Symbol, market: Market, trend: Trend, today: int, v: View, cfg: RiskConfig)
    ensures AddsSoundly(d, s, market, trend, today, v, cfg, AdvanceSymbol(d, s, market, trend, today, v, cfg).signals)
  {
    var r := ReconcilePending(d.signals, s, market, v);
    ReconcileKeepsSignals(d.signals, s, market, v);
    NothingAdded(d, s, market, trend, today, v, cfg, r.signals);
    UncorrectedAddsSoundly(d, s, market, trend, today, v, cfg);
    hide InState, InCooldown, AddsSoundly, ReconcilePending, AdvanceUncorrected;
  }

  lemma UncorrectedAddsSoundly(d: Desk, s: Symbol, market: Market, trend: Trend, today: int, v: View, cfg: RiskConfig)
    ensures AddsSoundly(d, s, market, trend, today, v, cfg, AdvanceUncorrected(d, s, market, trend, today, v, cfg).signals)
  {
    var held := OpenHolding(d.holdings, s);
    SignalsStay(d.signals);
    NothingAdded(d, s, market, trend, today, v, cfg, d.signals);
    hide InState, InCooldown, StillCooling, HoldsOpen, AddsSoundly, ManageHolding, LookForEntry, PendingExists, ReconcilePending;
    if held.Some? && v.daily.Some? {
      ManageAddsSoundly(d, s, market, trend, today, v, cfg, held.value, v.daily.value);
    }
    if Tradeable(market) && !trend.OtherTrend? && !StillCooling(d, s, today) && held.None? {
      LookAddsSoundly(d, s, market, trend, today, v, cfg);
    }
  }

  lemma ApprovalAddsNoSignal(d: Desk, id: nat, market: Option<Market>, today: int, v: View, cfg: RiskConfig)
    ensures var r := Approve(d, id, market, today, v, cfg).desk.signals;
      |r| == |d.signals| && SignalsKept(d.signals, r)
  {
    hide ReconcilePending, ApproveReduce, ApproveExit, SetState, HoldingOf, HasRow, SignalsKept;
    SignalsStay(d.signals);
    if id < |d.signals| {
      ReconcileKeepsSignals(d.signals, d.signals[id].symbol, if market.Some? then market.value else RiskOn, v);
      StatusKeepsSignals(d, id, SignalApproved);
    }
  }

  lemma NextKeepsSignals(d: Desk, step: Step, cfg: RiskConfig)
    ensures var r := Next(d, step, cfg).signals;
      && SignalsKept(d.signals, r) && |r| <= |d.signals| + 1
      && (|r| > |d.signals| ==> step.AdvanceStep?)
  {
    hide AdvanceSymbol, Approve, CreatedSoundly;
    match step
    case AdvanceStep(s, market, trend, today, v) => AdvanceAddsSoundly(d, s, market, trend, today, v, cfg);
    case ApproveStep(id, market, today, v) => ApprovalAddsNoSignal(d, id, market, today, v, cfg);
    case RejectStep(id, today) =>
  }

  /** Step `k` of the run created the signal `sig`, and soundly. */
  ghost predicate CreatedBy(d: Desk, steps: seq<Step>, cfg: RiskConfig, k: int, i: nat, sig: Signal) {
    && 0 <= k < |steps| && steps[k].AdvanceStep?
    && var before, step := RunDesk(d, steps[..k], cfg), steps[k];
    && |before.signals| == i
    && CreatedSoundly(before, step.symbol, step.market, step.trend, step.today, step.view, cfg, sig.(status := Pending))
  }

  /** Every entry signal a run leaves behind was created by one of its steps, soundly. */
  lemma {:induction false} EveryEntryWasSound(d: Desk, steps: seq<Step>, cfg: RiskConfig, i: nat)
    requires |d.signals| <= i < |RunDesk(d, steps, cfg).signals| && RunDesk(d, steps, cfg).signals[i].kind.EntrySignal?
    ensures exists k :: CreatedBy(d, steps, cfg, k, i, RunDesk(d, steps, cfg).signals[i])
  {
    var n, init, step := |steps| - 1, steps[..|steps| - 1], steps[|steps| - 1];
    var before, after := RunDesk(d, init, cfg), RunDesk(d, steps, cfg);
    NextKeepsSignals(before, step, cfg);
    hide CreatedSoundly, Next;
    if i < |before.signals| {
      assert SameButStatus(before.signals[i], after.signals[i]);
      EveryEntryWasSound(d, init, cfg, i);
      var k :| CreatedBy(d, init, cfg, k, i, before.signals[i]);
      assert init[..k] == steps[..k] && init[k] == steps[k];
      assert CreatedBy(d, steps, cfg, k, i, after.signals[i]);
    } else {
      LastStepCreated(before, step, cfg, i);
      assert CreatedBy(d, steps, cfg, n, i, after.signals[i]);
    }
  }

  lemma LastStepCreated(d: Desk, step: Step, cfg: RiskConfig, i: nat)
    requires i == |d.signals| < |Next(d, step, cfg).signals| && Next(d, step, cfg).signals[i].kind.EntrySignal?
    ensures step.AdvanceStep?
    ensures var sig := Next(d, step, cfg).signals[i];
      sig.status.Pending? && CreatedSoundly(d, step.symbol, step.market, step.trend, step.today, step.view, cfg, sig)
  {
    NextKeepsSignals(d, step, cfg);
    hide AdvanceSymbol;
    AdvanceAddsSoundly(d, step.symbol, step.market, step.trend, step.today, step.view, cfg);
  }

  // --------------------------------------------------------- manual approval

  /** The fields an approval asks of an entry. */
  predicate IsComplete(sig: Signal) {
    && sig.stop.Some? && sig.entry.Some? && sig.shares.Some? && sig.shares.value != 0
    && sig.structureId.Some? && sig.fromQuarter && sig.triggerTs.Some? && sig.triggerLevel.Some?
  }

  lemma OnlyPendingIsNewest(signals: seq<Signal>, id: nat)
    requires OnePending(signals) && id < |signals| && IsPending(signals[id], signals[id].symbol, EntrySignal)
    ensures NewestPending(signals, signals[id].symbol) == Some(id)
  {
    var at := NewestPending(signals, signals[id].symbol);
  }

  /**
   A pending entry is approved exactly when it is complete, still valid by the newest market state (a
   missing one counts as risk-on), and its symbol has no positions row yet. The approval then adds the
   position the signal describes and nothing else changes in the other tables.
   */
  lemma ApprovedIffValid(d: Desk, id: nat, market: Option<Market>, today: int, v: View, cfg: RiskConfig)
    requires OnePending(d.signals) && id < |d.signals| && IsPending(d.signals[id], d.signals[id].symbol, EntrySignal)
    ensures var sig, r := d.signals[id], Approve(d, id, market, today, v, cfg);
      && (r.refusal.None? <==>
            IsComplete(sig) && StillValid(sig, if market.Some? then market.value else RiskOn, v) && !HasRow(d.holdings, sig.symbol))
      && (r.refusal.None? ==>
            && r.desk.holdings == d.holdings + [HoldingOf(sig, id)]
            && r.desk.signals == d.signals[id := sig.(status := SignalApproved)])
      && (r.refusal.Some? ==> r.desk.holdings == d.holdings && r.desk.records == d.records)
  {
    hide CorrectionOf, StillValid, SetState, HasRow, OnePending;
    OnlyPendingIsNewest(d.signals, id);
    UncorrectedIffValid(d.signals[id], if market.Some? then market.value else RiskOn, v);
  }

  /** What a valid entry means bar by bar: all of the fewer than four bars since the trigger have kept it. */
  lemma ValidMeansEveryBar(sig: Signal, market: Market, v: View)
    requires StillValid(sig, market, v) && IsComplete(sig)
    ensures var after := AfterTrigger(sig, v);
      && |after| < 4
      && (forall i :: 0 <= i < |after| ==> Stands(after[i], sig.triggerLevel.value))
      && (after != [] ==> NeverFalls(KnownHists(v.histAt(sig.triggerTs.value), after)))
      && (after != [] ==> !Deviates(after[|after| - 1].close, sig.entry.value))
  {
    hide Stands, NeverFalls, KnownHists, Deviates, AfterTrigger;
    assert Watched(sig, v) == AfterTrigger(sig, v);
  }

  /** From any sane table, hence in every run, the approval of a pending entry is sound. */
  lemma EveryApprovalIsSound(d: Desk, steps: seq<Step>, cfg: RiskConfig, first: int, id: nat, market: Option<Market>, today: int, v: View)
    requires Sane(d, first) && DaysPass(steps, first)
    ensures var now := RunDesk(d, steps, cfg);
      id < |now.signals| && now.signals[id].kind.EntrySignal? && Approve(now, id, market, today, v, cfg).refusal.None? ==>
        StillValid(now.signals[id], if market.Some? then market.value else RiskOn, v) && !HoldsOpen(now.holdings, now.signals[id].symbol)
  {
    hide StillValid, RunDesk;
    var now := RunDesk(d, steps, cfg);
    RunKeepsSane(d, steps, cfg, first);
    if id < |now.signals| && now.signals[id].kind.EntrySignal? && now.signals[id].status.Pending? {
      ApprovedIffValid(now, id, market, today, v, cfg);
      hide Approve;
    }
  }

  // ------------------------------------------------------------- the stops

  /** The entry price of every position and every entry signal is positive. */
  ghost predicate Priced(d: Desk) {
    && (forall i :: 0 <= i < |d.holdings| ==> d.holdings[i].entry > 0.0)
    && (forall i :: 0 <= i < |d.signals| && d.signals[i].kind.EntrySignal? && d.signals[i].entry.Some? ==> d.signals[i].entry.value > 0.0)
  }

  predicate StopKept(h: Holding, q: Holding) {
    && q.symbol == h.symbol && q.entry == h.entry && q.stop == h.stop
    && (q.status.PosOpen? ==> h.status.PosOpen?) && EffectiveStop(h) <= EffectiveStop(q)
  }

  ghost predicate StopsKept(hs: seq<Holding>, qs: seq<Holding>) {
    |hs| <= |qs| && forall i :: 0 <= i < |hs| ==> StopKept(hs[i], qs[i])
  }

  /** Managing rewrites one row, and never lowers its stop. */
  lemma ManagedRow(d: Desk, k: nat, bar: DailyBar, market: Market, v: View) returns (row: Holding)
    requires k < |d.holdings| && d.holdings[k].entry > 0.0
    ensures ManageHolding(d, k, bar, market, v).holdings == d.holdings[k := row] && StopKept(d.holdings[k], row)
  {
    var was := d.holdings[k];
    var h := was.(currentR := CurrentR(was, bar.close));
    var raised := h.(trailing := Some(MaxReal(EffectiveStop(h), h.entry)));
    var q := TrailedHolding(h, bar.close, bar.atr, h.currentR, market);
    assert StopKept(was, h) && StopKept(was, q) && (h.currentR > 0.0 ==> StopKept(was, raised));
    var r := ManageHolding(d, k, bar, market, v).holdings;
    assert r == d.holdings[k := h] || r == d.holdings[k := q] || (h.currentR > 0.0 && r == d.holdings[k := raised]) by {
      hide TriggerFailure, TrailedHolding, CurrentR, LatestOf, WithSignal, WithExit, InState, EffectiveStop;
    }
    row := if r == d.holdings[k := h] then h else if r == d.holdings[k := q] then q else raised;
  }

  lemma ManageKeepsStops(d: Desk, k: nat, bar: DailyBar, market: Market, v: View)
    requires k < |d.holdings| && d.holdings[k].entry > 0.0
    ensures StopsKept(d.holdings, ManageHolding(d, k, bar, market, v).holdings)
  {
    hide ManageHolding;
    var row := ManagedRow(d, k, bar, market, v);
  }

  lemma NothingMoves(hs: seq<Holding>)
    ensures StopsKept(hs, hs)
  {
  }

  lemma AppendKeepsStops(hs: seq<Holding>, h: Holding)
    ensures StopsKept(hs, hs + [h])
  {
  }

  lemma RowKeepsStops(hs: seq<Holding>, k: nat, h: Holding)
    requires k < |hs| && StopKept(hs[k], h)
    ensures StopsKept(hs, hs[k := h])
  {
  }

  lemma ApproveKeepsStops(d: Desk, id: nat, market: Option<Market>, today: int, v: View, cfg: RiskConfig)
    ensures StopsKept(d.holdings, Approve(d, id, market, today, v, cfg).desk.holdings)
  {
    hide StopsKept, ReconcilePending, SetState, StartCooldown, HasRow;
    if id < |d.signals| {
      var sig := d.signals[id];
      if IsComplete(sig) {
        AppendKeepsStops(d.holdings, HoldingOf(sig, id));
      }
      var at := OpenHolding(d.holdings, sig.symbol);
      if at.Some? {
        var h := d.holdings[at.value];
        RowKeepsStops(d.holdings, at.value, h.(status := PosClosed));
        if sig.shares.Some? {
          var left := MaxInt(0, h.shares - sig.shares.value);
          RowKeepsStops(d.holdings, at.value, h.(shares := left));
          RowKeepsStops(d.holdings, at.value, h.(shares := 0, status := PosClosed));
        }
      }
    }
    NothingMoves(d.holdings);
  }

  lemma AdvanceKeepsStops(d: Desk, s: Symbol, market: Market, trend: Trend, today: int, v: View, cfg: RiskConfig)
    requires Priced(d)
    ensures StopsKept(d.holdings, AdvanceSymbol(d, s, market, trend, today, v, cfg).holdings)
  {
    var held := OpenHolding(d.holdings, s);
    if held.Some? && v.daily.Some? {
      ManageKeepsStops(d, held.value, v.daily.value, market, v);
    }
    NothingMoves(d.holdings);
    LookKeepsHoldings(d, s, market, today, v, cfg);
    hide InState, InCooldown, StillCooling, HoldsOpen, ManageHolding, LookForEntry, PendingExists, ReconcilePending, StopsKept;
  }

  lemma LookKeepsHoldings(d: Desk, s: Symbol, market: Market, today: int, v: View, cfg: RiskConfig)
    ensures LookForEntry(d, s, market, today, v, cfg).holdings == d.holdings
  {
    hide InState, InCooldown, StructureStop, PositionSize, PendingExists, PortfolioAllows, EvaluateTrigger, LatestOf;
  }

  /** Every new row comes from an entry signal. */
  lemma RowsComeFromEntries(d: Desk, step: Step, cfg: RiskConfig)
    requires Priced(d)
    ensures var r := Next(d, step, cfg);
      StopsKept(d.holdings, r.holdings) && forall i :: |d.holdings| <= i < |r.holdings| ==> r.holdings[i].entry > 0.0
  {
    match step
    case AdvanceStep(s, market, trend, today, v) =>
      AdvanceKeepsStops(d, s, market, trend, today, v, cfg);
      AdvanceAddsNoRow(d, s, market, trend, today, v, cfg);
      hide AdvanceSymbol;
    case ApproveStep(id, market, today, v) =>
      ApproveKeepsStops(d, id, market, today, v, cfg);
      hide StopsKept, ReconcilePending, SetState, ApproveReduce, ApproveExit, HasRow;
    case RejectStep(id, today) =>
      NothingMoves(d.holdings);
  }

  lemma AdvanceAddsNoRow(d: Desk, s: Symbol, market: Market, trend: Trend, today: int, v: View, cfg: RiskConfig)
    requires Priced(d)
    ensures |AdvanceSymbol(d, s, market, trend, today, v, cfg).holdings| == |d.holdings|
  {
    var held := OpenHolding(d.holdings, s);
    if held.Some? && v.daily.Some? {
      var row := ManagedRow(d, held.value, v.daily.value, market, v);
    }
    LookKeepsHoldings(d, s, market, today, v, cfg);
    hide InState, InCooldown, StillCooling, HoldsOpen, ManageHolding, LookForEntry, PendingExists, ReconcilePending;
  }

  lemma NextKeepsPriced(d: Desk, step: Step, cfg: RiskConfig)
    requires Priced(d)
    ensures Priced(Next(d, step, cfg)) && StopsKept(d.holdings, Next(d, step, cfg).holdings)
  {
    var r := Next(d, step, cfg);
    RowsComeFromEntries(d, step, cfg);
    NextKeepsSignals(d, step, cfg);
    forall i | 0 <= i < |r.signals| && r.signals[i].kind.EntrySignal? && r.signals[i].entry.Some? ensures r.signals[i].entry.value > 0.0 {
      if i < |d.signals| {
        assert SameButStatus(d.signals[i], r.signals[i]);
      } else {
        LastStepCreated(d, step, cfg, i);
      }
    }
    forall i | 0 <= i < |d.holdings| ensures r.holdings[i].entry > 0.0 {
      assert StopKept(d.holdings[i], r.holdings[i]);
    }
    hide Next;
  }

  /** Over every run the stop that guards a position never falls, and a closed position never opens again. */
  lemma {:induction false} EffectiveStopNeverFalls(d: Desk, steps: seq<Step>, cfg: RiskConfig)
    requires Priced(d)
    ensures Priced(RunDesk(d, steps, cfg)) && StopsKept(d.holdings, RunDesk(d, steps, cfg).holdings)
  {
    if steps == [] {
      NothingMoves(d.holdings);
    } else {
      var before, after := RunDesk(d, steps[..|steps| - 1], cfg), RunDesk(d, steps, cfg);
      EffectiveStopNeverFalls(d, steps[..|steps| - 1], cfg);
      NextKeepsPriced(before, steps[|steps| - 1], cfg);
    }
  }

  // -------------------------------------------------------------- the exits

  /**
   A position whose daily close is at or below its stop gets a pending exit signal at its next
   advance.  In a table no run could have left behind, a pending entry or a cooldown of the same
   symbol would come first; the invariant says there is neither.
   */
  lemma HardStopIsSignalled(d: Desk, s: Symbol, market: Market, trend: Trend, today: int, v: View, cfg: RiskConfig, k: nat)
    requires Sane(d, today)
    requires k < |d.holdings| && d.holdings[k].symbol == s && d.holdings[k].status.PosOpen?
    requires v.daily.Some? && v.daily.value.close <= d.holdings[k].stop
    ensures var r := AdvanceSymbol(d, s, market, trend, today, v, cfg);
      PendingExists(r.signals, s, ExitSignal) && RecordOf(r, s).state.ExitCandidate?
  {
    var held := OpenHolding(d.holdings, s);
    assert HoldsOpen(d.holdings, s) && SymbolIsSane(d, s, today);
    hide StillCooling, OnePending, TriggerFailure, TrailedHolding, CurrentR, LatestOf, LookForEntry;
    assert held.Some? && held.value == k;
    assert ReconcilePending(d.signals, s, market, v).correction.None?;
    var h := d.holdings[k].(currentR := CurrentR(d.holdings[k], v.daily.value.close));
    var d1 := d.(holdings := d.holdings[k := h]);
    assert AdvanceSymbol(d, s, market, trend, today, v, cfg) == WithExit(d1, h, v.now);
    PendingAfterAppend(d.signals, ExitOf(h, v.now), s, ExitSignal);
  }

  /** So in every run from a sane table, with days that pass, no hard stop is ever missed by an advance. */
  lemma NoHardStopIsMissed(d: Desk, steps: seq<Step>, cfg: RiskConfig, first: int, k: nat, last: Step)
    requires Sane(d, first) && DaysPass(steps, first) && last.AdvanceStep? && LastDay(steps, first) <= last.today
    requires var now := RunDesk(d, steps, cfg);
      k < |now.holdings| && now.holdings[k].symbol == last.symbol && now.holdings[k].status.PosOpen?
      && last.view.daily.Some? && last.view.daily.value.close <= now.holdings[k].stop
    ensures PendingExists(Next(RunDesk(d, steps, cfg), last, cfg).signals, last.symbol, ExitSignal)
  {
    hide RunDesk, AdvanceSymbol, PendingExists, Sane;
    var now := RunDesk(d, steps, cfg);
    RunKeepsSane(d, steps, cfg, first);
    LaterStaysSane(now, LastDay(steps, first), last.today);
    HardStopIsSignalled(now, last.symbol, last.market, last.trend, last.today, last.view, cfg, k);
  }

  /** A desk that began empty needs no assumption but days that pass. */
  lemma EmptyDeskMissesNoHardStop(steps: seq<Step>, cfg: RiskConfig, first: int, k: nat, last: Step)
    requires DaysPass(steps + [last], first) && last.AdvanceStep?
    requires var now := RunDesk(EMPTY_DESK, steps, cfg);
      k < |now.holdings| && now.holdings[k].symbol == last.symbol && now.holdings[k].status.PosOpen?
      && last.view.daily.Some? && last.view.daily.value.close <= now.holdings[k].stop
    ensures PendingExists(Next(RunDesk(EMPTY_DESK, steps, cfg), last, cfg).signals, last.symbol, ExitSignal)
  {
    hide RunDesk, Sane, Next;
    var all := steps + [last];
    assert forall i :: 0 <= i < |steps| ==> all[i] == steps[i];
    assert DaysPass(steps, first) && first <= all[|steps|].today;
    EmptyDeskIsSane(first);
    NoHardStopIsMissed(EMPTY_DESK, steps, cfg, first, k, last);
  }
}
