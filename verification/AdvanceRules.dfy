/** Every outcome of an advance, an approval and a rejection, on the fields (corrections.py, state_machine.py, approvals.py). */
module AdvanceRules {
  import opened Common
  import opened Ledger
  import opened Structures
  import opened Risk
  import opened EntryTrigger
  import opened Corrections
  import opened StateMachine
  import opened SignalTheorems
  import opened SignalRules
  import opened DeskRules
  import opened EntryRules

  // ------------------------------------------------------------ looking

  /** A cooldown of the configured days begins. */
  predicate Cools(d: Desk, r: Desk, s: Symbol, until: int) {
    Becomes(d, r, s, Cooldown, Some(until))
  }

  /** The newest bottom structure is followed, or met, by the newest bottom failure. */
  predicate FailsAfter(ss: seq<Structure>, b: int, f: int) {
    Newest(ss, {BottomStructure}, b) && Newest(ss, {BottomFailed}, f) && ss[f].ts >= ss[b].ts
  }

  const LOOKED_AT: set<EventKind> := {BottomPassivation, BottomStructure, BottomFailed, TopStructure, TopInvalidated}

  predicate Expires(bars: seq<TriggerBar>, st: Structure) {
    bars != [] && st.expiresAt.Some? && st.expiresAt.value < bars[|bars| - 1].ts
  }

  /** From the newest bottom structure: a cooldown if it is dead or expired, an entry if its trigger fires, else a wait. */
  ghost predicate FromBottom(d: Desk, s: Symbol, market: Market, today: int, b: nat, v: View, cfg: RiskConfig, r: Desk)
    requires b < |v.structures| && Newest(v.structures, {BottomStructure}, b)
  {
    var st := v.structures[b];
    if st.invalidated || st.failed || Expires(v.bars, st) then Cools(d, r, s, today + cfg.cooldownDays)
    else if exists ts, price, level :: Fires(v.bars, st, ts, price, level) then
      exists ts, price, level :: Fires(v.bars, st, ts, price, level) && Creates(d, s, market, b, ts, price, level, v, cfg, r)
    else Turns(d, r, s, WaitTrigger)
  }

  /** By the newest structure of the five kinds that are looked at. */
  ghost predicate ByNewest(d: Desk, s: Symbol, market: Market, today: int, l: nat, v: View, cfg: RiskConfig, r: Desk)
    requires l < |v.structures|
  {
    match v.structures[l].kind
    case BottomPassivation => Turns(d, r, s, WatchBottom)
    case BottomFailed => Cools(d, r, s, today + cfg.cooldownDays)
    case _ =>
      if exists b: nat :: Newest(v.structures, {BottomStructure}, b) then
        exists b: nat :: Newest(v.structures, {BottomStructure}, b) && FromBottom(d, s, market, today, b, v, cfg, r)
      else Turns(d, r, s, TrendOk)
  }

  ghost predicate Looks(d: Desk, s: Symbol, market: Market, today: int, v: View, cfg: RiskConfig, r: Desk) {
    if exists b, f :: FailsAfter(v.structures, b, f) then Cools(d, r, s, today + cfg.cooldownDays)
    else if exists l: nat :: Newest(v.structures, LOOKED_AT, l) then
      exists l: nat :: Newest(v.structures, LOOKED_AT, l) && ByNewest(d, s, market, today, l, v, cfg, r)
    else Turns(d, r, s, TrendOk)
  }

  lemma FromBottomByRule(d: Desk, s: Symbol, market: Market, today: int, b: nat, v: View, cfg: RiskConfig)
    requires b < |v.structures| && Newest(v.structures, {BottomStructure}, b)
    ensures var st := v.structures[b];
      var r := if st.invalidated || st.failed then InCooldown(d, s, today + cfg.cooldownDays)
        else match EvaluateTrigger(v.bars, st)
          case Fired(ts, price, level) => CreateEntry(d, s, market, b, Fired(ts, price, level), v, cfg)
          case StructureExpired => InCooldown(d, s, today + cfg.cooldownDays)
          case Waiting => InState(d, s, WaitTrigger);
      FromBottom(d, s, market, today, b, v, cfg, r)
  {
    hide EvaluateTrigger, Fires, Creates, CreateEntry;
    var st := v.structures[b];
    var fired := EvaluateTrigger(v.bars, st);
    TriggerFiresIff(v.bars, st, 0, 0.0, 0.0);
    forall ts, price, level ensures fired == Fired(ts, price, level) <==> Fires(v.bars, st, ts, price, level) {
      TriggerFiresIff(v.bars, st, ts, price, level);
    }
    if fired.Fired? {
      CreatesByRule(d, s, market, b, fired, v, cfg);
      assert Fires(v.bars, st, fired.ts, fired.price, fired.level);
    }
  }

  lemma LooksByRule(d: Desk, s: Symbol, market: Market, today: int, v: View, cfg: RiskConfig)
    ensures Looks(d, s, market, today, v, cfg, LookForEntry(d, s, market, today, v, cfg))
  {
    hide Newest, LatestOf, FromBottom, CreateEntry, EvaluateTrigger;
    var ss := v.structures;
    LatestIsNewest(ss, {BottomStructure});
    LatestIsNewest(ss, {BottomFailed});
    LatestIsNewest(ss, LOOKED_AT);
    var bottom, failure, latest := LatestOf(ss, {BottomStructure}), LatestOf(ss, {BottomFailed}), LatestOf(ss, LOOKED_AT);
    if bottom.Some? {
      FromBottomByRule(d, s, market, today, bottom.value, v, cfg);
      if failure.Some? && ss[failure.value].ts >= ss[bottom.value].ts {
        assert FailsAfter(ss, bottom.value, failure.value);
      }
    }
    forall b, f | FailsAfter(ss, b, f) ensures bottom == Some(b) && failure == Some(f) {
    }
  }

  // -------------------------------------------------------- the corrections

  /** The newest pending entry of the symbol. */
  predicate NewestEntry(signals: seq<Signal>, s: Symbol, i: int) {
    && 0 <= i < |signals| && IsPending(signals[i], s, EntrySignal)
    && forall j :: 0 <= j < |signals| && IsPending(signals[j], s, EntrySignal) ==>
         signals[j].createdAt < signals[i].createdAt || (signals[j].createdAt == signals[i].createdAt && j <= i)
  }

  lemma NewestEntryStep(signals: seq<Signal>, s: Symbol, i: int)
    requires signals != [] && 0 <= i < |signals| - 1
    ensures var n := |signals| - 1;
      NewestEntry(signals, s, i) <==>
        NewestEntry(signals[..n], s, i) && (IsPending(signals[n], s, EntrySignal) ==> signals[n].createdAt < signals[i].createdAt)
  {
    var n := |signals| - 1;
    assert forall j :: 0 <= j < n ==> signals[..n][j] == signals[j];
  }

  lemma {:induction false} NewestPendingIs(signals: seq<Signal>, s: Symbol)
    ensures forall i :: NewestEntry(signals, s, i) <==> i >= 0 && NewestPending(signals, s) == Some(i)
  {
    if signals != [] {
      hide IsPending;
      var n := |signals| - 1;
      NewestPendingIs(signals[..n], s);
      forall i | 0 <= i < n
        ensures NewestEntry(signals, s, i) <==>
          NewestEntry(signals[..n], s, i) && (IsPending(signals[n], s, EntrySignal) ==> signals[n].createdAt < signals[i].createdAt)
      {
        NewestEntryStep(signals, s, i);
      }
      var best := NewestPending(signals[..n], s);
      assert best.Some? ==> NewestEntry(signals[..n], s, best.value);
      assert NewestEntry(signals, s, n) <==> IsPending(signals[n], s, EntrySignal) && (best.None? || signals[best.value].createdAt <= signals[n].createdAt) by {
        assert forall j :: 0 <= j < n ==> signals[..n][j] == signals[j];
      }
    }
  }

  /** The structure is unknown, flagged, or has a failure of its own. */
  predicate Lost(ss: seq<Structure>, id: Option<nat>) {
    if id.None? || id.value >= |ss| then true
    else ss[id.value].invalidated || ss[id.value].failed || exists i :: 0 <= i < |ss| && ss[i].kind.BottomFailed? && ss[i].parentId == id
  }

  /** Four bars have passed since the trigger. */
  ghost predicate Stale(sig: Signal, v: View) {
    sig.triggerTs.Some? && exists ids :: LaterThan(v.bars, sig.triggerTs.value, ids) && |ids| >= 4
  }

  /** The first rule a pending entry breaks: its structure, its trigger, its age, the market. */
  ghost predicate Breaks(sig: Signal, market: Market, v: View, status: SignalStatus) {
    if Lost(v.structures, sig.structureId) then status.CancelledByStructure?
    else if !TriggerKept(sig, v) then status.CancelledByTrigger?
    else if Stale(sig, v) then status.Expired?
    else !EntriesAllowed(market) && status.CancelledByMarket?
  }

  lemma StaleIff(sig: Signal, v: View)
    ensures Stale(sig, v) <==> |AfterTrigger(sig, v)| >= 4
  {
    if sig.triggerTs.Some? {
      var ids := BarsAfterAreLater(v.bars, sig.triggerTs.value);
      forall others | LaterThan(v.bars, sig.triggerTs.value, others) ensures others == ids {
        SameSelection(v.bars, sig.triggerTs.value, ids, others);
      }
    }
  }

  lemma BreaksIff(sig: Signal, market: Market, v: View)
    ensures var c := CorrectionOf(sig, market, v);
      && (c.None? ==> forall status :: !Breaks(sig, market, v, status))
      && (c.Some? ==> forall status :: Breaks(sig, market, v, status) <==> status == c.value.status)
      && (c.Some? ==>
            && c.value.startCooldown == c.value.status.CancelledByStructure?
            && c.value.target == if c.value.status.CancelledByStructure? then Cooldown else if c.value.status.CancelledByMarket? then Idle else WaitTrigger)
  {
    hide TriggerFailure, TriggerKept, TriggerHolds, AfterTrigger, Stale, FailureChild;
    NoFailureIffTriggerHolds(sig, v);
    HoldsIffKept(sig, v);
    StaleIff(sig, v);
    LostIff(v.structures, sig.structureId);
  }

  lemma LostIff(ss: seq<Structure>, id: Option<nat>)
    ensures Lost(ss, id) <==> StructureLost(ss, id)
  {
  }

  /** The corrected entry gets its status; a lost structure cools the symbol down, the market idles it, the rest wait for a trigger. */
  ghost predicate Corrects(d: Desk, s: Symbol, i: nat, status: SignalStatus, until: int, r: Desk)
    requires i < |d.signals|
  {
    var d1 := d.(signals := d.signals[i := d.signals[i].(status := status)]);
    if status.CancelledByStructure? then Cools(d1, r, s, until)
    else Turns(d1, r, s, if status.CancelledByMarket? then Idle else WaitTrigger)
  }

  // ------------------------------------------------------------- an advance

  predicate Cooling(d: Desk, s: Symbol, today: int) {
    s in d.records && d.records[s].cooldownUntil.Some? && today <= d.records[s].cooldownUntil.value
  }

  predicate OpenRow(hs: seq<Risk.Holding>, s: Symbol, k: int) {
    0 <= k < |hs| && hs[k].symbol == s && hs[k].status.PosOpen?
  }

  predicate WasWatching(d: Desk, s: Symbol) {
    s in d.records
    && (d.records[s].state.WatchBottom? || d.records[s].state.BottomConfirmed? || d.records[s].state.WaitTrigger? || d.records[s].state.EntryCandidate?)
  }

  /** Without a correction: the cooldown, missing data, the open position, the market, the trend, a pending entry, and only then the structures. */
  ghost predicate Proceeds(d: Desk, s: Symbol, market: Market, trend: Trend, today: int, v: View, cfg: RiskConfig, r: Desk) {
    if Cooling(d, s, today) then Turns(d, r, s, Cooldown)
    else if v.daily.None? then Turns(d, r, s, Idle)
    else if exists k: nat :: OpenRow(d.holdings, s, k) then
      exists k: nat :: OpenRow(d.holdings, s, k) && ManagesTo(d, k, v.daily.value, market, v, r)
    else if !EntriesAllowed(market) then Turns(d, r, s, if WasWatching(d, s) then Cooldown else Idle)
    else if !trend.StrongUptrend? && !trend.Uptrend? then Turns(d, r, s, Idle)
    else if exists i :: 0 <= i < |d.signals| && IsPending(d.signals[i], s, EntrySignal) then Turns(d, r, s, EntryCandidate)
    else Looks(d, s, market, today, v, cfg, r)
  }

  /** An advance corrects the newest pending entry if it breaks a rule, and proceeds otherwise. */
  ghost predicate Advances(d: Desk, s: Symbol, market: Market, trend: Trend, today: int, v: View, cfg: RiskConfig, r: Desk) {
    if exists i: nat, status :: NewestEntry(d.signals, s, i) && Breaks(d.signals[i], market, v, status) then
      exists i: nat, status :: NewestEntry(d.signals, s, i) && Breaks(d.signals[i], market, v, status)
        && Corrects(d, s, i, status, today + cfg.cooldownDays, r)
    else Proceeds(d, s, market, trend, today, v, cfg, r)
  }

  lemma ProceedsByRule(d: Desk, s: Symbol, market: Market, trend: Trend, today: int, v: View, cfg: RiskConfig)
    ensures Proceeds(d, s, market, trend, today, v, cfg, AdvanceUncorrected(d, s, market, trend, today, v, cfg))
  {
    hide ManageHolding, ManagesTo, LookForEntry, Looks;
    var held := OpenHolding(d.holdings, s);
    LooksByRule(d, s, market, today, v, cfg);
    if held.Some? {
      assert OpenRow(d.holdings, s, held.value);
      if v.daily.Some? {
        ManagingFollowsRules(d, held.value, v.daily.value, market, v);
      }
    }
  }

  /** Every advance has the outcome its rows, bars and answers call for, on any desk. */
  lemma AdvancesByRule(d: Desk, s: Symbol, market: Market, trend: Trend, today: int, v: View, cfg: RiskConfig)
    ensures Advances(d, s, market, trend, today, v, cfg, AdvanceSymbol(d, s, market, trend, today, v, cfg))
  {
    hide NewestEntry, Breaks, Proceeds, AdvanceUncorrected, CorrectionOf;
    NewestPendingIs(d.signals, s);
    var at := NewestPending(d.signals, s);
    if at.Some? {
      BreaksIff(d.signals[at.value], market, v);
      assert NewestEntry(d.signals, s, at.value);
      var c := CorrectionOf(d.signals[at.value], market, v);
      if c.Some? {
        assert Breaks(d.signals[at.value], market, v, c.value.status);
      }
    }
    ProceedsByRule(d, s, market, trend, today, v, cfg);
  }

  // ------------------------------------------------------------ the approvals

  /** The signal is decided. */
  predicate Decides(d: Desk, r: Desk, id: nat, status: SignalStatus)
    requires id < |d.signals|
  {
    r.signals == d.signals[id := d.signals[id].(status := status)]
  }

  /** The state and cooldown of a symbol that has a record; without one nothing changes. */
  predicate Marks(d: Desk, r: Desk, s: Symbol, state: DeskState, until: Option<int>) {
    r.records == if s in d.records then d.records[s := Record(state, if until.Some? then until else d.records[s].cooldownUntil)] else d.records
  }

  /** An approved exit closes the open row and cools the symbol down; without an open row only the signal is decided. */
  lemma ExitApproved(d: Desk, id: nat, market: Option<Market>, today: int, v: View, cfg: RiskConfig)
    requires id < |d.signals| && d.signals[id].kind.ExitSignal? && d.signals[id].status.Pending? && OneRow(d.holdings)
    ensures var s, a := d.signals[id].symbol, Approve(d, id, market, today, v, cfg);
      && a.refusal.None? && Decides(d, a.desk, id, SignalApproved)
      && (forall k: nat :: OpenRow(d.holdings, s, k) ==>
            && a.desk.holdings == d.holdings[k := d.holdings[k].(status := PosClosed)]
            && Marks(d, a.desk, s, Cooldown, Some(today + cfg.cooldownDays)))
      && ((forall k: nat :: !OpenRow(d.holdings, s, k)) ==> a.desk.holdings == d.holdings && a.desk.records == d.records)
  {
    var held := OpenHolding(d.holdings, d.signals[id].symbol);
    if held.Some? {
      assert OpenRow(d.holdings, d.signals[id].symbol, held.value);
    }
  }

  /** An approved reduction takes its shares from the open row; at zero the row closes and the symbol cools down. */
  lemma ReductionApproved(d: Desk, id: nat, market: Option<Market>, today: int, v: View, cfg: RiskConfig, k: nat)
    requires id < |d.signals| && d.signals[id].kind.ReduceSignal? && d.signals[id].status.Pending? && OneRow(d.holdings)
    requires d.signals[id].shares.Some? && d.signals[id].shares.value != 0 && OpenRow(d.holdings, d.signals[id].symbol, k)
    ensures var s, n, h, a := d.signals[id].symbol, d.signals[id].shares.value, d.holdings[k], Approve(d, id, market, today, v, cfg);
      && a.refusal.None? && Decides(d, a.desk, id, SignalApproved)
      && if h.shares <= n then
           a.desk.holdings == d.holdings[k := h.(shares := 0, status := PosClosed)] && Marks(d, a.desk, s, Cooldown, Some(today + cfg.cooldownDays))
         else
           a.desk.holdings == d.holdings[k := h.(shares := h.shares - n)] && Marks(d, a.desk, s, DeskState.InPosition, None)
  {
    var held := OpenHolding(d.holdings, d.signals[id].symbol);
    assert held == Some(k);
  }

  /** An approved entry opens a row with the price, stop and shares it names; nothing else of the desk changes but its state. */
  lemma EntryApproved(d: Desk, id: nat, market: Option<Market>, today: int, v: View, cfg: RiskConfig)
    requires id < |d.signals| && d.signals[id].kind.EntrySignal? && Approve(d, id, market, today, v, cfg).refusal.None?
    ensures var sig, a := d.signals[id], Approve(d, id, market, today, v, cfg).desk;
      && sig.status.Pending? && sig.entry.Some? && sig.stop.Some? && sig.shares.Some? && sig.shares.value != 0
      && Decides(d, a, id, SignalApproved) && Marks(d, a, sig.symbol, DeskState.InPosition, None)
      && a.holdings == d.holdings + [Risk.Holding(sig.symbol, PosOpen, Some(id), sig.entry.value, sig.stop.value, None, sig.shares.value, 0.0)]
      && forall k :: 0 <= k < |d.holdings| ==> d.holdings[k].symbol != sig.symbol
  {
    hide ReconcilePending;
    UncorrectedIsUnchanged(d.signals, d.signals[id].symbol, if market.Some? then market.value else RiskOn, v);
  }

  /** What is not pending is refused; a rejection decides any signal. */
  lemma OnlyPendingIsApproved(d: Desk, id: nat, market: Option<Market>, today: int, v: View, cfg: RiskConfig)
    ensures id >= |d.signals| || !d.signals[id].status.Pending? ==>
      Approve(d, id, market, today, v, cfg).refusal.Some? && Approve(d, id, market, today, v, cfg).desk == d
    ensures id < |d.signals| ==>
      Decides(d, Reject(d, id).desk, id, SignalRejected) && Reject(d, id).desk.holdings == d.holdings && Reject(d, id).desk.records == d.records
  {
  }
}
