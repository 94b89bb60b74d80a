/** Entry signals and simulated positions: app/services/state_machine.py and app/services/approvals.py. */
module StateMachine {
  import opened Common
  import opened Ledger
  import opened Structures
  import opened Risk
  import opened EntryTrigger
  import opened Corrections

  datatype Trend = StrongUptrend | Uptrend | OtherTrend

  /** A trading_states row. `cooldownUntil` is a day number. */
  datatype Record = Record(state: DeskState, cooldownUntil: Option<int>)

  /** The tables the signal state machine and the approvals share. */
  datatype Desk = Desk(signals: seq<Signal>, holdings: seq<Holding>, records: map<Symbol, Record>)

  const NEW_RECORD := Record(Idle, None)

  function RecordOf(d: Desk, s: Symbol): Record {
    if s in d.records then d.records[s] else NEW_RECORD
  }

  function InState(d: Desk, s: Symbol, state: DeskState): (r: Desk)
    ensures r.signals == d.signals && r.holdings == d.holdings
  {
    d.(records := d.records[s := RecordOf(d, s).(state := state)])
  }

  function InCooldown(d: Desk, s: Symbol, until: int): (r: Desk)
    ensures r.signals == d.signals && r.holdings == d.holdings
  {
    d.(records := d.records[s := Record(Cooldown, Some(until))])
  }

  predicate StillCooling(d: Desk, s: Symbol, today: int) {
    RecordOf(d, s).cooldownUntil.Some? && RecordOf(d, s).cooldownUntil.value >= today
  }

  /** The OPEN position of a symbol. */
  function OpenHolding(hs: seq<Holding>, s: Symbol): (r: Option<nat>)
    ensures r.Some? ==> r.value < |hs| && hs[r.value].status.PosOpen? && hs[r.value].symbol == s
    ensures r.None? <==> !HoldsOpen(hs, s)
  {
    if hs == [] then None
    else
      var n := |hs| - 1;
      HoldsOpenSnoc(hs, n, s);
      assert hs[..n + 1] == hs;
      if hs[n].status.PosOpen? && hs[n].symbol == s then Some(n) else OpenHolding(hs[..n], s)
  }

  // ------------------------------------------------------ structure lookups

  /** `_latest_event`: the newest hourly event of one of the kinds. */
  function LatestOf(structures: seq<Structure>, kinds: set<EventKind>): (r: Option<nat>)
    ensures r.Some? ==> r.value < |structures| && structures[r.value].hourly && structures[r.value].kind in kinds
    ensures r.None? ==> forall i :: 0 <= i < |structures| && structures[i].hourly ==> structures[i].kind !in kinds
    ensures r.Some? ==> forall i :: 0 <= i < |structures| && structures[i].hourly && structures[i].kind in kinds ==> structures[i].ts <= structures[r.value].ts
  {
    if structures == [] then None
    else
      var n := |structures| - 1;
      var best := LatestOf(structures[..n], kinds);
      assert forall i :: 0 <= i < n ==> structures[..n][i] == structures[i];
      if structures[n].hourly && structures[n].kind in kinds && (best.None? || structures[best.value].ts <= structures[n].ts) then Some(n)
      else best
  }

  // --------------------------------------------------------- entry candidate

  function EntryOf(s: Symbol, size: Size, structureId: nat, fired: Trigger, now: Time): Signal
    requires fired.Fired?
  {
    Signal(s, EntrySignal, Pending, Some(size.entry), Some(size.stop), Some(size.shares), Some(size.allowedLoss), Some(size.value),
           Some(structureId), true, Some(fired.ts), Some(fired.level), now)
  }

  /** `_create_entry_candidate`, for the bottom-structure script the machine uses. */
  function CreateEntry(d: Desk, s: Symbol, market: Market, id: nat, fired: Trigger, v: View, cfg: RiskConfig): Desk
    requires id < |v.structures| && fired.Fired?
  {
    if PendingExists(d.signals, s, EntrySignal) then InState(d, s, EntryCandidate)
    else if !PortfolioAllows(d.holdings, s, cfg, v.industryOf) then InState(d, s, TrendOk)
    else
      var st := v.structures[id];
      var stop := StructureStop(st, v.hourlyAtr(st.ts), fired.price, BottomTrendResume);
      var size := PositionSize(cfg, fired.price, stop, market, BottomTrendResume, v.equity);
      if stop.None? || size.None? then InState(d, s, WaitTrigger)
      else InState(d.(signals := d.signals + [EntryOf(s, size.value, id, fired, v.now)]), s, EntryCandidate)
  }

  /** The part of `advance_state_machine` that looks for an entry. */
  function LookForEntry(d: Desk, s: Symbol, market: Market, today: int, v: View, cfg: RiskConfig): Desk {
    var bottom := LatestOf(v.structures, {BottomStructure});
    var failure := LatestOf(v.structures, {BottomFailed});
    var latest := LatestOf(v.structures, {BottomPassivation, BottomStructure, BottomFailed, TopStructure, TopInvalidated});
    var until := today + cfg.cooldownDays;
    if bottom.Some? && failure.Some? && v.structures[failure.value].ts >= v.structures[bottom.value].ts then InCooldown(d, s, until)
    else if latest.None? then InState(d, s, TrendOk)
    else if v.structures[latest.value].kind.BottomPassivation? then InState(d, s, WatchBottom)
    else if v.structures[latest.value].kind.BottomFailed? then InCooldown(d, s, until)
    else if bottom.None? then InState(d, s, TrendOk)
    else
      var st := v.structures[bottom.value];
      if st.invalidated || st.failed then InCooldown(d, s, until)
      else
        match EvaluateTrigger(v.bars, st)
        case Fired(ts, price, level) => CreateEntry(d, s, market, bottom.value, Fired(ts, price, level), v, cfg)
        case StructureExpired => InCooldown(d, s, until)
        case Waiting => InState(d, s, WaitTrigger)
  }

  // -------------------------------------------------------- open positions

  /** The stop an exit signal carries: the trailing stop once there is one. */
  function EffectiveStop(h: Holding): real {
    OrElse(h.trailing, h.stop)
  }

  function CurrentR(h: Holding, close: real): real {
    if h.entry - h.stop > 0.0 then (close - h.entry) / (h.entry - h.stop) else 0.0
  }

  /** `_update_trailing_stop`. */
  function TrailedHolding(h: Holding, close: real, atr: Option<real>, r: real, market: Market): Holding {
    if atr.None? || r < 1.0 then h
    else
      var candidate := if r >= 2.0 then MaxReal(h.entry, close - atr.value * (if market.RiskOn? then 2.0 else 1.5)) else h.entry;
      h.(trailing := Some(MaxReal(if h.trailing.Some? then h.trailing.value else h.stop, candidate)))
  }

  function ExitOf(h: Holding, now: Time): Signal {
    Signal(h.symbol, ExitSignal, Pending, None, Some(EffectiveStop(h)), Some(h.shares), None, None, None, false, None, None, now)
  }

  /** Python's floor division by three. */
  function ReduceOf(h: Holding, now: Time): Signal {
    Signal(h.symbol, ReduceSignal, Pending, None, Some(EffectiveStop(h)), Some(MaxInt(1, h.shares / 3)), None, None, None, false, None, None, now)
  }

  /** `_create_exit_signal` and `_create_reduce_signal`: at most one PENDING of a kind. */
  function WithSignal(d: Desk, sig: Signal): (r: Desk)
    ensures r.holdings == d.holdings && r.records == d.records
  {
    if PendingExists(d.signals, sig.symbol, sig.kind) then d else d.(signals := d.signals + [sig])
  }

  function WithExit(d: Desk, h: Holding, now: Time): (r: Desk)
    ensures r.holdings == d.holdings
  {
    InState(WithSignal(d, ExitOf(h, now)), h.symbol, ExitCandidate)
  }

  /** `_manage_position` for the OPEN position in row `k`, with the symbol's daily bar. */
  function ManageHolding(d: Desk, k: nat, bar: DailyBar, market: Market, v: View): Desk
    requires k < |d.holdings|
  {
    var h := d.holdings[k].(currentR := CurrentR(d.holdings[k], bar.close));
    var d1 := d.(holdings := d.holdings[k := h]);
    var source := if h.entrySignal.Some? && h.entrySignal.value < |d.signals| then Some(d.signals[h.entrySignal.value]) else None;
    if bar.close <= h.stop then WithExit(d1, h, v.now)
    else if source.Some? && TriggerFailure(source.value, v).Some? then WithExit(d1, h, v.now)
    else if !Tradeable(market) then
      if v.hourly.Some? && v.hourly.value.ma60.Some? && v.hourly.value.close < v.hourly.value.ma60.value then WithExit(d1, h, v.now)
      else if h.currentR > 0.0 then
        InState(d.(holdings := d.holdings[k := h.(trailing := Some(MaxReal(EffectiveStop(h), h.entry)))]), h.symbol, RiskProtection)
      else InState(d1, h.symbol, RiskProtection)
    else if LatestOf(v.structures, {TopStructure}).Some? && h.currentR > 0.0 then
      InState(WithSignal(d1, ReduceOf(h, v.now)), h.symbol, RiskProtection)
    else if bar.ma60.Some? && bar.close < bar.ma60.value then WithExit(d1, h, v.now)
    else
      var q := TrailedHolding(h, bar.close, bar.atr, h.currentR, market);
      var d2 := d.(holdings := d.holdings[k := q]);
      if q.trailing.Some? && q.trailing.value != 0.0 && bar.close <= q.trailing.value then WithExit(d2, q, v.now)
      else InState(d2, h.symbol, DeskState.InPosition)
  }

  // -------------------------------------------------------------- advancing

  /** `advance_state_machine`. */
  function AdvanceSymbol(d: Desk, s: Symbol, market: Market, trend: Trend, today: int, v: View, cfg: RiskConfig): Desk {
    var r := ReconcilePending(d.signals, s, market, v);
    var d1 := d.(signals := r.signals);
    if r.correction.Some? then
      if r.correction.value.startCooldown then InCooldown(d1, s, today + cfg.cooldownDays)
      else InState(d1, s, r.correction.value.target)
    else AdvanceUncorrected(d, s, market, trend, today, v, cfg)
  }

  /** The rest of the advance, when no pending entry had to be corrected. */
  function AdvanceUncorrected(d: Desk, s: Symbol, market: Market, trend: Trend, today: int, v: View, cfg: RiskConfig): Desk {
    var held := OpenHolding(d.holdings, s);
    if StillCooling(d, s, today) then InState(d, s, Cooldown)
    else if v.daily.None? then InState(d, s, Idle)
    else if held.Some? then ManageHolding(d, held.value, v.daily.value, market, v)
    else if !Tradeable(market) then
      var state := RecordOf(d, s).state;
      InState(d, s, if state.WatchBottom? || state.BottomConfirmed? || state.WaitTrigger? || state.EntryCandidate? then Cooldown else Idle)
    else if trend.OtherTrend? then InState(d, s, Idle)
    else if PendingExists(d.signals, s, EntrySignal) then InState(d, s, EntryCandidate)
    else LookForEntry(d, s, market, today, v, cfg)
  }

  // -------------------------------------------------------------- approvals

  datatype Refusal = NotFound | NotPending | MissingFields | MissingSource | NoLongerValid | DuplicatePosition

  /** The tables afterwards, and why the approval was refused, if it was. */
  datatype Decided = Decided(desk: Desk, refusal: Option<Refusal>)

  function WithStatus(d: Desk, id: nat, status: SignalStatus): Desk
    requires id < |d.signals|
  {
    d.(signals := d.signals[id := d.signals[id].(status := status)])
  }

  /** `_set_state` and `_cooldown` change a record only if there is one. */
  function SetState(d: Desk, s: Symbol, state: DeskState): (r: Desk)
    ensures r.signals == d.signals && r.holdings == d.holdings
  {
    if s in d.records then InState(d, s, state) else d
  }

  function StartCooldown(d: Desk, s: Symbol, until: int): (r: Desk)
    ensures r.signals == d.signals && r.holdings == d.holdings
  {
    if s in d.records then InCooldown(d, s, until) else d
  }

  predicate HasRow(hs: seq<Holding>, s: Symbol) {
    exists i :: 0 <= i < |hs| && hs[i].symbol == s
  }

  function HoldingOf(sig: Signal, id: nat): Holding
    requires sig.entry.Some? && sig.stop.Some? && sig.shares.Some?
  {
    Holding(sig.symbol, PosOpen, Some(id), sig.entry.value, sig.stop.value, None, sig.shares.value, 0.0)
  }

  function ApproveEntry(d: Desk, id: nat, market: Option<Market>, v: View): Decided
    requires id < |d.signals|
  {
    var sig := d.signals[id];
    if sig.stop.None? || sig.entry.None? || sig.shares.None? || sig.shares.value == 0 then Decided(d, Some(MissingFields))
    else if sig.structureId.None? || !sig.fromQuarter || sig.triggerTs.None? || sig.triggerLevel.None? then Decided(d, Some(MissingSource))
    else
      var r := ReconcilePending(d.signals, sig.symbol, if market.Some? then market.value else RiskOn, v);
      if r.correction.Some? then Decided(d.(signals := r.signals), Some(NoLongerValid))
      else if HasRow(d.holdings, sig.symbol) then Decided(d, Some(DuplicatePosition))
      else
        var d1 := d.(holdings := d.holdings + [HoldingOf(sig, id)]);
        Decided(WithStatus(SetState(d1, sig.symbol, DeskState.InPosition), id, SignalApproved), None)
  }

  function ApproveReduce(d: Desk, id: nat, until: int): (r: Desk)
    requires id < |d.signals|
    ensures r.signals == d.signals && |r.holdings| == |d.holdings|
  {
    var sig := d.signals[id];
    var at := OpenHolding(d.holdings, sig.symbol);
    if at.None? || sig.shares.None? || sig.shares.value == 0 then d
    else
      var h := d.holdings[at.value];
      var left := MaxInt(0, h.shares - sig.shares.value);
      if left == 0 then
        StartCooldown(d.(holdings := d.holdings[at.value := h.(shares := 0, status := PosClosed)]), sig.symbol, until)
      else
        SetState(d.(holdings := d.holdings[at.value := h.(shares := left)]), sig.symbol, DeskState.InPosition)
  }

  function ApproveExit(d: Desk, id: nat, until: int): (r: Desk)
    requires id < |d.signals|
    ensures r.signals == d.signals && |r.holdings| == |d.holdings|
  {
    var at := OpenHolding(d.holdings, d.signals[id].symbol);
    if at.None? then d
    else
      StartCooldown(d.(holdings := d.holdings[at.value := d.holdings[at.value].(status := PosClosed)]), d.signals[id].symbol, until)
  }

  /** `approve_signal`. */
  function Approve(d: Desk, id: nat, market: Option<Market>, today: int, v: View, cfg: RiskConfig): Decided {
    if id >= |d.signals| then Decided(d, Some(NotFound))
    else if !d.signals[id].status.Pending? then Decided(d, Some(NotPending))
    else
      match d.signals[id].kind
      case EntrySignal => ApproveEntry(d, id, market, v)
      case ReduceSignal => Decided(WithStatus(ApproveReduce(d, id, today + cfg.cooldownDays), id, SignalApproved), None)
      case ExitSignal => Decided(WithStatus(ApproveExit(d, id, today + cfg.cooldownDays), id, SignalApproved), None)
  }

  /** `reject_signal`, whatever the status of the signal. */
  function Reject(d: Desk, id: nat): Decided {
    if id >= |d.signals| then Decided(d, Some(NotFound)) else Decided(WithStatus(d, id, SignalRejected), None)
  }

  // ------------------------------------------------------- the method form

  /** The tables, changed in place. */
  class SignalDesk {
    var signals: seq<Signal>
    var holdings: seq<Holding>
    var records: map<Symbol, Record>

    constructor ()
      ensures Snapshot() == Desk([], [], map[])
    {
      signals, holdings, records := [], [], map[];
    }

    ghost function Snapshot(): Desk
      reads this
    {
      Desk(signals, holdings, records)
    }

    /** `_transition`, on a record that is created when missing. */
    method Transition(s: Symbol, state: DeskState)
      modifies this`records
      ensures Snapshot() == InState(old(Snapshot()), s, state)
    {
      var record := if s in records then records[s] else NEW_RECORD;
      records := records[s := record.(state := state)];
    }

    method EnterCooldown(s: Symbol, until: int)
      modifies this`records
      ensures Snapshot() == InCooldown(old(Snapshot()), s, until)
    {
      records := records[s := Record(Cooldown, Some(until))];
    }

    /** `reconcile_pending_entry`: the newest pending entry against structure, trigger, age and market. */
    method ReconcilePendingEntry(s: Symbol, market: Market, v: View) returns (correction: Option<Correction>)
      modifies this`signals
      ensures var r := ReconcilePending(old(signals), s, market, v); signals == r.signals && correction == r.correction
    {
      var at := NewestPending(signals, s);
      if at.None? {
        return None;
      }
      var signal := signals[at.value];
      var failure := EntryTriggerFailure(signal, v);
      if StructureLost(v.structures, signal.structureId) {
        correction := Some(Correction(CancelledByStructure, Cooldown, true));
      } else if failure.Some? {
        correction := Some(Correction(CancelledByTrigger, WaitTrigger, false));
      } else if |AfterTrigger(signal, v)| >= EXPIRY_BARS {
        correction := Some(Correction(Expired, WaitTrigger, false));
      } else if !Tradeable(market) {
        correction := Some(Correction(CancelledByMarket, Idle, false));
      } else {
        return None;
      }
      signals := signals[at.value := signal.(status := correction.value.status)];
    }

    /** `_create_exit_signal` and `_create_reduce_signal`. */
    method AddSignal(sig: Signal)
      modifies this`signals
      ensures Snapshot() == WithSignal(old(Snapshot()), sig)
    {
      if !PendingExists(signals, sig.symbol, sig.kind) {
        signals := signals + [sig];
      }
    }

    method SignalExit(h: Holding, now: Time)
      modifies this`signals, this`records
      ensures Snapshot() == WithExit(old(Snapshot()), h, now)
    {
      AddSignal(ExitOf(h, now));
      Transition(h.symbol, ExitCandidate);
    }

    /** `_manage_position`. */
    method ManagePosition(k: nat, bar: DailyBar, market: Market, v: View)
      requires k < |holdings|
      modifies this
      ensures Snapshot() == ManageHolding(old(Snapshot()), k, bar, market, v)
    {
      hide CurrentR, EffectiveStop, TriggerFailure, TrailedHolding, LatestOf, WithSignal, InState, ExitOf, ReduceOf;
      var h := holdings[k].(currentR := CurrentR(holdings[k], bar.close));
      holdings := holdings[k := h];
      if bar.close <= h.stop {
        SignalExit(h, v.now);
        return;
      }
      if h.entrySignal.Some? && h.entrySignal.value < |signals| {
        var failure := EntryTriggerFailure(signals[h.entrySignal.value], v);
        if failure.Some? {
          SignalExit(h, v.now);
          return;
        }
      }
      if !Tradeable(market) {
        if v.hourly.Some? && v.hourly.value.ma60.Some? && v.hourly.value.close < v.hourly.value.ma60.value {
          SignalExit(h, v.now);
          return;
        }
        if h.currentR > 0.0 {
          var raised := h.(trailing := Some(MaxReal(EffectiveStop(h), h.entry)));
          holdings := holdings[k := raised];
          assert holdings == old(holdings)[k := raised];
        }
        Transition(h.symbol, RiskProtection);
        return;
      }
      if LatestOf(v.structures, {TopStructure}).Some? && h.currentR > 0.0 {
        AddSignal(ReduceOf(h, v.now));
        Transition(h.symbol, RiskProtection);
        return;
      }
      if bar.ma60.Some? && bar.close < bar.ma60.value {
        SignalExit(h, v.now);
        return;
      }
      var q := TrailedHolding(h, bar.close, bar.atr, h.currentR, market);
      holdings := holdings[k := q];
      assert holdings == old(holdings)[k := q];
      if q.trailing.Some? && q.trailing.value != 0.0 && bar.close <= q.trailing.value {
        SignalExit(q, v.now);
        return;
      }
      Transition(h.symbol, DeskState.InPosition);
    }

    /** `_create_entry_candidate`. */
    method CreateEntryCandidate(s: Symbol, market: Market, id: nat, fired: Trigger, v: View, cfg: RiskConfig)
      requires id < |v.structures| && fired.Fired?
      modifies this`signals, this`records
      ensures Snapshot() == CreateEntry(old(Snapshot()), s, market, id, fired, v, cfg)
    {
      hide InState, StructureStop, PositionSize, PortfolioAllows, PendingExists;
      if PendingExists(signals, s, EntrySignal) {
        Transition(s, EntryCandidate);
        return;
      }
      var allowed := PortfolioAllowsNewPosition(holdings, s, cfg, v.industryOf);
      if !allowed {
        Transition(s, TrendOk);
        return;
      }
      var structure := v.structures[id];
      var stop := StructureStop(structure, v.hourlyAtr(structure.ts), fired.price, BottomTrendResume);
      if stop.None? {
        Transition(s, WaitTrigger);
        return;
      }
      var risk := CalculatePositionSize(cfg, fired.price, stop, market, BottomTrendResume, v.equity);
      if risk.None? {
        Transition(s, WaitTrigger);
        return;
      }
      signals := signals + [EntryOf(s, risk.value, id, fired, v.now)];
      Transition(s, EntryCandidate);
    }

    /** The structure part of `advance_state_machine`. */
    method FollowStructures(s: Symbol, market: Market, today: int, v: View, cfg: RiskConfig)
      modifies this`signals, this`records
      ensures Snapshot() == LookForEntry(old(Snapshot()), s, market, today, v, cfg)
    {
      hide InState, InCooldown, CreateEntry, EvaluateTrigger, LatestOf;
      var bottom := LatestOf(v.structures, {BottomStructure});
      var failure := LatestOf(v.structures, {BottomFailed});
      if bottom.Some? && failure.Some? && v.structures[failure.value].ts >= v.structures[bottom.value].ts {
        EnterCooldown(s, today + cfg.cooldownDays);
        return;
      }
      var latest := LatestOf(v.structures, {BottomPassivation, BottomStructure, BottomFailed, TopStructure, TopInvalidated});
      if latest.None? {
        Transition(s, TrendOk);
      } else if v.structures[latest.value].kind.BottomPassivation? {
        Transition(s, WatchBottom);
      } else if v.structures[latest.value].kind.BottomFailed? {
        EnterCooldown(s, today + cfg.cooldownDays);
      } else if bottom.None? {
        Transition(s, TrendOk);
      } else if v.structures[bottom.value].invalidated || v.structures[bottom.value].failed {
        EnterCooldown(s, today + cfg.cooldownDays);
      } else {
        var trigger := EvaluateTrigger(v.bars, v.structures[bottom.value]);
        match trigger
        case Fired(_, _, _) => CreateEntryCandidate(s, market, bottom.value, trigger, v, cfg);
        case StructureExpired => EnterCooldown(s, today + cfg.cooldownDays);
        case Waiting => Transition(s, WaitTrigger);
      }
    }

    /** `advance_state_machine`. */
    method AdvanceStateMachine(s: Symbol, market: Market, trend: Trend, today: int, v: View, cfg: RiskConfig)
      modifies this
      ensures Snapshot() == AdvanceSymbol(old(Snapshot()), s, market, trend, today, v, cfg)
    {
      hide InState, InCooldown, ReconcilePending, AdvanceUncorrected;
      ghost var before := signals;
      var correction := ReconcilePendingEntry(s, market, v);
      if correction.Some? {
        if correction.value.startCooldown {
          EnterCooldown(s, today + cfg.cooldownDays);
        } else {
          Transition(s, correction.value.target);
        }
        return;
      }
      UncorrectedIsUnchanged(before, s, market, v);
      AdvanceWithoutCorrection(s, market, trend, today, v, cfg);
    }

    method AdvanceWithoutCorrection(s: Symbol, market: Market, trend: Trend, today: int, v: View, cfg: RiskConfig)
      modifies this
      ensures Snapshot() == AdvanceUncorrected(old(Snapshot()), s, market, trend, today, v, cfg)
    {
      hide InState, InCooldown, ManageHolding, LookForEntry, OpenHolding, PendingExists, HoldsOpen;
      var record := if s in records then records[s] else NEW_RECORD;
      if record.cooldownUntil.Some? && record.cooldownUntil.value >= today {
        Transition(s, Cooldown);
        return;
      }
      if v.daily.None? {
        Transition(s, Idle);
        return;
      }
      var position := OpenHolding(holdings, s);
      if position.Some? {
        ManagePosition(position.value, v.daily.value, market, v);
        return;
      }
      if !Tradeable(market) {
        var blocked := record.state.WatchBottom? || record.state.BottomConfirmed? || record.state.WaitTrigger? || record.state.EntryCandidate?;
        Transition(s, if blocked then Cooldown else Idle);
        return;
      }
      if trend.OtherTrend? {
        Transition(s, Idle);
        return;
      }
      if PendingExists(signals, s, EntrySignal) {
        Transition(s, EntryCandidate);
        return;
      }
      FollowStructures(s, market, today, v, cfg);
    }

    /** `_set_state` and `_cooldown` of the approvals. */
    method ChangeState(s: Symbol, state: DeskState)
      modifies this`records
      ensures Snapshot() == SetState(old(Snapshot()), s, state)
    {
      if s in records {
        Transition(s, state);
      }
    }

    method CoolDown(s: Symbol, until: int)
      modifies this`records
      ensures Snapshot() == StartCooldown(old(Snapshot()), s, until)
    {
      if s in records {
        EnterCooldown(s, until);
      }
    }

    method OpenFromSignal(id: nat, market: Option<Market>, v: View) returns (refusal: Option<Refusal>)
      requires id < |signals|
      modifies this
      ensures Decided(Snapshot(), refusal) == ApproveEntry(old(Snapshot()), id, market, v)
    {
      hide ReconcilePending, SetState, HasRow;
      var signal := signals[id];
      if signal.stop.None? || signal.entry.None? || signal.shares.None? || signal.shares.value == 0 {
        return Some(MissingFields);
      }
      if signal.structureId.None? || !signal.fromQuarter || signal.triggerTs.None? || signal.triggerLevel.None? {
        return Some(MissingSource);
      }
      ghost var before := signals;
      var state := if market.Some? then market.value else RiskOn;
      var correction := ReconcilePendingEntry(signal.symbol, state, v);
      if correction.Some? {
        return Some(NoLongerValid);
      }
      UncorrectedIsUnchanged(before, signal.symbol, state, v);
      if HasRow(holdings, signal.symbol) {
        return Some(DuplicatePosition);
      }
      holdings := holdings + [HoldingOf(signal, id)];
      ChangeState(signal.symbol, DeskState.InPosition);
      signals := signals[id := signal.(status := SignalApproved)];
      refusal := None;
    }

    method ReduceFromSignal(id: nat, until: int)
      requires id < |signals|
      modifies this`holdings, this`records
      ensures Snapshot() == ApproveReduce(old(Snapshot()), id, until)
    {
      hide SetState, StartCooldown;
      var signal := signals[id];
      var position := OpenHolding(holdings, signal.symbol);
      if position.None? || signal.shares.None? || signal.shares.value == 0 {
        return;
      }
      var h := holdings[position.value];
      var left := MaxInt(0, h.shares - signal.shares.value);
      if left == 0 {
        holdings := holdings[position.value := h.(shares := 0, status := PosClosed)];
        CoolDown(signal.symbol, until);
      } else {
        holdings := holdings[position.value := h.(shares := left)];
        ChangeState(signal.symbol, DeskState.InPosition);
      }
    }

    /** `approve_signal`. */
    method ApproveSignal(id: nat, market: Option<Market>, today: int, v: View, cfg: RiskConfig) returns (refusal: Option<Refusal>)
      modifies this
      ensures Decided(Snapshot(), refusal) == Approve(old(Snapshot()), id, market, today, v, cfg)
    {
      hide ApproveEntry, ApproveReduce, StartCooldown;
      if id >= |signals| {
        return Some(NotFound);
      }
      if !signals[id].status.Pending? {
        return Some(NotPending);
      }
      match signals[id].kind {
        case EntrySignal =>
          refusal := OpenFromSignal(id, market, v);
          return;
        case ReduceSignal =>
          ReduceFromSignal(id, today + cfg.cooldownDays);
        case ExitSignal =>
          var position := OpenHolding(holdings, signals[id].symbol);
          if position.Some? {
            holdings := holdings[position.value := holdings[position.value].(status := PosClosed)];
            CoolDown(signals[id].symbol, today + cfg.cooldownDays);
          }
      }
      signals := signals[id := signals[id].(status := SignalApproved)];
      refusal := None;
    }

    /** `reject_signal`. */
    method RejectSignal(id: nat) returns (refusal: Option<Refusal>)
      modifies this`signals
      ensures Decided(Snapshot(), refusal) == Reject(old(Snapshot()), id)
    {
      if id >= |signals| {
        return Some(NotFound);
      }
      signals := signals[id := signals[id].(status := SignalRejected)];
      refusal := None;
    }
  }

  lemma UncorrectedIsUnchanged(signals: seq<Signal>, s: Symbol, market: Market, v: View)
    ensures var r := ReconcilePending(signals, s, market, v); r.correction.None? ==> r.signals == signals
  {
    hide CorrectionOf;
  }

  // ------------------------------------------------------------------- runs

  datatype Step =
    | AdvanceStep(symbol: Symbol, market: Market, trend: Trend, today: int, view: View)
    | ApproveStep(id: nat, latestMarket: Option<Market>, today: int, view: View)
    | RejectStep(id: nat, today: int)

  function Next(d: Desk, step: Step, cfg: RiskConfig): Desk {
    match step
    case AdvanceStep(s, market, trend, today, v) => AdvanceSymbol(d, s, market, trend, today, v, cfg)
    case ApproveStep(id, market, today, v) => Approve(d, id, market, today, v, cfg).desk
    case RejectStep(id, today) => Reject(d, id).desk
  }

  function RunDesk(d: Desk, steps: seq<Step>, cfg: RiskConfig): Desk {
    if steps == [] then d else Next(RunDesk(d, steps[..|steps| - 1], cfg), steps[|steps| - 1], cfg)
  }
}
