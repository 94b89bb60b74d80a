/** Two scheduled runs of the loop: one that attains the bound on exit orders, one that exceeds it. */
module ExitRuns {
  import opened Common
  import opened Ledger
  import opened OrderSync
  import opened PositionSync
  import opened PositionManager
  import opened Reconciler
  import opened SimLoop
  import opened ExitChain
  import opened ExitRetries

  /** Ten shares bought at 100 with a stop at 95. */
  const STOPPED := Position("US.A", Open, 100.0, 95.0, None, 10, 10, LocalAndFutuConfirmed, false, None, None, None, None, None, false,
                            None, None, None, 0.0, 0.0, 0.0, Some(0), NoExit, None, None, false)
  const STOPPED_TABLES := Db([], [STOPPED], [], [], [], None, [], [])

  /** The position as managing leaves it below its stop: its levels, shares and links stay. */
  predicate StaysStopped(p: Position) {
    p == STOPPED.(currentPrice := p.currentPrice, currentR := p.currentR, maxR := p.maxR, minR := p.minR, exitMark := p.exitMark)
  }

  predicate StoppedOut(db: Db) {
    db.plans == [] && |db.positions| == 1 && StaysStopped(db.positions[0])
  }

  function Falling(now: Time, later: Time): ManageAnswers {
    ManageAnswers(Some(Quote(90.0, 90.0)), ReadError, Accepted("S"), false, now, later, later)
  }

  /** An iteration that hears of no order, deal or position, at a price below the stop; `a` answers the rest. */
  function Tick(a: LoopAnswers, now: Time, later: Time): LoopAnswers {
    a.(orders := OrderAnswers(Got([]), DealsUnsupported, _ => CancelRefused, _ => now),
       positions := PositionAnswers(ReadError, now), quotesOk := true, manage := _ => Falling(now, later))
  }

  /** The exit order such an iteration submits. */
  function StopExit(at: Time, retries: nat): Order {
    Order(None, "US.A", Sell, 10, 90.0, 90.0, at, "S", Submitted, ExitNote(HardStop, false), 0, None, retries)
  }

  function AsWaiting(o: Order): Order {
    o.(status := SellWaiting, note := ExitNote(HardStop, true))
  }

  /** A SELL no remote row mentions times out or stays. */
  function AfterSilence(o: Order, now: Time, timeout: int): Order {
    if o.status.Submitted? && o.submittedAt < now - timeout then AsWaiting(o) else o
  }

  predicate IsStopExit(o: Order) {
    o == StopExit(o.submittedAt, o.retryCount) || o == AsWaiting(StopExit(o.submittedAt, o.retryCount))
  }

  lemma {:induction false} SilentSync(db: Db, a: OrderAnswers, timeout: int, now: Time, n: nat)
    requires n <= |db.orders| && db.plans == [] && forall i :: 0 <= i < |db.orders| ==> IsStopExit(db.orders[i])
    requires forall i :: a.at(i) == now
    ensures var r := SyncUpTo(db, [], a, timeout, n);
      && r.positions == db.positions && r.plans == []
      && forall i :: 0 <= i < |db.orders| ==> r.orders[i] == if i < n then AfterSilence(db.orders[i], now, timeout) else db.orders[i]
  {
    if n > 0 {
      SilentSync(db, a, timeout, now, n - 1);
    }
  }

  function MidOrders(os: seq<Order>, now: Time, timeout: int): (r: seq<Order>)
    ensures |r| == |os| && forall i :: 0 <= i < |os| ==> r[i] == AfterSilence(os[i], now, timeout)
  {
    seq(|os|, i requires 0 <= i < |os| => AfterSilence(os[i], now, timeout))
  }

  lemma ManagedStop(db: Db, now: Time, later: Time, cfg: Config) returns (q: Position)
    requires StoppedOut(db)
    ensures q.symbol == "US.A" && StillHeld(q, ReadError)
    ensures var r, slot := ManageOne(db, 0, Falling(now, later), cfg), ExitSlot(db.orders, q, Falling(now, later), cfg);
      StoppedOut(r) && r.orders == if slot.Some? then db.orders + [StopExit(later, slot.value)] else db.orders
  {
    hide ExitSlot;
    var marked := Marked(db.positions[0], 90.0, cfg);
    q := Trailed(marked, 90.0, cfg);
    assert CurrentPrice(db.positions[0], Some(Quote(90.0, 90.0))) == 90.0;
    assert FinalIntent(marked, 90.0, false, cfg) == Exit(10, HardStop);
  }

  lemma NothingToEnter(db: Db, a: LoopAnswers, cfg: Config)
    requires db.plans == []
    ensures var r := EntryStages(db, a, cfg).db; r.plans == [] && r.orders == db.orders && r.positions == db.positions
  {
  }

  /** One such iteration: exits time out, and another is submitted if its slot is granted. */
  lemma TickSubmits(db: Db, a: LoopAnswers, now: Time, later: Time, cfg: Config) returns (q: Position)
    requires StoppedOut(db) && !cfg.enableReal && forall i :: 0 <= i < |db.orders| ==> IsStopExit(db.orders[i])
    ensures q.symbol == "US.A" && StillHeld(q, ReadError)
    ensures var mid := MidOrders(db.orders, now, cfg.entryTimeout);
      var r, slot := Iterate(db, Tick(a, now, later), cfg).db, ExitSlot(mid, q, Falling(now, later), cfg);
      StoppedOut(r) && r.orders == if slot.Some? then mid + [StopExit(later, slot.value)] else mid
  {
    hide ExitSlot, Reconcile, EntryStages, StillHeld, ManageOne, SyncUpTo, StaysStopped;
    var t := Tick(a, now, later);
    var n := |db.orders|;
    SilentSync(db, t.orders, cfg.entryTimeout, now, n);
    var synced := SyncUpTo(db, [], t.orders, cfg.entryTimeout, n);
    assert synced.orders == MidOrders(db.orders, now, cfg.entryTimeout);
    assert SyncOrders(db, t.orders, cfg.entryTimeout) == Got(synced);
    var rec := ReconciledDb(db, t, cfg);
    assert rec.orders == synced.orders && StoppedOut(rec);
    q := ManagedStop(rec, now, later, cfg);
    assert ManageUpTo(rec, t.manage, cfg, 0) == rec;
    var managed := ManagedDb(db, t, cfg);
    assert managed == ManageOne(rec, 0, Falling(now, later), cfg);
    NothingToEnter(managed, t, cfg);
  }

  /** The two clock readings an iteration takes its cutoffs from. */
  datatype Cutoffs = Cutoffs(now: Time, later: Time)

  function Ticks(a: LoopAnswers, cutoffs: seq<Cutoffs>): (run: seq<LoopAnswers>)
    ensures |run| == |cutoffs| && forall k :: 0 <= k < |run| ==> run[k] == Tick(a, cutoffs[k].now, cutoffs[k].later)
  {
    seq(|cutoffs|, k requires 0 <= k < |cutoffs| => Tick(a, cutoffs[k].now, cutoffs[k].later))
  }

  lemma TicksAreScheduled(a: LoopAnswers, cutoffs: seq<Cutoffs>, ticks: seq<Time>)
    requires |ticks| == |cutoffs| + 1 && forall k :: 0 <= k < |cutoffs| ==> ticks[k] <= cutoffs[k].now <= cutoffs[k].later && cutoffs[k].now <= ticks[k + 1]
    ensures Scheduled(Ticks(a, cutoffs), ticks)
  {
  }

  lemma TicksAreSilent(db: Db, a: LoopAnswers, cutoffs: seq<Cutoffs>, cfg: Config)
    ensures SilentRun(db, Ticks(a, cutoffs), cfg, "US.A")
  {
    hide Run;
  }

  lemma SameReadsNeverCross(db: Db, a: LoopAnswers, cutoffs: seq<Cutoffs>, cfg: Config)
    requires forall k :: 0 <= k < |cutoffs| ==> cutoffs[k].later == cutoffs[k].now
    ensures NeverCrosses(db, Ticks(a, cutoffs), cfg, "US.A")
  {
    hide Run, SyncOrders, ReconciledDb;
  }

  /** The first exit is always granted. */
  lemma FirstExit(a: LoopAnswers, at: Time, cfg: Config)
    requires !cfg.enableReal
    ensures var r := Iterate(STOPPED_TABLES, Tick(a, at, at), cfg).db; StoppedOut(r) && r.orders == [StopExit(at, 0)]
  {
    hide Iterate;
    var q := TickSubmits(STOPPED_TABLES, a, at, at, cfg);
  }

  /** An exit that waited out the window is retried. */
  lemma SecondExit(db: Db, a: LoopAnswers, cfg: Config)
    requires cfg.entryTimeout == 60 && cfg.sellRetry == 120 && cfg.maxExitRetries == 1 && !cfg.enableReal
    requires StoppedOut(db) && db.orders == [StopExit(0, 0)]
    ensures var r := Iterate(db, Tick(a, 120, 120), cfg).db;
      StoppedOut(r) && r.orders == [AsWaiting(StopExit(0, 0)), StopExit(120, 1)]
  {
    hide Iterate;
    var first := AsWaiting(StopExit(0, 0));
    var q := TickSubmits(db, a, 120, 120, cfg);
    assert MidOrders(db.orders, 120, 60) == [first];
    assert IsRetryable([first][0], q, 0);
  }

  /** The second exit is still inside the window, so the first is retried again. */
  lemma ThirdExit(db: Db, a: LoopAnswers, cfg: Config)
    requires cfg.entryTimeout == 60 && cfg.sellRetry == 120 && cfg.maxExitRetries == 1 && !cfg.enableReal
    requires StoppedOut(db) && db.orders == [AsWaiting(StopExit(0, 0)), StopExit(120, 1)]
    ensures Iterate(db, Tick(a, 181, 181), cfg).db.orders == [AsWaiting(StopExit(0, 0)), AsWaiting(StopExit(120, 1)), StopExit(181, 1)]
  {
    hide Iterate, ExitSlot;
    var q := TickSubmits(db, a, 181, 181, cfg);
    var first, second := AsWaiting(StopExit(0, 0)), AsWaiting(StopExit(120, 1));
    assert MidOrders(db.orders, 181, 60) == [first, second];
    OlderExitIsRetriedAgain(q, Falling(181, 181), first, second, cfg);
  }

  /** Cutoff reads at 119 and 120 both overlook an exit that has waited since 0. */
  lemma OverlookedExit(db: Db, a: LoopAnswers, cfg: Config)
    requires cfg.entryTimeout == 60 && cfg.sellRetry == 120 && cfg.maxExitRetries == 0 && !cfg.enableReal
    requires StoppedOut(db) && db.orders == [StopExit(0, 0)]
    ensures Iterate(db, Tick(a, 119, 120), cfg).db.orders == [AsWaiting(StopExit(0, 0)), StopExit(120, 0)]
  {
    hide Iterate, ExitSlot;
    var first := AsWaiting(StopExit(0, 0));
    var q := TickSubmits(db, a, 119, 120, cfg);
    assert MidOrders(db.orders, 119, 60) == [first];
    CrossingExitIsRepeated(q, Falling(119, 120), first, cfg);
  }

  /**
   The bound is attained, and one exit per permitted count is not a bound: with one retry, timeout 60
   and window 120, a silent run in which nothing crosses submits three exits, at 0, 120 and 181.
   */
  lemma ThreeExitsWithOneRetry(a: LoopAnswers, cfg: Config)
    requires cfg.entryTimeout == 60 && cfg.sellRetry == 120 && cfg.maxExitRetries == 1 && !cfg.enableReal
    ensures var run := Ticks(a, [Cutoffs(0, 0), Cutoffs(120, 120), Cutoffs(181, 181)]);
      && Scheduled(run, [0, 120, 181, 182]) && SilentRun(STOPPED_TABLES, run, cfg, "US.A") && NeverCrosses(STOPPED_TABLES, run, cfg, "US.A")
      && |Exits(Run(STOPPED_TABLES, run, cfg).orders, "US.A", 0)| == 3 == 1 + cfg.maxExitRetries * PerCount(60, 120)
  {
    hide Iterate, Scheduled, SilentRun, NeverCrosses, StoppedOut;
    var cutoffs := [Cutoffs(0, 0), Cutoffs(120, 120), Cutoffs(181, 181)];
    TicksAreScheduled(a, cutoffs, [0, 120, 181, 182]);
    TicksAreSilent(STOPPED_TABLES, a, cutoffs, cfg);
    SameReadsNeverCross(STOPPED_TABLES, a, cutoffs, cfg);
    FirstExit(a, 0, cfg);
    var db1 := Iterate(STOPPED_TABLES, Tick(a, 0, 0), cfg).db;
    SecondExit(db1, a, cfg);
    var db2 := Iterate(db1, Tick(a, 120, 120), cfg).db;
    ThirdExit(db2, a, cfg);
    var run := Ticks(a, cutoffs);
    RunOfTwo(STOPPED_TABLES, run[..2], cfg);
    assert run[..2][0] == run[0] && run[..2][1] == run[1];
    assert Run(STOPPED_TABLES, run, cfg) == Iterate(db2, Tick(a, 181, 181), cfg).db;
    ThreeRowsThreeExits(AsWaiting(StopExit(0, 0)), AsWaiting(StopExit(120, 1)), StopExit(181, 1));
  }

  lemma RunOfTwo(db: Db, run: seq<LoopAnswers>, cfg: Config)
    requires |run| == 2
    ensures Run(db, run, cfg) == Iterate(Iterate(db, run[0], cfg).db, run[1], cfg).db
  {
    hide Iterate;
    var init := run[..1];
    assert init[..0] == [];
    assert Run(db, init, cfg) == Iterate(db, run[0], cfg).db;
  }

  lemma TwoRowsTwoExits(first: Order, second: Order)
    requires IsExit(first, "US.A") && IsExit(second, "US.A")
    ensures Exits([first, second], "US.A", 0) == [first, second]
  {
    assert [first, second][..1] == [first] && [first][..0] == [];
    assert Exits([], "US.A", 0) == [];
    assert Exits([first], "US.A", 0) == [first];
  }

  lemma ThreeRowsThreeExits(first: Order, second: Order, third: Order)
    requires IsExit(first, "US.A") && IsExit(second, "US.A") && IsExit(third, "US.A")
    ensures Exits([first, second, third], "US.A", 0) == [first, second, third]
  {
    TwoRowsTwoExits(first, second);
    assert [first, second, third][..2] == [first, second];
  }

  /**
   A silent run in which an exit does cross exceeds the bound: with window 120 and no retry permitted,
   a second exit goes out.
   */
  lemma CrossingRunExceedsBound(a: LoopAnswers, cfg: Config)
    requires cfg.entryTimeout == 60 && cfg.sellRetry == 120 && cfg.maxExitRetries == 0 && !cfg.enableReal
    ensures var run := Ticks(a, [Cutoffs(0, 0), Cutoffs(119, 120)]);
      && Scheduled(run, [0, 119, 120]) && SilentRun(STOPPED_TABLES, run, cfg, "US.A")
      && |Exits(Run(STOPPED_TABLES, run, cfg).orders, "US.A", 0)| == 2 > 1 + cfg.maxExitRetries * PerCount(60, 120)
  {
    hide Iterate, Scheduled, SilentRun, StoppedOut;
    var cutoffs := [Cutoffs(0, 0), Cutoffs(119, 120)];
    TicksAreScheduled(a, cutoffs, [0, 119, 120]);
    TicksAreSilent(STOPPED_TABLES, a, cutoffs, cfg);
    FirstExit(a, 0, cfg);
    var db1 := Iterate(STOPPED_TABLES, Tick(a, 0, 0), cfg).db;
    OverlookedExit(db1, a, cfg);
    RunOfTwo(STOPPED_TABLES, Ticks(a, cutoffs), cfg);
    TwoRowsTwoExits(AsWaiting(StopExit(0, 0)), StopExit(120, 0));
  }
}
