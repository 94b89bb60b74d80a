/** What an approval and a BUY order of the loop stand for. */
module EntryTheorems {
  import opened Common
  import opened Ledger
  import opened OrderSync
  import opened Approval

  // ------------------------------------------------ the order of the plans

  ghost predicate SortedPlans(plans: seq<Plan>, ids: seq<nat>) {
    && (forall k :: 0 <= k < |ids| ==> ids[k] < |plans|)
    && (forall j, k :: 0 <= j < k < |ids| ==> PlanBefore(plans, ids[j], ids[k]))
  }

  /** Adding a last id that no other follows keeps a list sorted. */
  lemma AppendSorts(plans: seq<Plan>, ids: seq<nat>, i: nat)
    requires i < |plans| && SortedPlans(plans, ids) && forall k :: 0 <= k < |ids| ==> PlanBefore(plans, ids[k], i)
    ensures SortedPlans(plans, ids + [i])
  {
    hide PlanBefore;
  }

  lemma BeforeIsTransitive(plans: seq<Plan>, i: nat, j: nat, k: nat)
    requires i < |plans| && j < |plans| && k < |plans| && PlanBefore(plans, i, j) && PlanBefore(plans, j, k)
    ensures PlanBefore(plans, i, k)
  {
  }

  lemma {:induction false} InsertIdSorts(plans: seq<Plan>, ids: seq<nat>, i: nat)
    requires i < |plans| && SortedPlans(plans, ids) && forall k :: 0 <= k < |ids| ==> ids[k] < i
    ensures SortedPlans(plans, InsertId(plans, ids, i))
    ensures forall x :: x in InsertId(plans, ids, i) <==> x == i || x in ids
  {
    if ids != [] {
      hide PlanBefore, TimeLess;
      var init, last := ids[..|ids| - 1], ids[|ids| - 1];
      assert ids == init + [last];
      if TimeLess(plans[i].lastValidated, plans[last].lastValidated) {
        InsertIdSorts(plans, init, i);
        var r := InsertId(plans, init, i);
        TimeLessIsBefore(plans, i, last);
        forall j | 0 <= j < |r| ensures PlanBefore(plans, r[j], last) {
          assert r[j] == i || r[j] in init;
        }
        AppendSorts(plans, r, last);
      } else {
        NotLaterIsBefore(plans, last, i);
        forall k | 0 <= k < |ids| ensures PlanBefore(plans, ids[k], i) {
          if k < |ids| - 1 {
            BeforeIsTransitive(plans, ids[k], last, i);
          }
        }
        AppendSorts(plans, ids, i);
      }
    }
  }

  lemma TimeLessIsBefore(plans: seq<Plan>, i: nat, j: nat)
    requires i < |plans| && j < |plans| && TimeLess(plans[i].lastValidated, plans[j].lastValidated)
    ensures PlanBefore(plans, i, j)
  {
  }

  lemma NotLaterIsBefore(plans: seq<Plan>, i: nat, j: nat)
    requires i < j < |plans| && !TimeLess(plans[j].lastValidated, plans[i].lastValidated)
    ensures PlanBefore(plans, i, j)
  {
  }

  lemma {:induction false} IdsAreSorted(plans: seq<Plan>, n: nat)
    requires n <= |plans|
    ensures SortedPlans(plans, IdsUpTo(plans, n))
    ensures forall i: nat :: i in IdsUpTo(plans, n) <==> i < n
  {
    hide PlanBefore, TimeLess, InsertId;
    if n > 0 {
      IdsAreSorted(plans, n - 1);
      InsertIdSorts(plans, IdsUpTo(plans, n - 1), n - 1);
    }
  }

  lemma LastComesLast(plans: seq<Plan>, ids: seq<nat>, kept: seq<nat>)
    requires ids != [] && SortedPlans(plans, ids)
    requires SortedPlans(plans, kept) && forall x :: x in kept ==> x in ids[..|ids| - 1]
    ensures SortedPlans(plans, kept + [ids[|ids| - 1]])
  {
    hide PlanBefore;
    forall k | 0 <= k < |kept| ensures PlanBefore(plans, kept[k], ids[|ids| - 1]) {
      assert kept[k] in kept;
      var j :| 0 <= j < |ids| - 1 && ids[..|ids| - 1][j] == kept[k];
      assert ids[j] == kept[k];
    }
    AppendSorts(plans, kept, ids[|ids| - 1]);
  }

  /** The approval list: the triggered plans, each once, by validation time then id. */
  lemma {:induction false} TriggeredIsSorted(plans: seq<Plan>, ids: seq<nat>)
    requires SortedPlans(plans, ids)
    ensures SortedPlans(plans, TriggeredOf(plans, ids))
  {
    hide PlanBefore;
    if ids != [] {
      TriggeredIsSorted(plans, ids[..|ids| - 1]);
      LastComesLast(plans, ids, TriggeredOf(plans, ids[..|ids| - 1]));
    }
  }

  /** The execution list: the executable plans, each once, in the same order. */
  lemma {:induction false} ExecutableIsSorted(plans: seq<Plan>, ids: seq<nat>)
    requires SortedPlans(plans, ids)
    ensures SortedPlans(plans, ExecutableOf(plans, ids))
  {
    hide PlanBefore, Executable;
    if ids != [] {
      ExecutableIsSorted(plans, ids[..|ids| - 1]);
      LastComesLast(plans, ids, ExecutableOf(plans, ids[..|ids| - 1]));
    }
  }

  // -------------------------------------------------------- the review loop

  /** Reviewing never changes what orders the plans, nor what they trade. */
  predicate SameIdentity(p: Plan, q: Plan) {
    p.lastValidated == q.lastValidated && p.symbol == q.symbol && p.direction == q.direction
  }

  ghost predicate SameIdentities(ps: seq<Plan>, qs: seq<Plan>) {
    |ps| == |qs| && forall i :: 0 <= i < |ps| ==> SameIdentity(ps[i], qs[i])
  }

  /**
   The loop from `db` over `ids` ended in `r`: everything before the approved plan was reviewed and
   is not executable, everything after it is untouched, and the decision was taken on `db` itself.
   */
  ghost predicate ReviewEffect(db: Db, ids: seq<nat>, rs: ReviewSetting, cfg: Config, r: Db, approved: Option<nat>)
    requires SortedPlans(db.plans, ids)
  {
    && SameIdentities(db.plans, r.plans) && r == db.(plans := r.plans)
    && (forall i :: 0 <= i < |db.plans| && i !in ids ==> r.plans[i] == db.plans[i])
    && match approved
       case None => forall i :: i in ids ==> !Executable(r.plans[i])
       case Some(p) => exists m :: 0 <= m < |ids| && ApprovedAt(db, ids, rs, cfg, r, p, m)
  }

  ghost predicate ApprovedAt(db: Db, ids: seq<nat>, rs: ReviewSetting, cfg: Config, r: Db, p: nat, m: nat)
    requires SortedPlans(db.plans, ids) && |r.plans| == |db.plans| && m < |ids|
  {
    && ids[m] == p && DecisionFor(db, p, rs, cfg).Approved? && r.plans[p] == Reviewed(Budgeted(db.plans[p], rs, cfg), Approved)
    && (forall k :: 0 <= k < m ==> !Executable(r.plans[ids[k]]))
    && (forall k :: m < k < |ids| ==> r.plans[ids[k]] == db.plans[ids[k]])
  }

  lemma ReviewOneEffect(db: Db, i: nat, rs: ReviewSetting, cfg: Config)
    requires i < |db.plans|
    ensures SameIdentities(db.plans, ReviewOne(db, i, rs, cfg).plans)
    ensures !DecisionFor(db, i, rs, cfg).Approved? ==> !Executable(ReviewOne(db, i, rs, cfg).plans[i])
    ensures forall j :: 0 <= j < |db.plans| && j != i ==>
      ReviewOne(db, i, rs, cfg).plans[j] == db.plans[j] && DecisionFor(ReviewOne(db, i, rs, cfg), j, rs, cfg) == DecisionFor(db, j, rs, cfg)
  {
  }

  lemma {:induction false} ReviewInOrder(db: Db, ids: seq<nat>, rs: ReviewSetting, cfg: Config)
    requires SortedPlans(db.plans, ids)
    ensures var (r, approved) := Review(db, ids, rs, cfg);
      ReviewEffect(db, ids, rs, cfg, r, approved)
    decreases ids
  {
    hide DecisionFor;
    if ids != [] {
      var i, rest := ids[0], ids[1..];
      var one := ReviewOne(db, i, rs, cfg);
      var (r, approved) := Review(db, ids, rs, cfg);
      ReviewOneEffect(db, i, rs, cfg);
      if DecisionFor(db, i, rs, cfg).Approved? {
        assert ApprovedAt(db, ids, rs, cfg, r, i, 0);
      } else {
        assert SortedPlans(one.plans, rest) by {
          forall j, k | 0 <= j < k < |rest| ensures PlanBefore(one.plans, rest[j], rest[k]) {
            assert PlanBefore(db.plans, ids[j + 1], ids[k + 1]);
          }
        }
        ReviewInOrder(one, rest, rs, cfg);
        FirstIsNotLater(db.plans, ids);
        if approved.Some? {
          var m :| 0 <= m < |rest| && ApprovedAt(one, rest, rs, cfg, r, approved.value, m);
          ReviewShift(db, ids, rs, cfg, r, approved.value, m);
        } else {
          assert r.plans[i] == one.plans[i];
        }
      }
    }
  }

  lemma FirstIsNotLater(plans: seq<Plan>, ids: seq<nat>)
    requires SortedPlans(plans, ids) && ids != []
    ensures ids[0] !in ids[1..]
  {
    forall k | 0 < k < |ids| ensures ids[k] != ids[0] {
      assert PlanBefore(plans, ids[0], ids[k]);
    }
  }

  lemma ReviewShift(db: Db, ids: seq<nat>, rs: ReviewSetting, cfg: Config, r: Db, p: nat, m: nat)
    requires ids != [] && SortedPlans(db.plans, ids) && m < |ids| - 1 && |r.plans| == |db.plans|
    requires !DecisionFor(db, ids[0], rs, cfg).Approved?
    requires SortedPlans(ReviewOne(db, ids[0], rs, cfg).plans, ids[1..])
    requires ApprovedAt(ReviewOne(db, ids[0], rs, cfg), ids[1..], rs, cfg, r, p, m)
    requires r.plans[ids[0]] == ReviewOne(db, ids[0], rs, cfg).plans[ids[0]]
    ensures ApprovedAt(db, ids, rs, cfg, r, p, m + 1)
  {
    ReviewOneEffect(db, ids[0], rs, cfg);
    FirstIsNotLater(db.plans, ids);
    assert p == ids[1..][m] && p in ids[1..];
    forall k | m + 1 < k < |ids| ensures r.plans[ids[k]] == db.plans[ids[k]] {
      assert ids[1..][k - 1] == ids[k] && ids[k] in ids[1..];
    }
    forall k | 0 <= k < m + 1 ensures !Executable(r.plans[ids[k]]) {
      if k > 0 {
        assert ids[1..][k - 1] == ids[k];
      }
    }
  }

  // --------------------------------------------- approval and execution agree

  lemma {:induction false} ExecutionListAfterReview(db: Db, rs: ReviewSetting, cfg: Config)
    ensures var (r, approved) := Review(db, TriggeredOf(db.plans, PlanIds(db.plans)), rs, cfg);
      var list := ExecutableOf(r.plans, PlanIds(r.plans));
      if approved.None? then list == []
      else approved.value < |db.plans| && list != [] && list[0] == approved.value
           && DecisionFor(db, approved.value, rs, cfg).Approved?
           && r.plans[approved.value] == Reviewed(Budgeted(db.plans[approved.value], rs, cfg), Approved)
  {
    hide PlanBefore, DecisionFor, SortedPlans;
    var ids := TriggeredOf(db.plans, PlanIds(db.plans));
    IdsAreSorted(db.plans, |db.plans|);
    TriggeredIsSorted(db.plans, PlanIds(db.plans));
    ReviewInOrder(db, ids, rs, cfg);
    var (r, approved) := Review(db, ids, rs, cfg);
    var list := ExecutableOf(r.plans, PlanIds(r.plans));
    IdsAreSorted(r.plans, |r.plans|);
    ExecutableIsSorted(r.plans, PlanIds(r.plans));
    forall i | i in list ensures i in ids {
      assert i in PlanIds(r.plans) && i < |db.plans|;
      assert i in PlanIds(db.plans);
    }
    if approved.None? {
      FirstIsMember(list);
    } else {
      var p := approved.value;
      var m :| 0 <= m < |ids| && ApprovedAt(db, ids, rs, cfg, r, p, m);
      assert ids[m] in ids && DecisionFor(db, p, rs, cfg).Approved?;
      ApprovedIsExecutable(db, p, rs, cfg);
      assert p in PlanIds(r.plans) && p in list;
      ApprovedComesFirst(db, ids, rs, cfg, r, p, m, list);
    }
  }

  lemma FirstIsMember(ids: seq<nat>)
    ensures ids == [] || ids[0] in ids
  {
  }

  lemma ApprovedIsExecutable(db: Db, i: nat, rs: ReviewSetting, cfg: Config)
    requires i < |db.plans| && DecisionFor(db, i, rs, cfg).Approved?
    ensures Executable(Reviewed(Budgeted(db.plans[i], rs, cfg), Approved))
  {
  }

  lemma ApprovedComesFirst(db: Db, ids: seq<nat>, rs: ReviewSetting, cfg: Config, r: Db, p: nat, m: nat, list: seq<nat>)
    requires SortedPlans(db.plans, ids) && SameIdentities(db.plans, r.plans) && m < |ids| && ApprovedAt(db, ids, rs, cfg, r, p, m)
    requires SortedPlans(r.plans, list) && p in list && forall i :: i in list ==> i in ids && Executable(r.plans[i])
    ensures list[0] == p
  {
    hide DecisionFor, Executable, PlanBefore;
    assert list[0] in list;
    var k :| 0 <= k < |ids| && ids[k] == list[0];
    forall j | m < j < |ids| ensures ids[j] != list[0] {
      assert PlanBefore(db.plans, p, ids[j]);
      LaterIsNotFirst(db.plans, r.plans, list, p, ids[j]);
    }
  }

  lemma LaterIsNotFirst(before: seq<Plan>, plans: seq<Plan>, list: seq<nat>, p: nat, q: nat)
    requires SameIdentities(before, plans) && SortedPlans(plans, list) && p in list
    requires p < |plans| && q < |plans| && PlanBefore(before, p, q)
    ensures list[0] != q
  {
    assert SameIdentity(before[p], plans[p]) && SameIdentity(before[q], plans[q]);
    assert PlanBefore(plans, p, q);
    var j :| 0 <= j < |list| && list[j] == p;
    assert j == 0 || PlanBefore(plans, list[0], p);
  }

  lemma {:induction false} AttemptsAreListed(db: Db, ids: seq<nat>, a: ExecutionAnswers, cfg: Config)
    requires forall k :: 0 <= k < |ids| ==> ids[k] < |db.plans|
    ensures var e := Execute(db, ids, a, cfg);
      && (forall i :: i in e.attempts ==> i in ids)
      && (match e.accepted
          case None => e.db.buyLog == db.buyLog
          case Some(i) => e.attempts != [] && e.attempts[|e.attempts| - 1] == i && e.db.buyLog == db.buyLog + [a.at(i)])
    decreases ids
  {
    if ids != [] {
      var one := ExecuteOne(db, ids[0], a, cfg);
      if one.accepted.None? {
        AttemptsAreListed(one.db, ids[1..], a, cfg);
      }
    }
  }

  /** What the loop actually buys, given the plan it approved. */
  ghost predicate BuysTheApproved(reviewed: Db, approved: Option<nat>, e: Execution, cfg: Config) {
    match approved
    case None => e.attempts == [] && e.accepted.None?
    case Some(p) =>
      && p < |reviewed.plans|
      && ((e.attempts != [] && e.attempts[0] == p) <==> EntrySize(reviewed.plans[p], cfg) > 0)
      && (EntrySize(reviewed.plans[p], cfg) <= 0 ==> p !in e.attempts)
  }

  /** Executing a list headed by the approved plan. */
  lemma ExecutionOfTheApproved(reviewed: Db, list: seq<nat>, a: ExecutionAnswers, cfg: Config)
    requires forall k :: 0 <= k < |list| ==> list[k] < |reviewed.plans|
    requires list != [] && list[0] !in list[1..] && !HasWorkingOrder(reviewed.orders, reviewed.plans[list[0]].symbol)
    ensures var e := Execute(reviewed, list, a, cfg);
      && ((e.attempts != [] && e.attempts[0] == list[0]) <==> EntrySize(reviewed.plans[list[0]], cfg) > 0)
      && (EntrySize(reviewed.plans[list[0]], cfg) <= 0 ==> list[0] !in e.attempts)
  {
    hide EntrySize, HasWorkingOrder, EntryOrder;
    var one := ExecuteOne(reviewed, list[0], a, cfg);
    if one.accepted.None? {
      AttemptsAreListed(one.db, list[1..], a, cfg);
    }
  }

  lemma ExecutionListIsDistinct(plans: seq<Plan>)
    ensures var list := ExecutableOf(plans, PlanIds(plans)); list != [] ==> list[0] !in list[1..]
  {
    var list := ExecutableOf(plans, PlanIds(plans));
    IdsAreSorted(plans, |plans|);
    ExecutableIsSorted(plans, PlanIds(plans));
    if list != [] {
      FirstIsNotLater(plans, list);
    }
  }

  /**
   Nothing is bought unless something was approved, at most one BUY is accepted, and the first BUY
   attempted is on the approved plan exactly when that plan sizes to at least one share.
   */
  lemma ApprovalAndExecutionAgree(db: Db, rs: ReviewSetting, a: ExecutionAnswers, cfg: Config)
    ensures var (reviewed, approved) := Review(db, TriggeredOf(db.plans, PlanIds(db.plans)), rs, cfg);
      var e := ExecuteApproved(reviewed, a, cfg);
      && BuysTheApproved(reviewed, approved, e, cfg)
      && e.db.buyLog == db.buyLog + (if e.accepted.Some? then [a.at(e.accepted.value)] else [])
      && (e.accepted.Some? ==> e.accepted.value in e.attempts)
  {
    hide Review, ExecutableOf, TriggeredOf, PlanIds, Execute, EntrySize, DecisionFor, HasWorkingOrder, Executable, PlanBefore;
    var (reviewed, approved) := Review(db, TriggeredOf(db.plans, PlanIds(db.plans)), rs, cfg);
    var list := ExecutableOf(reviewed.plans, PlanIds(reviewed.plans));
    ExecutionListAfterReview(db, rs, cfg);
    AttemptsAreListed(reviewed, list, a, cfg);
    ExecutionListIsDistinct(reviewed.plans);
    if approved.Some? {
      ApprovedWasFundable(db, approved.value, rs, cfg);
      ExecutionOfTheApproved(reviewed, list, a, cfg);
    } else {
      FirstIsMember(Execute(reviewed, list, a, cfg).attempts);
    }
  }

  lemma ApprovedWasFundable(db: Db, i: nat, rs: ReviewSetting, cfg: Config)
    requires i < |db.plans| && DecisionFor(db, i, rs, cfg).Approved?
    ensures cfg.enableSim && CapitalAllows(db, db.plans[i], rs.portfolio, cfg)
    ensures !HasWorkingOrder(db.orders, db.plans[i].symbol)
  {
  }

  /** A plan whose risk per share, 20, is above the risk budget of a small account: it sizes to nothing. */
  const THIN_PLAN := Plan("US.A", Long, S, Triggered, Some(500.0), Some(520.0), 480.0, 540.0, 560.0, Some(505.0), Some(101), NotReviewed, None, None, None)
  /** A plan whose risk per share is 2, approved and bought in an earlier iteration. */
  const BOUGHT_PLAN := Plan("US.B", Long, S, OrderSubmitted, Some(500.0), Some(520.0), 498.0, 540.0, 560.0, Some(505.0), Some(0), Approved, None, Some(400.0), Some(0))
  /** The same plan after its order was cancelled and its price triggered it again. */
  const STALE_PLAN := BOUGHT_PLAN.(status := Triggered, lastValidated := Some(102))
  const TIMED_OUT_BUY := Order(Some(1), "US.B", Buy, 2, 505.0, 505.0, 0, "B1", Submitted, EntryNote, 0, None, 0)
  const CANCELLED_BUY := TIMED_OUT_BUY.(status := Cancelled, note := OtherNote)
  const SOME_CONFIG := Config(60, 120, 3, 14400, 0.03, 0.02, true, 1, 0.4, 0.005, 0.002, 3, true, false, 60, 30)
  const SOME_PORTFOLIO := Portfolio(CapitalAvailable, 1000.0, 1000.0, 0, true)
  const BEFORE_CANCEL := Db([TIMED_OUT_BUY], [], [THIN_PLAN, BOUGHT_PLAN], [], [], Some(Gate(true, Info, Normal, 0, 0, 0)), [0], [])
  const SOME_TABLES := BEFORE_CANCEL.(orders := [CANCELLED_BUY], plans := [THIN_PLAN, STALE_PLAN])

  /** A cancelled BUY arms its plan and leaves its approval, which survives the plan's next trigger. */
  lemma CancelledBuyLeavesApproval(a: OrderAnswers, v: ValidationAnswers)
    requires a.cancel(0).CancelAccepted? && a.at(0) == 61
    requires v.quote("US.B").Some? && v.quote("US.B").value.current == 505.0 && !v.cooling("US.B") && v.at(1) == 102
    ensures var db := SyncOne(BEFORE_CANCEL, [], 0, [], a, SOME_CONFIG.entryTimeout);
      && db.orders == SOME_TABLES.orders && |db.plans| == 2 && db.plans[1].status.Armed?
      && ValidatedPlan(WithPortfolio(db.plans[1], SOME_PORTFOLIO, SOME_CONFIG), 1, v) == STALE_PLAN
  {
  }

  function SomeSetting(): ReviewSetting {
    ReviewSetting(map[0 := Context(505.0, true, 0.0, true, Some(true), true, RiskOn)],
      SOME_PORTFOLIO, _ => ReviewAnswers(103, 1, 720, false))
  }

  lemma ThinPlanIsApproved()
    ensures DecisionFor(SOME_TABLES, 0, SomeSetting(), SOME_CONFIG).Approved?
    ensures EntrySize(Reviewed(Budgeted(THIN_PLAN, SomeSetting(), SOME_CONFIG), Approved), SOME_CONFIG) <= 0
  {
    assert SOME_TABLES.buyLog == [0] && [0][..0] == [];
    assert BoughtOn([], 0) == 0 && BoughtOn([0], 0) == 1;
  }

  lemma PairIds(plans: seq<Plan>)
    requires |plans| == 2 && plans[0].lastValidated == Some(101) && plans[1].lastValidated == Some(102)
    ensures PlanIds(plans) == [0, 1]
  {
    assert IdsUpTo(plans, 0) == [];
    assert IdsUpTo(plans, 1) == InsertId(plans, [], 0);
    assert IdsUpTo(plans, 1) == [0];
    assert InsertId(plans, [0], 1) == [0] + [1];
  }

  lemma TriggeredPair(plans: seq<Plan>)
    requires |plans| == 2 && plans[0].status.Triggered? && plans[1].status.Triggered?
    ensures TriggeredOf(plans, [0, 1]) == [0, 1]
  {
    assert [0, 1][..1] == [0] && [0][..0] == [];
    assert TriggeredOf(plans, []) == [];
    assert TriggeredOf(plans, [0]) == [0];
  }

  lemma ExecutablePair(plans: seq<Plan>)
    requires |plans| == 2 && Executable(plans[0]) && Executable(plans[1])
    ensures ExecutableOf(plans, [0, 1]) == [0, 1]
  {
    assert [0, 1][..1] == [0] && [0][..0] == [];
    assert ExecutableOf(plans, []) == [];
    assert ExecutableOf(plans, [0]) == [0];
  }

  lemma ExecutePair(db: Db, a: ExecutionAnswers, cfg: Config)
    requires |db.plans| == 2 && ExecuteOne(db, 0, a, cfg).accepted.None?
    ensures ExecuteOne(ExecuteOne(db, 0, a, cfg).db, 1, a, cfg).accepted.Some?
      ==> Execute(db, [0, 1], a, cfg).accepted == ExecuteOne(ExecuteOne(db, 0, a, cfg).db, 1, a, cfg).accepted
  {
    assert [0, 1][0] == 0 && [0, 1][1..] == [1] && [1][0] == 1;
  }

  /**
   A plan with an approval left over from a cancelled order is bought when the approved one sizes to
   nothing: plan 0 is the one approved, and plan 1 gets the BUY.
   */
  lemma {:induction false} StaleApprovalCanBeBought(a: ExecutionAnswers)
    requires a.place(1).Accepted?
    ensures var db := SOME_TABLES;
      var (reviewed, approved) := Review(db, TriggeredOf(db.plans, PlanIds(db.plans)), SomeSetting(), SOME_CONFIG);
      approved == Some(0) && ExecuteApproved(reviewed, a, SOME_CONFIG).accepted == Some(1)
  {
    hide DecisionFor, EntrySize, ExecuteApproved, TriggeredOf, PlanIds;
    var db, rs, cfg := SOME_TABLES, SomeSetting(), SOME_CONFIG;
    ThinPlanIsApproved();
    PairIds(db.plans);
    TriggeredPair(db.plans);
    ReviewPair(db, rs, cfg);
    StalePlanSizesToTwo();
    StaleApprovalExecutes(ReviewOne(db, 0, rs, cfg), a, cfg);
  }

  lemma ReviewPair(db: Db, rs: ReviewSetting, cfg: Config)
    requires |db.plans| == 2 && DecisionFor(db, 0, rs, cfg).Approved?
    ensures Review(db, [0, 1], rs, cfg) == (ReviewOne(db, 0, rs, cfg), Some(0))
  {
    hide DecisionFor;
  }

  lemma StalePlanSizesToTwo()
    ensures EntrySize(STALE_PLAN, SOME_CONFIG) == 2
  {
  }

  lemma {:induction false} StaleApprovalExecutes(db: Db, a: ExecutionAnswers, cfg: Config)
    requires cfg.enableSim && db.orders == [CANCELLED_BUY] && |db.plans| == 2 && Executable(db.plans[0]) && Executable(db.plans[1])
    requires db.plans[0].lastValidated == Some(101) && db.plans[1].lastValidated == Some(102)
    requires EntrySize(db.plans[0], cfg) <= 0 && EntrySize(db.plans[1], cfg) > 0 && a.place(1).Accepted?
    ensures ExecuteApproved(db, a, cfg).accepted == Some(1)
  {
    PairIds(db.plans);
    ExecutablePair(db.plans);
    ExecutePair(db, a, cfg);
  }
}
