/** A concrete pursuit whose second plan is blocked as it arrives. */
module PursuitWitnesses {
  import opened Text
  import opened DependencyGraph
  import opened PursuitState
  import opened PursuitProgress
  import opened PursuitInvariant
  import opened PursuitSteps
  import opened PursuitClosing
  import opened PursuitReconcile
  import opened PursuitEffects
  import opened WorkflowRun
  import opened WorkflowSafety
  import opened WorkflowInvariant
  import opened WorkflowRecords
  import opened PursuitTheorems
  import opened PursuitAccounts
  import opened PursuitChanges

  // The first plan has one item, whose worker fails; the plan of the second attempt depends
  // on it.

  const FIRST_PLAN := PlannerPayload("first", None, None, [ItemSpec("a", [])])
  const SECOND_PLAN := PlannerPayload("second", None, None, [ItemSpec("b", ["a"])])
  const FAILING := WorkerPayload("tried", false, "did not work")

  // ----- unfinished runs ------------------------------------------------------------------

  predicate Uninterrupted(ops: seq<Op>) {
    forall x :: 0 <= x < |ops| ==> !ops[x].Interrupt?
  }

  predicate EndedCancelled(run: Run) {
    run.finished.Some? && run.finished.value.CancelledOutcome?
  }

  lemma ValidatedNotCancelled(run: Run, e: nat, st: Settlement)
    requires e < |run.nodes| && (st.Completed? ==> FitsSchema(run.nodes[e].meta, st.payload)) && !EndedCancelled(run)
    ensures !EndedCancelled(ApplyValidated(run, e, st, true))
  {
    EvaluateShape(run, e, st);
    hide Evaluate;
    hide Dispatches;
    hide Reconcile;
    hide ApplySettlement;
  }

  lemma StepNotCancelled(run: Run, op: Op)
    requires !op.Interrupt? && !EndedCancelled(run)
    ensures !EndedCancelled(Step(run, op, true))
  {
    hide ApplyValidated;
    hide ValidationError;
    match op {
      case Submit(e, payload) =>
        if e < |run.nodes| && SubmitRefusal(run, e, payload).None? {
          var entry := run.nodes[e].(status := EntryCompleted, accepted := Some(payload));
          ValidatedNotCancelled(Emit(run, OutcomeReceived).(nodes := run.nodes[e := entry]), e, Completed(payload));
        }
      case Report(e, st) =>
        if e < |run.nodes| && !st.Completed? {
          ValidatedNotCancelled(run.(nodes := run.nodes[e := run.nodes[e].(status := StatusOf(st))]), e, st);
        }
    }
  }

  lemma {:induction false} NotCancelled(args: Args, ops: seq<Op>)
    requires ValidArgs(args) && Uninterrupted(ops)
    ensures !EndedCancelled(Exec(args, true, ops))
  {
    ExecUnfolds(args, true, ops);
    hide Exec;
    hide Step;
    if ops == [] {
      hide Dispatches;
    } else {
      var front := ops[..|ops| - 1];
      NotCancelled(args, front);
      StepNotCancelled(Exec(args, true, front), ops[|ops| - 1]);
    }
  }

  /** A pursuit with a leg at work has not ended, unless it was interrupted. */
  lemma AtWork(args: Args, ops: seq<Op>)
    requires ValidArgs(args) && Uninterrupted(ops)
    requires |Exec(args, true, ops).state.legs| >= 1 && Last(Exec(args, true, ops).state.legs).status == Running
    ensures Exec(args, true, ops).finished.None?
  {
    hide Exec;
    ExecKeepsInv(args, ops);
    NotCancelled(args, ops);
    hide LegShape;
    hide PursuitShape;
    hide TimelineOk;
    hide LogOk;
    hide LaunchesOk;
  }

  // ----- the start ---------------------------------------------------------------------------

  lemma StartedState(args: Args)
    requires ValidArgs(args)
    ensures var run := Exec(args, true, []);
      run.finished.None? && run.applied == [] && run.state == CreateInitialState(args)
  {
    ExecUnfolds(args, true, []);
    hide Exec;
    var s := CreateInitialState(args);
    var none := RunningOf([]);
    assert none.plans == {};
    assert s.legs[..0] == [];
    assert AllDispatches(s.legs, none, true) == [] + LegDispatches(s.legs[0], none, true);
  }

  /** The planner of the first attempt runs. */
  lemma FirstPlanner(args: Args) returns (e: nat)
    requires ValidArgs(args)
    ensures var run := Exec(args, true, []);
      e < |run.nodes| && run.nodes[e].status == EntryRunning && run.nodes[e].meta.PlannerRole?
  {
    StartedState(args);
    hide Exec;
    var run := Exec(args, true, []);
    assert HasAttempt(run.state.legs, 0, 0);
    PlannerRunsExactlyForPending(args, [], 0, 0);
    var x :| 0 <= x < |run.nodes| && run.nodes[x].status == EntryRunning &&
      PlannedBy(run.nodes, x, AttemptOf(run.state.legs, 0, 0).plan.id);
    e := x;
  }

  lemma OneId(nodes: seq<Node>)
    requires |nodes| == 1
    ensures Ids(nodes) == {nodes[0].id}
  {
  }

  /** A plan of one item fits if its id is new and what it depends on is there. */
  lemma OneItemFits(mode: LegGoalMode, leg: Leg, sequence: nat, p: PlannerPayload)
    requires p.legGoal.None? && p.nextLegGoal.None? && |p.workItems| == 1 && !InCurrentVersion(leg, p.workItems[0].id)
    requires p.workItems[0].id !in p.workItems[0].dependsOn
    requires forall d :: d in p.workItems[0].dependsOn ==> EarlierInCurrentVersion(leg, sequence, d)
    ensures PlanFits(mode, leg, sequence, p)
  {
    var nodes := PayloadNodes(p.workItems);
    var g, id, deps := GraphOf(nodes), p.workItems[0].id, p.workItems[0].dependsOn;
    EdgesAt(nodes, Ids(nodes), 0);
    assert nodes[0] == Node(id, deps);
    OneId(nodes);
    assert forall d :: d !in Within(deps, {id});
    forall walk ensures !ClosedWalk(g, walk) {
      if |walk| >= 2 && walk[0] in g { assert walk[1] !in g[walk[0]]; }
    }
    hide EarlierInCurrentVersion;
    hide InCurrentVersion;
  }

  // ----- the first plan -------------------------------------------------------------------------

  function FirstOps(e: nat): (ops: seq<Op>)
    ensures Uninterrupted(ops)
  {
    [Submit(e, PlannerOutcome(FIRST_PLAN))]
  }

  /** The first attempt holds the first plan's one item. */
  predicate HoldsFirst(run: Run, e: nat) {
    && |run.state.legs| >= 1 && |run.state.legs[0].attempts| >= 1 && run.state.legs[0].legGoalVersion == 1
    && e < |run.nodes| && run.nodes[e].meta.PlannerRole? && run.nodes[e].status == EntryCompleted
    && var a := run.state.legs[0].attempts[0];
       && run.nodes[e].meta.attemptId == a.id && a.plan.status == Success && HoldsSpecs(a, FIRST_PLAN.workItems)
  }

  lemma FirstPlanFits(args: Args, e: nat)
    requires ValidArgs(args) && e < |Exec(args, true, []).nodes|
    requires Exec(args, true, []).nodes[e].status == EntryRunning && Exec(args, true, []).nodes[e].meta.PlannerRole?
    ensures |Exec(args, true, []).state.legs| == 1 && |Exec(args, true, []).state.legs[0].attempts| == 1
    ensures Exec(args, true, []).state.legs[0].legGoalVersion == 1 && Exec(args, true, []).applied == []
    ensures SubmitRefusal(Exec(args, true, []), e, PlannerOutcome(FIRST_PLAN)).None?
    ensures var run := Exec(args, true, FirstOps(e));
      run.applied == [e] && e < |run.nodes| && run.nodes[e].status == EntryCompleted &&
      run.nodes[e].meta == Exec(args, true, []).nodes[e].meta
  {
    hide Exec;
    hide SubmitRefusal;
    hide PlanFits;
    var start, p := Exec(args, true, []), FIRST_PLAN;
    StartedState(args);
    OneItemFits(ModeOf(args), start.state.legs[0], 1, p);
    assert PlannerSchema(p);
    assert Acceptable(start, args, e, PlannerOutcome(p));
    hide Acceptable;
    SubmissionAcceptedExactly(args, [], e, PlannerOutcome(p));
    assert [] + [Submit(e, PlannerOutcome(p))] == FirstOps(e);
  }

  lemma FirstPlanHeld(args: Args, e: nat)
    requires ValidArgs(args) && e < |Exec(args, true, []).nodes|
    requires Exec(args, true, []).nodes[e].status == EntryRunning && Exec(args, true, []).nodes[e].meta.PlannerRole?
    ensures var s := Exec(args, true, FirstOps(e)).state;
      && HasAttempt(s.legs, 0, 0) && HoldsSpecs(s.legs[0].attempts[0], FIRST_PLAN.workItems)
      && s.legs[0].attempts[0].id == Exec(args, true, []).nodes[e].meta.attemptId
      && s.legs[0].attempts[0].plan.status == Success && s.legs[0].legGoalVersion == 1
      && s.legs[0].attempts[0].workItems[0].status == NotStarted
  {
    hide Exec;
    hide SubmitRefusal;
    FirstPlanFits(args, e);
    assert [] + [Submit(e, PlannerOutcome(FIRST_PLAN))] == FirstOps(e) == FirstOps(e) + [];
    var i, j := AcceptedPlanIsHeld(args, [], e, FIRST_PLAN, []);
    FirstItemWaits(Exec(args, true, FirstOps(e)).state.legs[0]);
    hide ReachesFailure;
  }

  lemma FirstPlanTaken(args: Args, e: nat)
    requires ValidArgs(args) && e < |Exec(args, true, []).nodes|
    requires Exec(args, true, []).nodes[e].status == EntryRunning && Exec(args, true, []).nodes[e].meta.PlannerRole?
    ensures var run := Exec(args, true, FirstOps(e));
      && run.applied == [e] && HoldsFirst(run, e) && run.finished.None?
      && |run.state.legs| == 1 && |run.state.legs[0].attempts| == 1
      && run.state.legs[0].attempts[0].workItems[0].status == NotStarted
  {
    hide Exec;
    hide SubmitRefusal;
    FirstPlanFits(args, e);
    FirstPlanHeld(args, e);
    AttemptStatusExactly(args, FirstOps(e), 0, 0);
    hide Explained;
    LegStatusExactly(args, FirstOps(e), 0);
    assert Exec(args, true, FirstOps(e)).state.legs[0].attempts[0].status == Running;
    AtWork(args, FirstOps(e));
  }

  lemma FirstItemWaits(leg: Leg)
    requires |leg.attempts| >= 1 && HoldsSpecs(leg.attempts[0], FIRST_PLAN.workItems)
    ensures !ReachesFailure(leg, 0, 0)
  {
    forall p ensures !(LeadsToFailure(leg, p) && p[0] == (0, 0)) {
      if |p| >= 2 && p[0] == (0, 0) { assert !DependsOn(leg, p[0], p[1]); }
    }
  }

  // ----- its worker fails ------------------------------------------------------------------------

  function FailedOps(e: nat, w: nat): (ops: seq<Op>)
    ensures Uninterrupted(ops)
  {
    FirstOps(e) + [Submit(w, WorkerOutcome(FAILING))]
  }

  lemma FirstWorker(args: Args, e: nat) returns (w: nat)
    requires ValidArgs(args)
    requires var run := Exec(args, true, FirstOps(e));
      HoldsFirst(run, e) && run.finished.None? && run.state.legs[0].attempts[0].workItems[0].status == NotStarted
    ensures var run := Exec(args, true, FirstOps(e));
      w < |run.nodes| && run.nodes[w].status == EntryRunning && run.nodes[w].meta.WorkerRole? &&
      run.nodes[w].meta.workItemKey == run.state.legs[0].attempts[0].workItems[0].key
  {
    hide Exec;
    var run := Exec(args, true, FirstOps(e));
    assert InLeg(run.state.legs[0], 0, 0);
    RunningExactlyReady(args, FirstOps(e), 0, 0, 0);
    var x :| 0 <= x < |run.nodes| && run.nodes[x].status == EntryRunning &&
      WorkedOn(run.nodes, x, Item(run.state.legs[0], 0, 0).key);
    w := x;
  }

  lemma FailureTaken(args: Args, e: nat, w: nat)
    requires ValidArgs(args)
    requires var run := Exec(args, true, FirstOps(e));
      && run.applied == [e] && HoldsFirst(run, e)
      && w < |run.nodes| && run.nodes[w].status == EntryRunning && run.nodes[w].meta.WorkerRole?
      && run.nodes[w].meta.workItemKey == run.state.legs[0].attempts[0].workItems[0].key
    ensures var a, b := Exec(args, true, FirstOps(e)), Exec(args, true, FailedOps(e, w));
      && RunExtends(a, b) && b.applied == [e, w]
      && w < |b.nodes| && b.nodes[w] == Entry(a.nodes[w].meta, EntryCompleted, Some(WorkerOutcome(FAILING)))
  {
    hide Exec;
    hide RunExtends;
    assert Acceptable(Exec(args, true, FirstOps(e)), args, w, WorkerOutcome(FAILING)) by { hide PlanFits; }
    hide Acceptable;
    SubmissionAcceptedExactly(args, FirstOps(e), w, WorkerOutcome(FAILING));
    ExecExtends(args, FirstOps(e), [Submit(w, WorkerOutcome(FAILING))]);
  }

  /** The first attempt keeps its plan and its item, up to the item's status. */
  lemma FirstKept(a: Run, b: Run, e: nat)
    requires HoldsFirst(a, e) && RunExtends(a, b)
    ensures |b.state.legs| >= 1 && |b.state.legs[0].attempts| >= 1 && e < |b.nodes| && b.nodes[e] == a.nodes[e]
    ensures var x, y := a.state.legs[0].attempts[0], b.state.legs[0].attempts[0];
      && y.id == x.id && y.plan == x.plan && HoldsSpecs(y, FIRST_PLAN.workItems)
      && y.workItems[0].key == x.workItems[0].key && y.workItems[0].legGoalVersion == x.workItems[0].legGoalVersion
  {
    assert LegExtends(a.state.legs[0], b.state.legs[0]);
    var x, y := a.state.legs[0].attempts[0], b.state.legs[0].attempts[0];
    assert AttemptExtends(x, y) && ItemExtends(x.workItems[0], y.workItems[0]);
  }

  lemma VersionOfFirst(args: Args, ops: seq<Op>)
    requires ValidArgs(args)
    requires var legs := Exec(args, true, ops).state.legs;
      |legs| == 1 && |legs[0].attempts| == 1 && HoldsSpecs(legs[0].attempts[0], FIRST_PLAN.workItems)
    ensures var leg := Exec(args, true, ops).state.legs[0];
      leg.attempts[0].workItems[0].legGoalVersion == leg.legGoalVersion
  {
    hide Exec;
    ReachableLeg(args, ops, 0);
    var leg := Exec(args, true, ops).state.legs[0];
    assert AttemptFits(leg, 0) && ItemFits(leg, leg.attempts[0], leg.attempts[0].workItems[0]);
    assert LegShape(leg);
  }

  lemma ConsistentFirst(args: Args, ops: seq<Op>)
    requires ValidArgs(args)
    requires var legs := Exec(args, true, ops).state.legs;
      && |legs| >= 1 && |legs[0].attempts| >= 1 && HoldsSpecs(legs[0].attempts[0], FIRST_PLAN.workItems)
      && legs[0].attempts[0].workItems[0].legGoalVersion == legs[0].legGoalVersion
    ensures var leg := Exec(args, true, ops).state.legs[0];
      leg.attempts[0].isConsistentWithLegGoal && leg.attempts[0].sequence == 1
  {
    hide Exec;
    ReachableLeg(args, ops, 0);
    var leg := Exec(args, true, ops).state.legs[0];
    assert AttemptFits(leg, 0) && ItemFits(leg, leg.attempts[0], leg.attempts[0].workItems[0]);
  }

  /** The first attempt has failed, and nobody has planned another one yet. */
  predicate Failing(run: Run, e: nat, w: nat) {
    && HoldsFirst(run, e) && run.applied == [e, w]
    && w < |run.nodes| && run.nodes[w].meta.WorkerRole? && run.nodes[w].accepted == Some(WorkerOutcome(FAILING))
    && run.nodes[w].status == EntryCompleted
    && run.nodes[w].meta.workItemKey == run.state.legs[0].attempts[0].workItems[0].key
    && run.state.legs[0].attempts[0].workItems[0].legGoalVersion == 1
  }

  lemma FirstItemFailed(args: Args, ops: seq<Op>, e: nat, w: nat)
    requires ValidArgs(args) && Failing(Exec(args, true, ops), e, w)
    ensures Exec(args, true, ops).state.legs[0].attempts[0].workItems[0].status == Failed
    ensures Exec(args, true, ops).state.legs[0].attempts[0].status == Failed
  {
    hide Exec;
    var run := Exec(args, true, ops);
    assert InLeg(run.state.legs[0], 0, 0) && HasAttempt(run.state.legs, 0, 0);
    VerdictsDecideItems(args, ops, 0, 0, 0);
    assert JudgedAs(run, w, Item(run.state.legs[0], 0, 0).key, false);
    AttemptStatusExactly(args, ops, 0, 0);
    hide Explained;
  }

  lemma NextIsPending(args: Args, ops: seq<Op>, e: nat, w: nat)
    requires ValidArgs(args) && Failing(Exec(args, true, ops), e, w)
    requires HasAttempt(Exec(args, true, ops).state.legs, 0, 1)
    ensures var a := Exec(args, true, ops).state.legs[0].attempts[1];
      a.plan.status == NotStarted && a.workItems == [] && a.status == Running
  {
    hide Exec;
    var run := Exec(args, true, ops);
    PlansComeFromSubmissions(args, ops, 0, 1);
    DistinctFirstTwo(args, ops);
    AttemptStatusExactly(args, ops, 0, 1);
    hide Explained;
    assert forall x :: x in run.applied ==> x == e || x == w;
  }

  lemma DistinctFirstTwo(args: Args, ops: seq<Op>)
    requires ValidArgs(args) && HasAttempt(Exec(args, true, ops).state.legs, 0, 1)
    ensures var leg := Exec(args, true, ops).state.legs[0]; leg.attempts[0].id != leg.attempts[1].id
  {
    hide Exec;
    ExecKeepsInv(args, ops);
    var run := Exec(args, true, ops);
    ShapeOfRun(run, args, 0);
    assert HasAttempt(run.state.legs, 0, 0) && HasAttempt(run.state.legs, 0, 1);
    hide RunInv;
    hide LegShape;
    hide LogOk;
    hide LegWon;
  }

  lemma SecondAttemptOpens(args: Args, ops: seq<Op>, e: nat, w: nat)
    requires ValidArgs(args) && args.maxAttempts >= 2 && Uninterrupted(ops) && Failing(Exec(args, true, ops), e, w)
    ensures var run := Exec(args, true, ops);
      && run.finished.None? && |run.state.legs| == 1 && |run.state.legs[0].attempts| == 2
      && run.state.legs[0].attempts[1].plan.status == NotStarted && run.state.legs[0].attempts[1].workItems == []
  {
    hide Exec;
    var run := Exec(args, true, ops);
    FirstItemFailed(args, ops, e, w);
    LegStatusExactly(args, ops, 0);
    assert HasAttempt(run.state.legs, 0, 1);
    NextIsPending(args, ops, e, w);
    assert |run.state.legs[0].attempts| == 2;
    AtWork(args, ops);
  }

  /** The failed worker's submission leaves the run with its first attempt failed. */
  lemma FailingNow(args: Args, e: nat, w: nat)
    requires ValidArgs(args)
    requires var run := Exec(args, true, FirstOps(e));
      && run.applied == [e] && HoldsFirst(run, e) && |run.state.legs| == 1 && |run.state.legs[0].attempts| == 1
      && w < |run.nodes| && run.nodes[w].status == EntryRunning && run.nodes[w].meta.WorkerRole?
      && run.nodes[w].meta.workItemKey == run.state.legs[0].attempts[0].workItems[0].key
    ensures Failing(Exec(args, true, FailedOps(e, w)), e, w)
  {
    hide Exec;
    hide RunExtends;
    var a, b := Exec(args, true, FirstOps(e)), Exec(args, true, FailedOps(e, w));
    FailureTaken(args, e, w);
    FirstKept(a, b, e);
    VersionOfFirst(args, FirstOps(e));
    GoalsFollowPlans(args, FirstOps(e), Submit(w, WorkerOutcome(FAILING)));
    hide Acceptable;
    assert !TakesPlan(a, args, Submit(w, WorkerOutcome(FAILING)));
    assert SameGoals(a.state.legs[0], b.state.legs[0]);
  }

  // ----- the second plan ---------------------------------------------------------------------------

  lemma SecondPlanner(args: Args, ops: seq<Op>) returns (e: nat)
    requires ValidArgs(args) && Exec(args, true, ops).finished.None?
    requires HasAttempt(Exec(args, true, ops).state.legs, 0, 1)
    requires Exec(args, true, ops).state.legs[0].attempts[1].plan.status == NotStarted
    ensures var run := Exec(args, true, ops);
      e < |run.nodes| && run.nodes[e].status == EntryRunning && run.nodes[e].meta.PlannerRole?
  {
    hide Exec;
    var run := Exec(args, true, ops);
    PlannerRunsExactlyForPending(args, ops, 0, 1);
    var x :| 0 <= x < |run.nodes| && run.nodes[x].status == EntryRunning &&
      PlannedBy(run.nodes, x, AttemptOf(run.state.legs, 0, 1).plan.id);
    e := x;
  }

  lemma SecondPlanFits(args: Args, ops: seq<Op>, e: nat, w: nat)
    requires ValidArgs(args) && Failing(Exec(args, true, ops), e, w)
    requires |Exec(args, true, ops).state.legs[0].attempts| == 2
    requires Exec(args, true, ops).state.legs[0].attempts[1].workItems == []
    ensures PlanFits(ModeOf(args), Exec(args, true, ops).state.legs[0], 2, SECOND_PLAN)
  {
    hide Exec;
    ConsistentFirst(args, ops);
    var leg := Exec(args, true, ops).state.legs[0];
    assert CurrentEntry(leg, 0, 0, "a");
    assert EarlierInCurrentVersion(leg, 2, "a");
    assert !InCurrentVersion(leg, "b");
    OneItemFits(ModeOf(args), leg, 2, SECOND_PLAN);
    hide PlanFits;
  }

  lemma SecondPlanTaken(args: Args, ops: seq<Op>, e: nat, w: nat, e2: nat)
    requires ValidArgs(args) && Failing(Exec(args, true, ops), e, w)
    requires var run := Exec(args, true, ops);
      && |run.state.legs| == 1 && |run.state.legs[0].attempts| == 2 && run.state.legs[0].attempts[1].workItems == []
      && e2 < |run.nodes| && run.nodes[e2].status == EntryRunning && run.nodes[e2].meta.PlannerRole?
    ensures SubmitRefusal(Exec(args, true, ops), e2, PlannerOutcome(SECOND_PLAN)).None?
  {
    hide Exec;
    hide SubmitRefusal;
    hide PlanFits;
    SecondPlanFits(args, ops, e, w);
    assert PlannerSchema(SECOND_PLAN);
    assert Acceptable(Exec(args, true, ops), args, e2, PlannerOutcome(SECOND_PLAN));
    hide Acceptable;
    SubmissionAcceptedExactly(args, ops, e2, PlannerOutcome(SECOND_PLAN));
  }

  /** The item that depends on the failed one is blocked in the first state that holds it. */
  lemma SecondItemBlocked(args: Args, ops: seq<Op>, e: nat, w: nat, e2: nat)
    requires ValidArgs(args) && Failing(Exec(args, true, ops), e, w)
    requires var run := Exec(args, true, ops);
      |run.state.legs| == 1 && |run.state.legs[0].attempts| == 2 && e2 < |run.nodes|
    requires SubmitRefusal(Exec(args, true, ops), e2, PlannerOutcome(SECOND_PLAN)).None?
    ensures var s := Exec(args, true, ops + [Submit(e2, PlannerOutcome(SECOND_PLAN))]).state;
      && HasAttempt(s.legs, 0, 1) && HoldsSpecs(s.legs[0].attempts[1], SECOND_PLAN.workItems)
      && s.legs[0].attempts[1].workItems[0].status == Blocked
  {
    hide Exec;
    hide SubmitRefusal;
    var next := ops + [Submit(e2, PlannerOutcome(SECOND_PLAN))];
    assert next + [] == next;
    var i, j := AcceptedPlanIsHeld(args, ops, e2, SECOND_PLAN, []);
    FirstItemFailed(args, ops, e, w);
    assert InLeg(Exec(args, true, ops).state.legs[0], 0, 0);
    SettledItemsStay(args, ops, [Submit(e2, PlannerOutcome(SECOND_PLAN))], 0, 0, 0);
    ExecExtends(args, ops, [Submit(e2, PlannerOutcome(SECOND_PLAN))]);
    FirstKept(Exec(args, true, ops), Exec(args, true, next), e);
    hide RunExtends;
    ReachesFirst(args, next);
    hide ReachesFailure;
  }

  lemma ReachesFirst(args: Args, ops: seq<Op>)
    requires ValidArgs(args)
    requires var s := Exec(args, true, ops).state;
      && HasAttempt(s.legs, 0, 1) && HoldsSpecs(s.legs[0].attempts[1], SECOND_PLAN.workItems)
      && |s.legs[0].attempts[0].workItems| == 1 && s.legs[0].attempts[0].workItems[0].status == Failed
    ensures ReachesFailure(Exec(args, true, ops).state.legs[0], 1, 0)
  {
    hide Exec;
    var leg := Exec(args, true, ops).state.legs[0];
    assert InLeg(leg, 1, 0) && Item(leg, 1, 0).dependsOn == ["a"];
    VersionsStayConsistent(args, ops, 0, 1, 0, "a");
    var j2, k2 :| InLeg(leg, j2, k2) && j2 <= 1 && Matches(Item(leg, j2, k2), Item(leg, 1, 0).legGoalVersion, "a");
    assert (j2, k2) == (0, 0);
    var p := [(1, 0), (0, 0)];
    assert DependsOn(leg, p[0], p[1]);
    assert LeadsToFailure(leg, p);
  }

  /** With a second attempt to spend, any pursuit has a run in which an accepted plan's item is
      blocked in the very state that first holds it. */
  lemma BlockedOnArrival(args: Args) returns (ops: seq<Op>, e: nat)
    requires ValidArgs(args) && args.maxAttempts >= 2
    ensures e < |Exec(args, true, ops).nodes|
    ensures SubmitRefusal(Exec(args, true, ops), e, PlannerOutcome(SECOND_PLAN)).None?
    ensures var s := Exec(args, true, ops + [Submit(e, PlannerOutcome(SECOND_PLAN))]).state;
      && HasAttempt(s.legs, 0, 1) && HoldsSpecs(s.legs[0].attempts[1], SECOND_PLAN.workItems)
      && s.legs[0].attempts[1].workItems[0].status == Blocked
  {
    hide Exec;
    hide SubmitRefusal;
    var first := FirstPlanner(args);
    FirstPlanTaken(args, first);
    var w := FirstWorker(args, first);
    FailingNow(args, first, w);
    ops := FailedOps(first, w);
    SecondAttemptOpens(args, ops, first, w);
    e := SecondPlanner(args, ops);
    SecondPlanTaken(args, ops, first, w, e);
    SecondItemBlocked(args, ops, first, w, e);
  }
}
