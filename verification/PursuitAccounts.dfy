/** What nodes submit is what the pursuit holds, and what is ready runs. */
module PursuitAccounts {
  import opened Text
  import opened PursuitState
  import opened PursuitProgress
  import opened PursuitInvariant
  import opened PursuitSteps
  import opened PursuitClosing
  import opened PursuitReconcile
  import opened PursuitApply
  import opened PursuitEffects
  import opened PursuitTheorems
  import opened WorkflowRun
  import opened WorkflowSafety
  import opened WorkflowInvariant
  import opened WorkflowRecords

  // ----- what is ready runs, and nothing else ---------------------------------------------

  ghost predicate WorkerRuns(nodes: seq<Entry>, key: string) {
    exists e :: 0 <= e < |nodes| && nodes[e].status == EntryRunning && WorkedOn(nodes, e, key)
  }

  ghost predicate PlannerRuns(nodes: seq<Entry>, planId: Uuid) {
    exists e :: 0 <= e < |nodes| && nodes[e].status == EntryRunning && PlannedBy(nodes, e, planId)
  }

  /** An item of the leg with this id and goal version succeeded. */
  ghost predicate SucceededIn(leg: Leg, version: nat, id: string) {
    exists j, k :: InLeg(leg, j, k) && Matches(Item(leg, j, k), version, id) && Item(leg, j, k).status == Success
  }

  lemma SucceededMeans(leg: Leg, version: nat, id: string)
    requires Unique(leg)
    ensures DependencyStatus(leg, version, id) == Some(Success) <==> SucceededIn(leg, version, id)
  {
    if DependencyStatus(leg, version, id) == Some(Success) { var j, k := LookupFound(leg, version, id); }
    if SucceededIn(leg, version, id) {
      var j, k :| InLeg(leg, j, k) && Matches(Item(leg, j, k), version, id) && Item(leg, j, k).status == Success;
      LookupAt(leg, j, k);
    }
  }

  lemma UnheldIsDispatched(s: State, args: Args, running: RunningNodes, k: nat)
    requires Open(s, args) && InLeg(Last(s.legs), |Last(s.legs).attempts| - 1, k)
    requires Ready(Last(s.legs), Item(Last(s.legs), |Last(s.legs).attempts| - 1, k), running)
    ensures Dispatches(s, running, true) != []
  {
    var leg := Last(s.legs);
    var a := Last(leg.attempts);
    assert AttemptFits(leg, |leg.attempts| - 1);
    OnlyLastLegDispatches(s, args, running, true);
    assert WorkerMeta(leg, a, a.workItems[k]) in WorkerDispatches(leg, a, a.workItems, running);
  }

  lemma ReadyRuns(run: Run, args: Args, i: nat, j: nat, k: nat)
    requires RunLive(run, args) && i < |run.state.legs| && InLeg(run.state.legs[i], j, k)
    requires Item(run.state.legs[i], j, k).status == NotStarted
    requires DependenciesSucceeded(run.state.legs[i], Item(run.state.legs[i], j, k))
    ensures WorkerRuns(run.nodes, Item(run.state.legs[i], j, k).key)
  {
    hide TargetsHeld;
    hide NoSharedTarget;
    hide Dispatches;
    var item := Item(run.state.legs[i], j, k);
    WaitingItemIsCurrent(run.state, args, Place(i, j), k);
    if item.key !in RunningOf(run.nodes).workItems {
      UnheldIsDispatched(run.state, args, RunningOf(run.nodes), k);
      assert false;
    }
    var e := RunningKeyHolder(run.nodes, item.key);
    assert WorkedOn(run.nodes, e, item.key);
  }

  lemma RunningIsReady(run: Run, args: Args, i: nat, j: nat, k: nat)
    requires RunLive(run, args) && i < |run.state.legs| && InLeg(run.state.legs[i], j, k)
    requires WorkerRuns(run.nodes, Item(run.state.legs[i], j, k).key)
    ensures Item(run.state.legs[i], j, k).status == NotStarted
    ensures DependenciesSucceeded(run.state.legs[i], Item(run.state.legs[i], j, k))
  {
    var s := run.state;
    var e :| 0 <= e < |run.nodes| && run.nodes[e].status == EntryRunning &&
      WorkedOn(run.nodes, e, Item(s.legs[i], j, k).key);
    assert OnTarget(s, run.nodes[e].meta);
    var n := |s.legs| - 1;
    var j2 := |s.legs[n].attempts| - 1;
    var k2: nat :| k2 < |s.legs[n].attempts[j2].workItems| &&
      WorksOn(s.legs[n], s.legs[n].attempts[j2].workItems[k2],
              run.nodes[e].meta.workItemId, run.nodes[e].meta.workItemKey);
    assert Item(s.legs[n], j2, k2).key == Item(s.legs[i], j, k).key;
    StateKeys(s, args, i, j, k, n, j2, k2);
  }

  /** In every unfinished run a worker runs for an item if and only if the item is waiting and
      every id it depends on has an item of its goal version that succeeded. */
  lemma RunningExactlyReady(args: Args, ops: seq<Op>, i: nat, j: nat, k: nat)
    requires ValidArgs(args) && Exec(args, true, ops).finished.None?
    requires i < |Exec(args, true, ops).state.legs| && InLeg(Exec(args, true, ops).state.legs[i], j, k)
    ensures var run := Exec(args, true, ops);
      var leg, item := run.state.legs[i], Item(run.state.legs[i], j, k);
      WorkerRuns(run.nodes, item.key) <==>
        item.status == NotStarted && forall d :: d in item.dependsOn ==> SucceededIn(leg, item.legGoalVersion, d)
  {
    hide Exec;
    ExecKeepsInv(args, ops);
    var run := Exec(args, true, ops);
    assert RunLive(run, args);
    LegHasShape(run.state, args, i);
    var leg, item := run.state.legs[i], Item(run.state.legs[i], j, k);
    forall d ensures DependencyStatus(leg, item.legGoalVersion, d) == Some(Success) <==>
      SucceededIn(leg, item.legGoalVersion, d) { SucceededMeans(leg, item.legGoalVersion, d); }
    hide SucceededIn;
    hide WorkerRuns;
    if WorkerRuns(run.nodes, item.key) { RunningIsReady(run, args, i, j, k); }
    if item.status == NotStarted && DependenciesSucceeded(leg, item) { ReadyRuns(run, args, i, j, k); }
  }

  /** A planner runs for a plan if and only if that plan is pending. */
  lemma PlannerRunsExactlyForPending(args: Args, ops: seq<Op>, i: nat, j: nat)
    requires ValidArgs(args) && Exec(args, true, ops).finished.None?
    requires HasAttempt(Exec(args, true, ops).state.legs, i, j)
    ensures var run := Exec(args, true, ops);
      var plan := AttemptOf(run.state.legs, i, j).plan;
      PlannerRuns(run.nodes, plan.id) <==> plan.status == NotStarted
  {
    hide Exec;
    ExecKeepsInv(args, ops);
    var run := Exec(args, true, ops);
    assert RunLive(run, args);
    var s, plan := run.state, AttemptOf(run.state.legs, i, j).plan;
    if PlannerRuns(run.nodes, plan.id) {
      var e :| 0 <= e < |run.nodes| && run.nodes[e].status == EntryRunning && PlannedBy(run.nodes, e, plan.id);
      assert OnTarget(s, run.nodes[e].meta);
      var n := |s.legs| - 1;
      assert HasAttempt(s.legs, n, |s.legs[n].attempts| - 1);
      assert AttemptOf(s.legs, n, |s.legs[n].attempts| - 1).plan.id == plan.id;
    }
    if plan.status == NotStarted { PendingRuns(run, args, i, j); }
  }

  lemma PendingRuns(run: Run, args: Args, i: nat, j: nat)
    requires RunLive(run, args) && HasAttempt(run.state.legs, i, j)
    requires AttemptOf(run.state.legs, i, j).plan.status == NotStarted
    ensures PlannerRuns(run.nodes, AttemptOf(run.state.legs, i, j).plan.id)
  {
    var s, leg := run.state, run.state.legs[i];
    var running := RunningOf(run.nodes);
    OpenPlanIsCurrent(s, args, Place(i, j));
    OnlyLastLegDispatches(s, args, running, true);
    var planId := leg.attempts[j].plan.id;
    assert planId in running.plans;
    var x :| x in run.nodes && x.status == EntryRunning && x.meta.PlannerRole? && x.meta.planId == planId;
    var e :| 0 <= e < |run.nodes| && run.nodes[e] == x;
    assert PlannedBy(run.nodes, e, planId);
  }

  /** Every running node carries the names of the plan or item it works on. */
  lemma RunningEntriesName(args: Args, ops: seq<Op>, e: nat)
    requires ValidArgs(args) && e < |Exec(args, true, ops).nodes|
    requires Exec(args, true, ops).nodes[e].status == EntryRunning
    ensures var run := Exec(args, true, ops);
      var meta := run.nodes[e].meta;
      exists i, j :: HasAttempt(run.state.legs, i, j) && Names(run.state.legs[i], AttemptOf(run.state.legs, i, j), meta)
  {
    hide Exec;
    ExecKeepsInv(args, ops);
    var run := Exec(args, true, ops);
    assert RunLive(run, args) && OnTarget(run.state, run.nodes[e].meta);
    var n := |run.state.legs| - 1;
    var j := |run.state.legs[n].attempts| - 1;
    assert HasAttempt(run.state.legs, n, j);
    assert Names(run.state.legs[n], AttemptOf(run.state.legs, n, j), run.nodes[e].meta);
  }

  ghost predicate Names(leg: Leg, a: Attempt, meta: Metadata) {
    && meta.legId == leg.id && meta.attemptId == a.id && meta.attempt == a.sequence
    && match meta
       case PlannerRole(_, _, planId, _) => planId == a.plan.id
       case WorkerRole(_, _, id, key, _) =>
         exists k :: 0 <= k < |a.workItems| && a.workItems[k].id == id && a.workItems[k].key == key
  }

  // ----- a submission and the state right after it -------------------------------------------

  /** `a` right after running entry `e` ended as `st` says. */
  function Marked(a: Run, e: nat, st: Settlement): Run
    requires e < |a.nodes|
  {
    var n := a.nodes[e].(status := StatusOf(st), accepted := if st.Completed? then Some(st.payload) else None);
    if st.Completed? then Emit(a, OutcomeReceived).(nodes := a.nodes[e := n]) else a.(nodes := a.nodes[e := n])
  }

  /** The settlement an operation brings to entry `e`, if it is accepted. */
  ghost predicate Brings(a: Run, op: Op, e: nat, st: Settlement) {
    && e < |a.nodes| && a.nodes[e].status == EntryRunning
    && (st.Completed? ==> FitsSchema(a.nodes[e].meta, st.payload))
    && ValidationError(a.state, a.nodes[e].meta, st) == None
    && (if st.Completed? then op == Submit(e, st.payload) else op == Report(e, st))
  }

  lemma BroughtStep(a: Run, op: Op, e: nat, st: Settlement, args: Args)
    requires RunInv(a, args) && Brings(a, op, e, st)
    ensures RunLive(a, args) && Ended(a, Marked(a, e, st), e, st)
    ensures Step(a, op, true) == ApplyValidated(Marked(a, e, st), e, st, true)
  {
    hide ApplyValidated;
    hide ValidationError;
    hide TargetsHeld;
    hide Saturated;
    assert a.nodes[e].accepted == None;
  }

  lemma SettledRun(a: Run, op: Op, e: nat, st: Settlement, args: Args)
    requires RunInv(a, args) && Brings(a, op, e, st)
    ensures var marked, b := Marked(a, e, st), Step(a, op, true);
      && RunLive(a, args) && Ended(a, marked, e, st)
      && b.state == Evaluate(marked, e, st).state && b.applied == a.applied + [e]
      && e < |b.nodes| && b.nodes[e] == EndedEntry(a.nodes[e].meta, st)
  {
    BroughtStep(a, op, e, st, args);
    var marked := Marked(a, e, st);
    assert marked.nodes[e] == EndedEntry(a.nodes[e].meta, st) && e < |marked.nodes|;
    hide Marked;
    hide Brings;
    hide Step;
    hide EndedEntry;
    FinishedEvaluation(a, marked, e, st, args);
    hide Ended;
    hide RunLive;
    hide RunInv;
    hide ApplyValidated;
    hide Evaluate;
  }

  lemma FinishedEvaluation(a: Run, marked: Run, e: nat, st: Settlement, args: Args)
    requires RunInv(a, args) && RunLive(a, args) && Ended(a, marked, e, st)
    ensures var f := ApplyValidated(marked, e, st, true);
      && f.state == Evaluate(marked, e, st).state && f.applied == a.applied + [e]
      && e < |f.nodes| && f.nodes[e] == marked.nodes[e]
  {
    SettleKeepsInv(a, marked, e, st, args);
    assert e < |marked.nodes| && marked.nodes[e].meta == a.nodes[e].meta;
    assert st.Completed? ==> FitsSchema(marked.nodes[e].meta, st.payload);
    NoDeadlockReported(ApplyValidated(marked, e, st, true), args);
    hide RunInv;
    hide RunLive;
    hide Ended;
    hide Descends;
    hide RunExtends;
    hide Evaluate;
    hide FinishOrDispatch;
    EvaluatedNodes(marked, e, st);
    AfterEvaluation(Evaluate(marked, e, st), ApplyValidated(marked, e, st, true), e);
  }

  lemma NoDeadlockReported(run: Run, args: Args)
    requires RunInv(run, args)
    ensures WorkflowDeadlocked !in run.timeline
  {
    hide RunLive;
    hide RunOver;
    hide LogOk;
    hide LaunchesOk;
  }

  lemma EvaluatedNodes(run: Run, e: nat, st: Settlement)
    requires e < |run.nodes| && (st.Completed? ==> FitsSchema(run.nodes[e].meta, st.payload))
    ensures Evaluate(run, e, st).nodes == run.nodes
  {
    EvaluateShape(run, e, st);
    hide Evaluate;
    hide Reconcile;
    hide ApplySettlement;
  }

  /** The state after an accepted settlement: applied to the one before, then reconciled. */
  lemma SettledState(a: Run, op: Op, e: nat, st: Settlement, args: Args)
    requires RunInv(a, args) && Brings(a, op, e, st)
    ensures var m := ApplySettlement(a.state, a.nodes[e].meta, st).state;
      && Step(a, op, true).state == Reconcile(m, RunningOf(Marked(a, e, st).nodes)).state
      && StepFacts(a.state, m, Step(a, op, true).state)
  {
    var marked := Marked(a, e, st);
    SettledRun(a, op, e, st, args);
    EvaluateShape(marked, e, st);
    SettledFacts(a, marked, e, st, args);
    hide Reconcile;
    hide ApplySettlement;
    hide ValidationError;
    hide StepFacts;
    hide RunLive;
    hide RunInv;
    hide Evaluate;
    hide Step;
  }

  lemma AfterEvaluation(r: Run, f: Run, e: nat)
    requires f == FinishOrDispatch(r, true) && e < |r.nodes| && WorkflowDeadlocked !in f.timeline
    ensures f.state == r.state && e < |f.nodes| && f.nodes[e] == r.nodes[e] && f.applied == r.applied
  {
    hide Dispatches;
  }

  // ----- plans ---------------------------------------------------------------------------------

  /** The attempt holds these specifications, position by position. */
  predicate HoldsSpecs(a: Attempt, specs: seq<ItemSpec>) {
    && |a.workItems| == |specs|
    && forall k :: 0 <= k < |specs| ==>
         a.workItems[k].id == specs[k].id && a.workItems[k].dependsOn == specs[k].dependsOn
  }

  /** The plan has landed in the attempt the planner was started for. */
  predicate PlanLanded(s: State, r: State, meta: Metadata, p: PlannerPayload)
    requires meta.PlannerRole?
  {
    && |r.legs| >= |s.legs| >= 1 && r.legs[|s.legs| - 1].id == meta.legId
    && GoalsFollow(Last(s.legs), r.legs[|s.legs| - 1], p)
    && |r.legs[|s.legs| - 1].attempts| >= |Last(s.legs).attempts| >= 1
    && var x := r.legs[|s.legs| - 1].attempts[|Last(s.legs).attempts| - 1];
       && x.id == meta.attemptId && x.plan.id == meta.planId && x.plan.summary == Some(p.summary)
       && x.plan.status == Success
       && HoldsSpecs(x, p.workItems)
       && forall k :: 0 <= k < |x.workItems| ==> x.workItems[k].status in {NotStarted, Blocked}
  }

  lemma PlanBrought(a: Run, e: nat, p: PlannerPayload, args: Args)
    requires RunInv(a, args) && Brings(a, Submit(e, PlannerOutcome(p)), e, Completed(PlannerOutcome(p)))
    ensures e < |a.nodes| && a.nodes[e].meta.PlannerRole? && Open(a.state, args) && OnTarget(a.state, a.nodes[e].meta)
    ensures FitsSchema(a.nodes[e].meta, PlannerOutcome(p))
    ensures ValidationError(a.state, a.nodes[e].meta, Completed(PlannerOutcome(p))) == None
  {
    BroughtStep(a, Submit(e, PlannerOutcome(p)), e, Completed(PlannerOutcome(p)), args);
    hide ValidationError;
    hide Step;
    hide Open;
  }

  lemma PlanTargeted(s: State, meta: Metadata)
    requires OnTarget(s, meta) && meta.PlannerRole?
    ensures |s.legs| >= 1 && |Last(s.legs).attempts| >= 1 && Last(Last(s.legs).attempts).plan.id == meta.planId
  {
  }

  lemma PlanStep(a: Run, e: nat, p: PlannerPayload, args: Args)
    requires RunInv(a, args) && Brings(a, Submit(e, PlannerOutcome(p)), e, Completed(PlannerOutcome(p)))
    ensures e < |a.nodes| && a.nodes[e].meta.PlannerRole?
    ensures PlanLanded(a.state, Step(a, Submit(e, PlannerOutcome(p)), true).state, a.nodes[e].meta, p)
  {
    PlanBrought(a, e, p, args);
    var meta, st := a.nodes[e].meta, Completed(PlannerOutcome(p));
    var s, r := a.state, Step(a, Submit(e, PlannerOutcome(p)), true).state;
    var m := ApplySettlement(s, meta, st).state;
    SettledState(a, Submit(e, PlannerOutcome(p)), e, st, args);
    hide Step;
    hide RunInv;
    hide Open;
    hide OnTarget;
    hide ApplySettlement;
    hide ValidationError;
    hide Brings;
    PlanTargeted(s, meta);
    PlannerEffect(s, meta, st, args);
    PlanStays(s, m, r, meta, p);
  }

  /** The plan lands in the applied state, and reconciling leaves it there. */
  lemma PlanStays(s: State, m: State, r: State, meta: Metadata, p: PlannerPayload)
    requires meta.PlannerRole? && |m.legs| == |s.legs| >= 1 && |Last(s.legs).attempts| >= 1
    requires Last(s.legs).id == meta.legId && Last(Last(s.legs).attempts).id == meta.attemptId
    requires Last(Last(s.legs).attempts).plan.id == meta.planId
    requires EarlierKept(Last(s.legs), Last(m.legs)) && StepFacts(s, m, r)
    requires Carries(Last(Last(m.legs).attempts), p) && AllWaiting(Last(Last(m.legs).attempts))
    requires GoalsFollow(Last(s.legs), Last(m.legs), p)
    ensures PlanLanded(s, r, meta, p)
  {
    PlanStaysQuiet(m, r, p);
    hide HoldsSpecs;
    hide QuietLegs;
    hide Unique;
  }

  lemma PlanStaysQuiet(m: State, r: State, p: PlannerPayload)
    requires |m.legs| >= 1 && |Last(m.legs).attempts| >= 1 && QuietLegs(m.legs, r.legs)
    requires Carries(Last(Last(m.legs).attempts), p) && AllWaiting(Last(Last(m.legs).attempts))
    ensures SameGoals(Last(m.legs), r.legs[|m.legs| - 1]) && r.legs[|m.legs| - 1].id == Last(m.legs).id
    ensures |r.legs[|m.legs| - 1].attempts| >= |Last(m.legs).attempts|
    ensures var x := r.legs[|m.legs| - 1].attempts[|Last(m.legs).attempts| - 1];
      && x.id == Last(Last(m.legs).attempts).id && x.plan == Last(Last(m.legs).attempts).plan
      && HoldsSpecs(x, p.workItems)
      && forall k :: 0 <= k < |x.workItems| ==> x.workItems[k].status in {NotStarted, Blocked}
  {
    var n, j := |m.legs| - 1, |Last(m.legs).attempts| - 1;
    assert QuietLeg(m.legs[n], r.legs[n]) && QuietAttempt(m.legs[n].attempts[j], r.legs[n].attempts[j]);
    forall k | 0 <= k < |m.legs[n].attempts[j].workItems|
      ensures QuietItem(m.legs[n].attempts[j].workItems[k], r.legs[n].attempts[j].workItems[k])
    {
    }
  }

  lemma AcceptedBrings(run: Run, e: nat, payload: Payload)
    requires e < |run.nodes| && SubmitRefusal(run, e, payload).None?
    ensures Brings(run, Submit(e, payload), e, Completed(payload))
  {
  }

  /** An accepted plan is what the attempt holds: right after the submission and for ever its
      items are the submitted ones, with their ids and dependencies and in their order. Right
      after it each is waiting, or blocked if and only if a dependency path leads to a failed
      item, and the leg's goals follow the plan. */
  lemma AcceptedPlanIsHeld(args: Args, ops: seq<Op>, e: nat, p: PlannerPayload, more: seq<Op>) returns (i: nat, j: nat)
    requires ValidArgs(args) && e < |Exec(args, true, ops).nodes|
    requires SubmitRefusal(Exec(args, true, ops), e, PlannerOutcome(p)).None?
    ensures var run := Exec(args, true, ops);
      var meta := run.nodes[e].meta;
      var after := Exec(args, true, ops + [Submit(e, PlannerOutcome(p))]).state;
      var later := Exec(args, true, ops + [Submit(e, PlannerOutcome(p))] + more).state;
      && i == |run.state.legs| - 1 && j == |run.state.legs[i].attempts| - 1
      && HasAttempt(after.legs, i, j) && HasAttempt(later.legs, i, j)
      && after.legs[i].id == later.legs[i].id == meta.legId
      && AttemptOf(after.legs, i, j).id == AttemptOf(later.legs, i, j).id == meta.attemptId
      && AttemptOf(after.legs, i, j).plan.id == AttemptOf(later.legs, i, j).plan.id == meta.planId
      && AttemptOf(later.legs, i, j).plan.status == Success
      && AttemptOf(later.legs, i, j).plan.summary == Some(p.summary)
      && HoldsSpecs(AttemptOf(after.legs, i, j), p.workItems) && HoldsSpecs(AttemptOf(later.legs, i, j), p.workItems)
      && GoalsFollow(run.state.legs[i], after.legs[i], p)
      && forall k :: 0 <= k < |AttemptOf(after.legs, i, j).workItems| ==>
           var status := AttemptOf(after.legs, i, j).workItems[k].status;
           if ReachesFailure(after.legs[i], j, k) then status == Blocked else status == NotStarted
  {
    hide Exec;
    hide RunInv;
    hide ReachesFailure;
    hide SubmitRefusal;
    hide RunExtends;
    hide HoldsSpecs;
    hide GoalsFollow;
    i, j := PlanLands(args, ops, e, p);
    var first := ops + [Submit(e, PlannerOutcome(p))];
    ItemsOnArrival(args, first, i, j);
    LegsGrow(args, first, more);
    HeldStays(Exec(args, true, first).state, Exec(args, true, first + more).state, i, j, p.workItems, args);
    hide LegsExtend;
  }

  lemma LegsGrow(args: Args, ops: seq<Op>, more: seq<Op>)
    requires ValidArgs(args)
    ensures LegsExtend(Exec(args, true, ops).state.legs, Exec(args, true, ops + more).state.legs)
  {
    ExecExtends(args, ops, more);
    hide Exec;
    hide LegsExtend;
  }

  lemma PlanLands(args: Args, ops: seq<Op>, e: nat, p: PlannerPayload) returns (i: nat, j: nat)
    requires ValidArgs(args) && e < |Exec(args, true, ops).nodes|
    requires SubmitRefusal(Exec(args, true, ops), e, PlannerOutcome(p)).None?
    ensures var run := Exec(args, true, ops);
      var meta := run.nodes[e].meta;
      var after := Exec(args, true, ops + [Submit(e, PlannerOutcome(p))]).state;
      && i == |run.state.legs| - 1 && j == |run.state.legs[i].attempts| - 1 && HasAttempt(after.legs, i, j)
      && after.legs[i].id == meta.legId && AttemptOf(after.legs, i, j).id == meta.attemptId
      && AttemptOf(after.legs, i, j).plan.id == meta.planId
      && AttemptOf(after.legs, i, j).plan.summary == Some(p.summary)
      && AttemptOf(after.legs, i, j).plan.status == Success
      && HoldsSpecs(AttemptOf(after.legs, i, j), p.workItems)
      && GoalsFollow(run.state.legs[i], after.legs[i], p)
      && forall k :: 0 <= k < |AttemptOf(after.legs, i, j).workItems| ==>
           AttemptOf(after.legs, i, j).workItems[k].status in {NotStarted, Blocked}
  {
    hide Exec;
    hide Step;
    hide RunInv;
    hide HoldsSpecs;
    hide GoalsFollow;
    var run, op := Exec(args, true, ops), Submit(e, PlannerOutcome(p));
    ExecKeepsInv(args, ops);
    ExecOneMore(args, true, ops, op);
    AcceptedBrings(run, e, PlannerOutcome(p));
    hide SubmitRefusal;
    PlanStep(run, e, p, args);
    i, j := |run.state.legs| - 1, |Last(run.state.legs).attempts| - 1;
  }

  lemma ItemsOnArrival(args: Args, ops: seq<Op>, i: nat, j: nat)
    requires ValidArgs(args) && HasAttempt(Exec(args, true, ops).state.legs, i, j)
    requires var a := AttemptOf(Exec(args, true, ops).state.legs, i, j);
      forall k :: 0 <= k < |a.workItems| ==> a.workItems[k].status in {NotStarted, Blocked}
    ensures var s := Exec(args, true, ops).state;
      forall k :: 0 <= k < |AttemptOf(s.legs, i, j).workItems| ==>
        var status := AttemptOf(s.legs, i, j).workItems[k].status;
        if ReachesFailure(s.legs[i], j, k) then status == Blocked else status == NotStarted
  {
    hide Exec;
    hide ReachesFailure;
    var s := Exec(args, true, ops).state;
    forall k | 0 <= k < |AttemptOf(s.legs, i, j).workItems|
      ensures var status := AttemptOf(s.legs, i, j).workItems[k].status;
        if ReachesFailure(s.legs[i], j, k) then status == Blocked else status == NotStarted
    {
      assert InLeg(s.legs[i], j, k);
      BlockedExactlyBelowFailures(args, ops, i, j, k);
    }
  }

  lemma HeldStays(a: State, b: State, i: nat, j: nat, specs: seq<ItemSpec>, args: Args)
    requires LegsExtend(a.legs, b.legs) && HasAttempt(a.legs, i, j) && HoldsSpecs(AttemptOf(a.legs, i, j), specs)
    requires AttemptOf(a.legs, i, j).plan.status != NotStarted
    ensures HasAttempt(b.legs, i, j) && HoldsSpecs(AttemptOf(b.legs, i, j), specs)
    ensures b.legs[i].id == a.legs[i].id && AttemptOf(b.legs, i, j).id == AttemptOf(a.legs, i, j).id
    ensures AttemptOf(b.legs, i, j).plan == AttemptOf(a.legs, i, j).plan
  {
    var x, y := a.legs[i].attempts[j], b.legs[i].attempts[j];
    assert LegExtends(a.legs[i], b.legs[i]) && AttemptExtends(x, y);
    forall k | 0 <= k < |x.workItems| ensures y.workItems[k].id == x.workItems[k].id
      ensures y.workItems[k].dependsOn == x.workItems[k].dependsOn
    {
      assert ItemExtends(x.workItems[k], y.workItems[k]);
    }
  }

  /** The plan that entry `e` submitted and that was accepted. */
  predicate AcceptedPlan(run: Run, e: int, p: PlannerPayload) {
    && 0 <= e < |run.nodes| && e in run.applied && run.nodes[e].meta.PlannerRole?
    && run.nodes[e].status == EntryCompleted && run.nodes[e].accepted == Some(PlannerOutcome(p))
  }

  /** The attempt's plan is one that a planner submitted, and its items are that plan's; a
      failed plan is one whose planner ended otherwise, and a pending one is nobody's yet. */
  ghost predicate PlanAccounted(run: Run, leg: Leg, a: Attempt) {
    match a.plan.status
    case Success => exists e, p :: AcceptedPlan(run, e, p) && HeldFrom(run.nodes, e, p, leg, a)
    case Failed => a.workItems == [] && exists e :: e in run.applied && GaveUp(run.nodes, e, a.plan.id)
    case NotStarted => a.workItems == [] && forall e :: e in run.applied ==> !PlannedBy(run.nodes, e, a.plan.id)
    case _ => false
  }

  predicate HeldFrom(nodes: seq<Entry>, e: int, p: PlannerPayload, leg: Leg, a: Attempt)
    requires 0 <= e < |nodes|
  {
    && PlannedBy(nodes, e, a.plan.id) && nodes[e].meta.legId == leg.id && nodes[e].meta.attemptId == a.id
    && HoldsSpecs(a, p.workItems)
  }

  predicate GaveUp(nodes: seq<Entry>, e: int, planId: Uuid) {
    PlannedBy(nodes, e, planId) && nodes[e].status in {EntryRejected, EntryCancelled, EntryFailed}
  }

  /** Conversely, every plan and every item of a reachable state was submitted. */
  lemma PlansComeFromSubmissions(args: Args, ops: seq<Op>, i: nat, j: nat)
    requires ValidArgs(args) && HasAttempt(Exec(args, true, ops).state.legs, i, j)
    ensures var run := Exec(args, true, ops);
      PlanAccounted(run, run.state.legs[i], AttemptOf(run.state.legs, i, j))
  {
    hide Exec;
    ExecKeepsInv(args, ops);
    ExecKeepsRecords(args, ops);
    var run := Exec(args, true, ops);
    ShapeOfRun(run, args, i);
    hide RunInv;
    hide Recorded;
    hide PlanAccounted;
    PlanBehind(run, args, i, j);
  }

  lemma ShapeOfRun(run: Run, args: Args, i: nat)
    requires RunInv(run, args) && i < |run.state.legs|
    ensures PursuitShape(run.state, args) && LegShape(Last(run.state.legs)) && LegShape(run.state.legs[i])
    ensures LogOk(run)
  {
    LegHasShape(run.state, args, i);
  }

  lemma PlanBehind(run: Run, args: Args, i: nat, j: nat)
    requires PursuitShape(run.state, args) && HasAttempt(run.state.legs, i, j) && LegShape(run.state.legs[i])
    requires LogOk(run) && Recorded(run)
    ensures PlanAccounted(run, run.state.legs[i], AttemptOf(run.state.legs, i, j))
  {
    var leg, a := run.state.legs[i], AttemptOf(run.state.legs, i, j);
    assert AttemptFits(leg, j);
    if a.plan.status == NotStarted {
      forall e | e in run.applied ensures !PlannedBy(run.nodes, e, a.plan.id) {
        if PlannedBy(run.nodes, e, a.plan.id) { AppliedPlanIsNotPending(run, args, e, i, j); }
      }
    } else {
      var e := PlannerOf(run.state, run.nodes, run.applied, i, j);
      if a.plan.status == Success {
        var p := run.nodes[e].accepted.value.plan;
        assert AcceptedPlan(run, e, p) && HeldFrom(run.nodes, e, p, leg, a);
      } else {
        assert GaveUp(run.nodes, e, a.plan.id);
      }
    }
  }

  lemma AppliedPlanIsNotPending(run: Run, args: Args, e: nat, i: nat, j: nat)
    requires PursuitShape(run.state, args) && Recorded(run) && HasAttempt(run.state.legs, i, j)
    requires e in run.applied && PlannedBy(run.nodes, e, AttemptOf(run.state.legs, i, j).plan.id)
    ensures AttemptOf(run.state.legs, i, j).plan.status != NotStarted
  {
    var s := run.state;
    assert PlannerRecorded(s, run.nodes[e]);
    var i2, j2 :| HasAttempt(s.legs, i2, j2) && PlanRecordedAt(s.legs[i2], j2, run.nodes[e]);
    assert AttemptOf(s.legs, i2, j2).plan.id == AttemptOf(s.legs, i, j).plan.id;
  }

  /** Dependency order, said of what was submitted: whatever worker was launched, its item is
      one of an accepted plan's, and for each id that plan made it depend on, a worker of the
      same leg and goal version had been launched before and had passed. */
  lemma WorkersStartAfterPasses(args: Args, ops: seq<Op>, e: nat)
    requires ValidArgs(args) && e < |Exec(args, true, ops).nodes|
    requires Exec(args, true, ops).nodes[e].meta.WorkerRole?
    ensures var run := Exec(args, true, ops); LaunchInOrder(run.nodes, run.applied, e)
  {
    hide Exec;
    ExecKeepsRecords(args, ops);
  }

  // ----- verdicts ----------------------------------------------------------------------------------

  /** Entry `e` worked on the item with this key, and its end reached the pursuit. */
  predicate Judged(run: Run, e: int, key: string) {
    e in run.applied && WorkedOn(run.nodes, e, key)
  }

  predicate JudgedAs(run: Run, e: int, key: string, passed: bool) {
    Judged(run, e, key) && Passed(run.nodes[e]) == passed
  }

  /** The item succeeded if and only if a worker submitted that it passed, and failed if and
      only if a worker submitted that it did not or ended otherwise; a submission's summary
      and outcome are the item's. */
  ghost predicate VerdictAccounted(run: Run, item: WorkItem) {
    && (item.status == Success <==> exists e :: JudgedAs(run, e, item.key, true))
    && (item.status == Failed <==> exists e :: JudgedAs(run, e, item.key, false))
    && (forall e, w :: Judged(run, e, item.key) && run.nodes[e].accepted == Some(WorkerOutcome(w)) ==>
          item.summary == Some(w.summary) && item.outcome == Some(w.outcome))
  }

  lemma VerdictsDecideItems(args: Args, ops: seq<Op>, i: nat, j: nat, k: nat)
    requires ValidArgs(args)
    requires i < |Exec(args, true, ops).state.legs| && InLeg(Exec(args, true, ops).state.legs[i], j, k)
    ensures var run := Exec(args, true, ops); VerdictAccounted(run, Item(run.state.legs[i], j, k))
  {
    hide Exec;
    ExecKeepsInv(args, ops);
    ExecKeepsRecords(args, ops);
    var run := Exec(args, true, ops);
    ShapeOfRun(run, args, i);
    hide RunInv;
    hide Recorded;
    hide VerdictAccounted;
    VerdictsBehind(run, args, i, j, k);
  }

  lemma VerdictsBehind(run: Run, args: Args, i: nat, j: nat, k: nat)
    requires PursuitShape(run.state, args) && LegShape(Last(run.state.legs)) && LogOk(run) && Recorded(run)
    requires i < |run.state.legs| && InLeg(run.state.legs[i], j, k)
    ensures VerdictAccounted(run, Item(run.state.legs[i], j, k))
  {
    hide PursuitShape;
    hide LegShape;
    hide EntriesRecorded;
    hide ItemsHaveEntries;
    hide PlansHaveEntries;
    hide FailuresExplained;
    hide LaunchesInOrder;
    var s, item := run.state, Item(run.state.legs[i], j, k);
    forall e | Judged(run, e, item.key) ensures RecordedAt(s.legs[i], j, k, run.nodes[e]) {
      SettledBy(s, run.nodes, run.applied, args, e, i, j, k);
    }
    if Settled(item) {
      var e := SettlerOf(s, run.nodes, run.applied, args, i, j, k);
      assert JudgedAs(run, e, item.key, item.status == Success);
    }
  }

  /** Conversely, every worker whose end reached the pursuit left exactly that on the item it
      was launched for. */
  lemma EveryVerdictIsHeld(args: Args, ops: seq<Op>, e: nat)
    requires ValidArgs(args) && e in Exec(args, true, ops).applied
    requires e < |Exec(args, true, ops).nodes| && Exec(args, true, ops).nodes[e].meta.WorkerRole?
    ensures var run := Exec(args, true, ops);
      exists i, j, k :: 0 <= i < |run.state.legs| && InLeg(run.state.legs[i], j, k)
        && RecordedAt(run.state.legs[i], j, k, run.nodes[e])
  {
    hide Exec;
    ExecKeepsRecords(args, ops);
    assert WorkerRecorded(Exec(args, true, ops).state, Exec(args, true, ops).nodes[e]);
  }

  ghost predicate PassedItem(run: Run, item: WorkItem) {
    exists e :: JudgedAs(run, e, item.key, true)
  }

  /** A successful run rests on submissions: every leg's last plan was accepted, each of its
      items was passed by a worker, and the outcome's summary is the last plan's. */
  lemma SuccessRestsOnPasses(args: Args, ops: seq<Op>, i: nat) returns (e: nat, p: PlannerPayload)
    requires ValidArgs(args) && i < |Exec(args, true, ops).state.legs|
    requires Exec(args, true, ops).finished.Some? && Exec(args, true, ops).finished.value.SuccessOutcome?
    ensures var run := Exec(args, true, ops);
      |run.state.legs[i].attempts| >= 1 &&
      var a := Last(run.state.legs[i].attempts);
      && AcceptedPlan(run, e, p) && HeldFrom(run.nodes, e, p, run.state.legs[i], a)
      && |a.workItems| == |p.workItems| >= 1
      && (forall k :: 0 <= k < |a.workItems| ==> PassedItem(run, a.workItems[k]))
      && (i == |run.state.legs| - 1 ==> run.finished == Some(SuccessOutcome(p.summary)))
  {
    hide Exec;
    ExecKeepsInv(args, ops);
    ExecKeepsRecords(args, ops);
    var run := Exec(args, true, ops);
    WonRun(run, args, i);
    hide RunInv;
    hide Recorded;
    hide LegWon;
    hide LegShape;
    hide PursuitShape;
    hide LogOk;
    hide HeldFrom;
    hide AcceptedPlan;
    hide PassedItem;
    e, p := PassesBehind(run, args, i);
  }

  lemma WonRun(run: Run, args: Args, i: nat)
    requires RunInv(run, args) && i < |run.state.legs|
    requires run.finished.Some? && run.finished.value.SuccessOutcome?
    ensures run.finished == Some(SuccessOutcome(TerminalSummary(run.state))) && LegWon(run.state.legs[i])
    ensures PursuitShape(run.state, args) && LegShape(Last(run.state.legs)) && LogOk(run)
  {
    assert Won(run.state, args);
    WonMeans(run.state, args);
  }

  lemma PlanOfWon(run: Run, args: Args, i: nat) returns (e: nat, p: PlannerPayload)
    requires PursuitShape(run.state, args) && Recorded(run)
    requires i < |run.state.legs| && LegWon(run.state.legs[i])
    ensures |run.state.legs[i].attempts| >= 1
    ensures var a := Last(run.state.legs[i].attempts);
      && AcceptedPlan(run, e, p) && HeldFrom(run.nodes, e, p, run.state.legs[i], a)
      && |a.workItems| == |p.workItems| >= 1 && a.plan.summary == Some(p.summary)
  {
    var leg := run.state.legs[i];
    var j := |leg.attempts| - 1;
    assert AttemptFits(leg, j) && IdsFresh(run.state.legs, run.state.minted);
    assert leg.attempts[j].plan.status == Success && |leg.attempts[j].workItems| > 0;
    hide LegWon;
    hide PursuitShape;
    hide IdsFresh;
    hide AttemptFits;
    hide EntriesRecorded;
    hide ItemsHaveEntries;
    hide PlansHaveEntries;
    hide FailuresExplained;
    hide LaunchesInOrder;
    e := PlannerOf(run.state, run.nodes, run.applied, i, j);
    p := run.nodes[e].accepted.value.plan;
  }

  lemma PassesBehind(run: Run, args: Args, i: nat) returns (e: nat, p: PlannerPayload)
    requires PursuitShape(run.state, args) && LegShape(Last(run.state.legs)) && LogOk(run) && Recorded(run)
    requires i < |run.state.legs| && LegWon(run.state.legs[i])
    ensures |run.state.legs[i].attempts| >= 1
    ensures var a := Last(run.state.legs[i].attempts);
      && AcceptedPlan(run, e, p) && HeldFrom(run.nodes, e, p, run.state.legs[i], a)
      && |a.workItems| == |p.workItems| >= 1
      && (forall k :: 0 <= k < |a.workItems| ==> PassedItem(run, a.workItems[k]))
      && (i == |run.state.legs| - 1 ==> TerminalSummary(run.state) == p.summary)
  {
    hide Recorded;
    hide PursuitShape;
    hide LogOk;
    hide LegShape;
    hide LegWon;
    hide HeldFrom;
    hide AcceptedPlan;
    hide PassedItem;
    e, p := PlanOfWon(run, args, i);
    ItemsPassed(run, args, i);
  }

  lemma ItemsPassed(run: Run, args: Args, i: nat)
    requires PursuitShape(run.state, args) && LegShape(Last(run.state.legs)) && LogOk(run) && Recorded(run)
    requires i < |run.state.legs| && LegWon(run.state.legs[i])
    ensures var a := Last(run.state.legs[i].attempts);
      forall k :: 0 <= k < |a.workItems| ==> PassedItem(run, a.workItems[k])
  {
    var leg := run.state.legs[i];
    var j := |leg.attempts| - 1;
    hide Recorded;
    hide PursuitShape;
    hide LogOk;
    hide LegShape;
    forall k | 0 <= k < |leg.attempts[j].workItems| ensures PassedItem(run, leg.attempts[j].workItems[k]) {
      VerdictsBehind(run, args, i, j, k);
      assert Item(leg, j, k).status == Success;
    }
  }
}
