/** The invariant of a pursuit run, kept by every operation whatever it carries, and how a
    run only grows: its legs, its entries, its timeline and its applied settlements. */
module WorkflowInvariant {
  import opened Text
  import opened PursuitState
  import opened PursuitProgress
  import opened PursuitInvariant
  import opened PursuitSteps
  import opened PursuitClosing
  import opened PursuitReconcile
  import opened PursuitApply
  import opened WorkflowRun
  import opened WorkflowSafety

  /** Interrupted: the pursuit stays where it was, and the workflow is over. */
  ghost predicate Stopped(s: State, args: Args) {
    && PursuitShape(s, args)
    && s.done && s.workflowStatus == Failure && s.pursuit.status == Running
    && LegSettled(Last(s.legs))
  }

  /** A live run: some node works, all running nodes are on distinct targets, and
      everything ready has been launched. */
  ghost predicate RunLive(run: Run, args: Args) {
    && run.finished.None?
    && Open(run.state, args)
    && TargetsHeld(run.state, run.nodes)
    && NoSharedTarget(run.nodes)
    && AnyRunning(run.nodes)
    && Saturated(run.state, run.nodes)
  }

  ghost predicate RunOver(run: Run, args: Args) {
    && NoneRunning(run.nodes)
    && (|| (Won(run.state, args) && run.finished == Some(SuccessOutcome(TerminalSummary(run.state))))
        || (Lost(run.state, args) && run.finished == Some(FailureOutcome(run.state.failures)))
        || (Stopped(run.state, args) && run.finished.Some? && run.finished.value.CancelledOutcome?))
  }

  /** The finish event closes the timeline and nothing else carries it; no deadlock is reported. */
  ghost predicate TimelineOk(run: Run) {
    && |run.timeline| >= 1
    && forall t :: 0 <= t < |run.timeline| ==>
         run.timeline[t] != WorkflowDeadlocked &&
         (run.timeline[t] == WorkflowFinished <==> t == |run.timeline| - 1 && run.finished.Some?)
  }

  /** From `n` on, neither a finish nor a deadlock is reported. */
  ghost predicate Quiet(timeline: seq<EventKind>, n: nat) {
    forall t :: n <= t < |timeline| ==> timeline[t] != WorkflowFinished && timeline[t] != WorkflowDeadlocked
  }

  /** Each entry's settlement reached the pursuit at most once, exactly when the entry
      ended otherwise than by an interrupt. */
  ghost predicate LogOk(run: Run) {
    && (forall a, b :: 0 <= a < b < |run.applied| ==> run.applied[a] != run.applied[b])
    && (forall e :: e in run.applied ==> e < |run.nodes|)
    && (forall e :: 0 <= e < |run.nodes| ==>
          (e in run.applied ==> run.nodes[e].status != EntryRunning) &&
          (run.nodes[e].status != EntryRunning && e !in run.applied ==>
             run.nodes[e].status == EntryCancelled && run.finished.Some? && run.finished.value.CancelledOutcome?) &&
          (run.nodes[e].status == EntryCompleted <==> run.nodes[e].accepted.Some?))
  }

  /** The item a worker was launched for still has all its dependencies succeeded. */
  ghost predicate LaunchedReady(s: State, meta: Metadata) {
    meta.WorkerRole? ==>
      exists i, j, k :: 0 <= i < |s.legs| && InLeg(s.legs[i], j, k) &&
        LaunchedFor(s.legs[i], Item(s.legs[i], j, k), meta)
  }

  ghost predicate LaunchedFor(leg: Leg, item: WorkItem, meta: Metadata)
    requires meta.WorkerRole?
  {
    leg.id == meta.legId && item.id == meta.workItemId && item.key == meta.workItemKey &&
      DependenciesSucceeded(leg, item)
  }

  ghost predicate LaunchesOk(run: Run) {
    forall e :: 0 <= e < |run.nodes| ==> LaunchedReady(run.state, run.nodes[e].meta)
  }

  ghost predicate RunInv(run: Run, args: Args) {
    (RunLive(run, args) || RunOver(run, args)) && TimelineOk(run) && LogOk(run) && LaunchesOk(run)
  }

  // ----- a run only grows --------------------------------------------------------------

  /** An entry keeps its target, and once it has ended it never changes. */
  ghost predicate EntryExtends(a: Entry, b: Entry) {
    b.meta == a.meta && (a.status != EntryRunning ==> b == a)
  }

  ghost predicate RunExtends(a: Run, b: Run) {
    && LegsExtend(a.state.legs, b.state.legs)
    && |a.nodes| <= |b.nodes|
    && (forall e :: 0 <= e < |a.nodes| ==> EntryExtends(a.nodes[e], b.nodes[e]))
    && a.timeline <= b.timeline
    && a.applied <= b.applied
    && (a.finished.Some? ==> b == a)
  }

  lemma RunExtendsTransitive(a: Run, b: Run, c: Run)
    requires RunExtends(a, b) && RunExtends(b, c)
    ensures RunExtends(a, c)
  {
    LegsExtendTransitive(a.state.legs, b.state.legs, c.state.legs);
  }

  lemma LegsExtendReflexive(legs: seq<Leg>)
    ensures LegsExtend(legs, legs)
  {
    forall i | 0 <= i < |legs| ensures LegExtends(legs[i], legs[i]) { LegExtendsReflexive(legs[i]); }
  }

  // ----- launches -------------------------------------------------------------------------

  lemma OnTargetIsLaunchedReady(s: State, meta: Metadata)
    requires OnTarget(s, meta)
    ensures LaunchedReady(s, meta)
  {
    if meta.WorkerRole? {
      var n := |s.legs| - 1;
      var leg := s.legs[n];
      var j := |leg.attempts| - 1;
      var k :| 0 <= k < |leg.attempts[j].workItems| &&
        WorksOn(leg, leg.attempts[j].workItems[k], meta.workItemId, meta.workItemKey);
      assert InLeg(leg, j, k) && LaunchedFor(leg, Item(leg, j, k), meta);
    }
  }

  lemma LaunchedReadyStays(s: State, r: State, meta: Metadata)
    requires LaunchedReady(s, meta) && LegsExtend(s.legs, r.legs)
    requires forall i :: 0 <= i < |r.legs| ==> Unique(r.legs[i])
    ensures LaunchedReady(r, meta)
  {
    if meta.WorkerRole? {
      var i, j, k :| 0 <= i < |s.legs| && InLeg(s.legs[i], j, k) && LaunchedFor(s.legs[i], Item(s.legs[i], j, k), meta);
      var a, b := s.legs[i], r.legs[i];
      assert LegExtends(a, b);
      assert AttemptExtends(a.attempts[j], b.attempts[j]);
      assert ItemExtends(Item(a, j, k), Item(b, j, k));
      ExtendsKeepsReliance(a, b, Item(a, j, k));
      SameReliance(b, Item(a, j, k), Item(b, j, k));
      assert InLeg(b, j, k) && LaunchedFor(b, Item(b, j, k), meta);
    }
  }

  lemma AllLegsUnique(s: State, args: Args)
    requires PursuitShape(s, args) && LegShape(Last(s.legs))
    ensures forall i :: 0 <= i < |s.legs| ==> Unique(s.legs[i])
  {
    forall i | 0 <= i < |s.legs| ensures Unique(s.legs[i]) {
      if i < |s.legs| - 1 { assert LegWon(s.legs[i]); }
    }
  }

  // ----- dispatching keeps the invariant -----------------------------------------------------

  /** A run between its reconcile and its dispatch. */
  ghost predicate RunPending(run: Run, args: Args) {
    && run.finished.None?
    && Open(run.state, args) && TargetsHeld(run.state, run.nodes) && NoSharedTarget(run.nodes)
    && TimelineOk(run) && LogOk(run) && LaunchesOk(run)
  }

  lemma DispatchNonEmptyWhenIdle(run: Run, args: Args)
    requires Open(run.state, args) && !AnyRunning(run.nodes)
    ensures Dispatches(run.state, RunningOf(run.nodes), true) != []
  {
    NoneRunningIsEmpty(run.nodes);
    OpenPursuitDispatches(run.state, args);
  }

  lemma ClaimsKeepLog(run: Run, ds: seq<Metadata>)
    requires LogOk(run)
    ensures LogOk(Emit(run, WorkflowDispatched).(nodes := run.nodes + Claims(ds)))
  {
  }

  lemma ClaimsKeepLaunches(run: Run, ds: seq<Metadata>)
    requires LaunchesOk(run)
    requires forall d :: d in ds ==> LaunchedReady(run.state, d)
    ensures LaunchesOk(Emit(run, WorkflowDispatched).(nodes := run.nodes + Claims(ds)))
  {
    var r := Emit(run, WorkflowDispatched).(nodes := run.nodes + Claims(ds));
    forall e | 0 <= e < |r.nodes| ensures LaunchedReady(r.state, r.nodes[e].meta) {
      if e >= |run.nodes| { assert ds[e - |run.nodes|] in ds; }
    }
  }

  lemma DispatchKeepsInv(run: Run, args: Args)
    requires RunPending(run, args)
    ensures RunLive(DispatchAll(run, true), args)
    ensures RunInv(DispatchAll(run, true), args) && RunExtends(run, DispatchAll(run, true))
    ensures DispatchAll(run, true).state == run.state
  {
    var ds := Dispatches(run.state, RunningOf(run.nodes), true);
    LegsExtendReflexive(run.state.legs);
    if ds == [] {
      if !AnyRunning(run.nodes) { DispatchNonEmptyWhenIdle(run, args); }
    } else {
      ClaimsKeepTargets(run.state, run.nodes, args);
      ClaimsSaturate(run.state, run.nodes, args);
      assert (run.nodes + Claims(ds))[|run.nodes|].status == EntryRunning;
      forall d | d in ds ensures LaunchedReady(run.state, d) {
        DispatchIsOnTarget(run.state, RunningOf(run.nodes), d, args);
        OnTargetIsLaunchedReady(run.state, d);
      }
      ClaimsKeepLog(run, ds);
      ClaimsKeepLaunches(run, ds);
    }
  }

  // ----- start ----------------------------------------------------------------------------------

  ghost predicate ValidArgs(args: Args) {
    args.maxAttempts >= 1
  }

  lemma InitialStateIsOpen(args: Args)
    requires ValidArgs(args)
    ensures Open(CreateInitialState(args), args)
  {
    var s := CreateInitialState(args);
    var init := LegInit(1, s.legs[0].legGoal, s.legs[0].nextLegGoal, args.maxAttempts);
    FreshLegFits(init, 0);
    assert s.legs[0] == CreateLeg(init, 0);
    assert LegFollows(s.legs[0], args, 0);
  }

  lemma StartKeepsInv(args: Args)
    requires ValidArgs(args)
    ensures RunInv(StartRun(args, true), args)
  {
    InitialStateIsOpen(args);
    var run := Run(CreateInitialState(args), [], None, [WorkflowStarted, SnapshotRecorded], []);
    assert RunPending(run, args);
    DispatchKeepsInv(run, args);
  }

  // ----- settling one entry ------------------------------------------------------------------------

  /** `b` is live run `a` right after entry `e` was marked as ended by `st`. */
  ghost predicate Ended(a: Run, b: Run, e: nat, st: Settlement) {
    && e < |a.nodes| && a.nodes[e].status == EntryRunning
    && (st.Completed? ==> FitsSchema(a.nodes[e].meta, st.payload))
    && ValidationError(a.state, a.nodes[e].meta, st) == None
    && b.state == a.state && b.finished == a.finished && b.applied == a.applied
    && b.nodes == a.nodes[e := Entry(a.nodes[e].meta, StatusOf(st), if st.Completed? then Some(st.payload) else None)]
    && (b.timeline == a.timeline || b.timeline == a.timeline + [OutcomeReceived])
  }

  ghost predicate EvaluatedTo(a: Run, b: Run, r: Run, e: nat, args: Args) {
    && r.nodes == b.nodes && r.finished.None? && r.applied == a.applied + [e]
    && LegsExtend(a.state.legs, r.state.legs)
    && TargetsHeld(r.state, r.nodes) && (r.state.done ==> NoneRunning(r.nodes))
    && (Open(r.state, args) || Won(r.state, args) || Lost(r.state, args))
    && b.timeline <= r.timeline && Quiet(r.timeline, |b.timeline|)
    && Descends(a.state, r.state)
  }

  /** The pursuit closed, opened another leg, or used up part of its current leg. */
  ghost predicate Descends(a: State, b: State) {
    || b.done
    || |b.legs| == |a.legs| + 1
    || (|a.legs| >= 1 && |b.legs| == |a.legs| && LegDescends(Last(a.legs), Last(b.legs)))
  }

  lemma StepDescends(s: State, m: State, r: State, args: Args)
    requires ApplyResult(s, m, args) && ReconcileResult(m, r, args) && |s.legs| >= 1
    ensures Descends(s, r) && LegsExtend(s.legs, r.legs)
  {
    LegsExtendTransitive(s.legs, m.legs, r.legs);
  }

  lemma EvaluateShape(run: Run, e: nat, st: Settlement)
    requires e < |run.nodes| && (st.Completed? ==> FitsSchema(run.nodes[e].meta, st.payload))
    ensures var r := Evaluate(run, e, st);
      var m := ApplySettlement(run.state, run.nodes[e].meta, st).state;
      && r.nodes == run.nodes && r.finished == run.finished && r.applied == run.applied + [e]
      && r.state == Reconcile(m, RunningOf(run.nodes)).state
      && run.timeline <= r.timeline
      && Quiet(r.timeline, |run.timeline|)
  {
    hide ReconcileFrom;
    hide ApplyPlanner;
    hide ApplyWorker;
  }

  lemma EvaluateKeeps(a: Run, b: Run, r: Run, m: State, e: nat, st: Settlement, args: Args)
    requires RunLive(a, args) && Ended(a, b, e, st)
    requires m == ApplySettlement(a.state, a.nodes[e].meta, st).state
    requires r.nodes == b.nodes && r.finished == b.finished && r.applied == b.applied + [e]
    requires r.state == Reconcile(m, RunningOf(b.nodes)).state
    requires b.timeline <= r.timeline && Quiet(r.timeline, |b.timeline|)
    ensures EvaluatedTo(a, b, r, e, args)
  {
    hide LegExtends;
    AppliedKeepsTargets(a.state, a.nodes, b.nodes, e, st, args);
    assert ApplyResult(a.state, m, args) && TargetsHeld(m, b.nodes);
    ReconciledKeepsTargets(m, b.nodes, args);
    StepDescends(a.state, m, r.state, args);
  }

  lemma EndedKeepsLog(a: Run, b: Run, r: Run, e: nat, st: Settlement)
    requires LogOk(a) && Ended(a, b, e, st) && a.finished.None?
    requires r.nodes == b.nodes && r.applied == a.applied + [e] && r.finished.None?
    ensures LogOk(r)
  {
  }

  lemma GrownTimeline(a: Run, b: Run, r: Run)
    requires TimelineOk(a) && a.finished.None? && r.finished.None?
    requires b.timeline == a.timeline || b.timeline == a.timeline + [OutcomeReceived]
    requires b.timeline <= r.timeline && Quiet(r.timeline, |b.timeline|)
    ensures TimelineOk(r) && a.timeline <= r.timeline
  {
  }

  lemma EndedKeepsLaunches(a: Run, r: Run, args: Args)
    requires LaunchesOk(a) && |r.nodes| == |a.nodes| && LegsExtend(a.state.legs, r.state.legs)
    requires forall e :: 0 <= e < |a.nodes| ==> r.nodes[e].meta == a.nodes[e].meta
    requires PursuitShape(r.state, args) && LegShape(Last(r.state.legs))
    ensures LaunchesOk(r)
  {
    AllLegsUnique(r.state, args);
    forall e | 0 <= e < |r.nodes| ensures LaunchedReady(r.state, r.nodes[e].meta) {
      LaunchedReadyStays(a.state, r.state, a.nodes[e].meta);
    }
  }

  lemma EndedKeepsDistinct(a: Run, b: Run, e: nat, st: Settlement)
    requires NoSharedTarget(a.nodes) && Ended(a, b, e, st)
    ensures NoSharedTarget(b.nodes)
  {
  }

  lemma EvaluatedExtends(a: Run, b: Run, r: Run, e: nat, st: Settlement, args: Args)
    requires RunLive(a, args) && Ended(a, b, e, st) && EvaluatedTo(a, b, r, e, args)
    ensures RunExtends(a, r)
  {
    hide LegsExtend;
    hide TargetsHeld;
    hide Open;
    hide Won;
    hide Lost;
    hide Quiet;
    hide Descends;
    hide ValidationError;
    hide NoSharedTarget;
    hide Saturated;
    hide AnyRunning;
  }

  lemma FinishKeepsInv(run: Run, args: Args)
    requires run.finished.None? && NoneRunning(run.nodes) && (Won(run.state, args) || Lost(run.state, args))
    requires TimelineOk(run) && LogOk(run) && LaunchesOk(run)
    ensures RunInv(Finish(run, PursuitOutcome(run.state)), args)
    ensures RunExtends(run, Finish(run, PursuitOutcome(run.state)))
  {
    LegsExtendReflexive(run.state.legs);
  }

  /** An accepted settlement keeps the invariant, grows the run by exactly one applied
      entry, and moves the pursuit down. */
  lemma SettleKeepsInv(a: Run, b: Run, e: nat, st: Settlement, args: Args)
    requires RunInv(a, args) && RunLive(a, args) && Ended(a, b, e, st)
    ensures var r := ApplyValidated(b, e, st, true);
      RunInv(r, args) && RunExtends(a, r) && r.applied == a.applied + [e] && Descends(a.state, r.state)
  {
    var r := Evaluate(b, e, st);
    EvaluateShape(b, e, st);
    EvaluateKeeps(a, b, r, ApplySettlement(a.state, a.nodes[e].meta, st).state, e, st, args);
    AfterEvaluate(a, b, r, e, st, args);
  }

  /** The evaluated run keeps its records; what is left is to finish or to dispatch. */
  lemma EvaluatedKeepsRecords(a: Run, b: Run, r: Run, e: nat, st: Settlement, args: Args)
    requires RunInv(a, args) && RunLive(a, args) && Ended(a, b, e, st) && EvaluatedTo(a, b, r, e, args)
    ensures TimelineOk(r) && LogOk(r) && LaunchesOk(r) && RunExtends(a, r) && NoSharedTarget(r.nodes)
  {
    hide RunExtends;
    hide LaunchesOk;
    hide TargetsHeld;
    hide LogOk;
    hide TimelineOk;
    hide LegsExtend;
    hide Descends;
    hide ValidationError;
    hide Saturated;
    EndedKeepsLog(a, b, r, e, st);
    GrownTimeline(a, b, r);
    EndedKeepsLaunches(a, r, args);
    EndedKeepsDistinct(a, b, e, st);
    EvaluatedExtends(a, b, r, e, st, args);
  }

  lemma FinishAfterEvaluate(a: Run, b: Run, r: Run, e: nat, args: Args)
    requires EvaluatedTo(a, b, r, e, args) && r.state.done
    requires TimelineOk(r) && LogOk(r) && LaunchesOk(r)
    ensures var f := FinishOrDispatch(r, true);
      RunInv(f, args) && RunExtends(r, f) && f.applied == r.applied && f.state == r.state
  {
    hide RunExtends;
    hide LaunchesOk;
    hide LogOk;
    hide TimelineOk;
    hide RunInv;
    hide TargetsHeld;
    FinishKeepsInv(r, args);
  }

  lemma DispatchAfterEvaluate(a: Run, b: Run, r: Run, e: nat, args: Args)
    requires EvaluatedTo(a, b, r, e, args) && !r.state.done
    requires TimelineOk(r) && LogOk(r) && LaunchesOk(r) && NoSharedTarget(r.nodes)
    ensures var f := FinishOrDispatch(r, true);
      RunInv(f, args) && RunExtends(r, f) && f.applied == r.applied && f.state == r.state
  {
    hide RunExtends;
    hide LaunchesOk;
    hide LogOk;
    hide TimelineOk;
    hide RunInv;
    hide TargetsHeld;
    hide NoSharedTarget;
    DispatchKeepsInv(r, args);
  }

  lemma AfterEvaluate(a: Run, b: Run, r: Run, e: nat, st: Settlement, args: Args)
    requires RunInv(a, args) && RunLive(a, args) && Ended(a, b, e, st)
    requires EvaluatedTo(a, b, r, e, args)
    ensures var f := FinishOrDispatch(r, true);
      RunInv(f, args) && RunExtends(a, f) && f.applied == a.applied + [e] && Descends(a.state, f.state)
  {
    EvaluatedKeepsRecords(a, b, r, e, st, args);
    if r.state.done { FinishAfterEvaluate(a, b, r, e, args); } else { DispatchAfterEvaluate(a, b, r, e, args); }
    RunExtendsTransitive(a, r, FinishOrDispatch(r, true));
    hide RunInv;
    hide RunLive;
    hide RunExtends;
    hide LaunchesOk;
    hide FinishOrDispatch;
    hide Ended;
    hide Descends;
    hide TargetsHeld;
  }

  // ----- operations ------------------------------------------------------------------------------------

  lemma RefusedSubmitKeepsInv(a: Run, args: Args)
    requires RunInv(a, args) && RunLive(a, args)
    ensures RunInv(Emit(a, OutcomeReceived), args) && RunExtends(a, Emit(a, OutcomeReceived))
  {
    LegsExtendReflexive(a.state.legs);
  }

  lemma RunExtendsReflexive(run: Run)
    ensures RunExtends(run, run)
  {
    LegsExtendReflexive(run.state.legs);
  }

  lemma SubmitKeepsInv(a: Run, e: nat, payload: Payload, args: Args)
    requires RunInv(a, args) && e < |a.nodes|
    ensures var r := SubmitCompletion(a, e, payload, true);
      RunInv(r, args) && RunExtends(a, r) &&
      (if SubmitRefusal(a, e, payload).None? then r.applied == a.applied + [e] && Descends(a.state, r.state)
       else r.applied == a.applied && r.state == a.state && r.nodes == a.nodes)
  {
    hide RunExtends;
    hide ValidationError;
    hide ApplyValidated;
    RunExtendsReflexive(a);
    if a.nodes[e].status == EntryRunning {
      if SubmitRefusal(a, e, payload).None? {
        var b := Emit(a, OutcomeReceived).(nodes :=
          a.nodes[e := a.nodes[e].(status := EntryCompleted, accepted := Some(payload))]);
        SettleKeepsInv(a, b, e, Completed(payload), args);
      } else {
        RefusedSubmitKeepsInv(a, args);
      }
    }
  }

  lemma ReportKeepsInv(a: Run, e: nat, st: Settlement, args: Args)
    requires RunInv(a, args) && e < |a.nodes|
    ensures var r := ReportSettlement(a, e, st, true);
      RunInv(r, args) && RunExtends(a, r) &&
      (r == a || (r.applied == a.applied + [e] && Descends(a.state, r.state)))
  {
    RunExtendsReflexive(a);
    if !st.Completed? && a.nodes[e].status == EntryRunning && ValidationError(a.state, a.nodes[e].meta, st).None? {
      var b := a.(nodes := a.nodes[e := a.nodes[e].(status := StatusOf(st))]);
      assert a.nodes[e].accepted == None;
      SettleKeepsInv(a, b, e, st, args);
    }
  }

  lemma InterruptKeepsInv(a: Run, reason: string, args: Args)
    requires RunInv(a, args)
    ensures var r := InterruptRun(a, reason);
      RunInv(r, args) && RunExtends(a, r) && r.applied == a.applied &&
      NoneRunning(r.nodes) && r.finished.Some?
  {
    hide LegExtends;
    hide LegSettled;
    hide LaunchedReady;
    RunExtendsReflexive(a);
    LegsExtendReflexive(a.state.legs);
    if a.finished.None? {
      var r := InterruptRun(a, reason);
      assert Stopped(r.state, args);
      forall e | 0 <= e < |r.nodes| ensures LaunchedReady(r.state, r.nodes[e].meta) {
        assert LaunchedReady(a.state, a.nodes[e].meta);
        LaunchedReadySameLegs(a.state, r.state, a.nodes[e].meta);
      }
    }
  }

  lemma LaunchedReadySameLegs(s: State, r: State, meta: Metadata)
    requires LaunchedReady(s, meta) && r.legs == s.legs
    ensures LaunchedReady(r, meta)
  {
  }

  /** Every operation, whatever it carries, keeps the invariant and only grows the run. */
  lemma StepKeepsInv(run: Run, op: Op, args: Args)
    requires RunInv(run, args)
    ensures RunInv(Step(run, op, true), args) && RunExtends(run, Step(run, op, true))
  {
    hide RunInv;
    hide RunExtends;
    hide SubmitCompletion;
    hide ReportSettlement;
    hide InterruptRun;
    RunExtendsReflexive(run);
    match op {
      case Submit(e, payload) => if e < |run.nodes| { SubmitKeepsInv(run, e, payload, args); }
      case Report(e, st) => if e < |run.nodes| { ReportKeepsInv(run, e, st, args); }
      case Interrupt(reason) => InterruptKeepsInv(run, reason, args);
    }
  }

  lemma {:induction false} ExecKeepsInv(args: Args, ops: seq<Op>)
    requires ValidArgs(args)
    ensures RunInv(Exec(args, true, ops), args)
  {
    ExecUnfolds(args, true, ops);
    if ops == [] {
      StartKeepsInv(args);
    } else {
      ExecKeepsInv(args, ops[..|ops| - 1]);
      StepKeepsInv(Exec(args, true, ops[..|ops| - 1]), ops[|ops| - 1], args);
    }
  }

  lemma ExecOneMore(args: Args, bound: bool, ops: seq<Op>, op: Op)
    ensures Exec(args, bound, ops + [op]) == Step(Exec(args, bound, ops), op, bound)
  {
    assert (ops + [op])[..|ops + [op]| - 1] == ops;
    ExecUnfolds(args, bound, ops + [op]);
  }

  lemma OneMoreExtends(args: Args, ops: seq<Op>, op: Op)
    requires ValidArgs(args)
    ensures RunExtends(Exec(args, true, ops), Exec(args, true, ops + [op]))
  {
    ExecOneMore(args, true, ops, op);
    ExecKeepsInv(args, ops);
    StepKeepsInv(Exec(args, true, ops), op, args);
  }

  /** Whatever happens later only extends a run. */
  lemma {:induction false} ExecExtends(args: Args, ops: seq<Op>, more: seq<Op>)
    requires ValidArgs(args)
    ensures RunExtends(Exec(args, true, ops), Exec(args, true, ops + more))
    decreases |more|
  {
    hide *;
    if more == [] {
      assert ops + more == ops;
      RunExtendsReflexive(Exec(args, true, ops));
    } else {
      var front, op := more[..|more| - 1], more[|more| - 1];
      ExecExtends(args, ops, front);
      OneMoreExtends(args, ops + front, op);
      assert ops + more == ops + front + [op];
      RunExtendsTransitive(Exec(args, true, ops), Exec(args, true, ops + front), Exec(args, true, ops + more));
    }
  }
}
