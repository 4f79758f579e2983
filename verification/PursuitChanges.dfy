/** What each operation accepts and changes. */
module PursuitChanges {
  import opened Text
  import opened PursuitState
  import opened PursuitProgress
  import opened PursuitInvariant
  import opened PursuitSteps
  import opened PursuitClosing
  import opened PursuitReconcile
  import opened PursuitApply
  import opened PursuitEffects
  import opened WorkflowRun
  import opened WorkflowSafety
  import opened WorkflowInvariant
  import opened WorkflowRecords
  import opened PursuitAccounts

  // ----- what is accepted ---------------------------------------------------------------------

  /** A running worker may submit any well-formed result, a running planner any plan that fits
      the current attempt. */
  ghost predicate Acceptable(run: Run, args: Args, e: nat, payload: Payload) {
    && e < |run.nodes| && run.nodes[e].status == EntryRunning
    && match run.nodes[e].meta
       case WorkerRole(_, _, _, _, _) =>
         payload.WorkerOutcome? && payload.work.summary != "" && payload.work.outcome != ""
       case PlannerRole(_, _, _, _) =>
         && payload.PlannerOutcome? && PlannerSchema(payload.plan)
         && |run.state.legs| >= 1 && |Last(run.state.legs).attempts| >= 1
         && PlanFits(ModeOf(args), Last(run.state.legs), |Last(run.state.legs).attempts|, payload.plan)
  }

  lemma {:induction false} LegIsFound(legs: seq<Leg>, n: nat)
    requires n < |legs| && forall i, i2 :: 0 <= i < i2 < |legs| ==> legs[i].id != legs[i2].id
    ensures LegIndex(legs, legs[n].id) == n
  {
  }

  lemma {:induction false} AttemptIsFound(attempts: seq<Attempt>, n: nat)
    requires n < |attempts| && forall i, i2 :: 0 <= i < i2 < |attempts| ==> attempts[i].id != attempts[i2].id
    ensures AttemptIndex(attempts, attempts[n].id) == n
  {
  }

  lemma {:induction false} ItemIsFound(items: seq<WorkItem>, k: nat)
    requires k < |items| && forall a, b :: 0 <= a < b < |items| ==> items[a].key != items[b].key
    ensures ItemIndex(items, items[k].id, items[k].key) == k
  {
  }

  lemma TargetIsFound(s: State, args: Args, meta: Metadata)
    requires Open(s, args) && OnTarget(s, meta)
    ensures FindAttempt(s, meta) == Some(Place(|s.legs| - 1, |Last(s.legs).attempts| - 1))
  {
    var n, leg := |s.legs| - 1, Last(s.legs);
    LegIsFound(s.legs, n);
    DistinctAttemptsInLeg(s, n);
    AttemptIsFound(leg.attempts, |leg.attempts| - 1);
    hide LegSettled;
    hide LegShape;
  }

  lemma WorkerItemIsFound(leg: Leg, j: nat, k: nat, meta: Metadata)
    requires LegShape(leg) && j == |leg.attempts| - 1 && InLeg(leg, j, k) && meta.WorkerRole?
    requires WorksOn(leg, Item(leg, j, k), meta.workItemId, meta.workItemKey)
    ensures ItemIndex(leg.attempts[j].workItems, meta.workItemId, meta.workItemKey) == k
  {
    CurrentKeysDistinct(leg);
    ItemIsFound(leg.attempts[j].workItems, k);
  }

  lemma WorkerIsValid(s: State, args: Args, meta: Metadata, st: Settlement)
    requires Open(s, args) && OnTarget(s, meta) && meta.WorkerRole? && (st.Completed? ==> FitsSchema(meta, st.payload))
    ensures ValidationError(s, meta, st) == None
  {
    var leg := Last(s.legs);
    var j := |leg.attempts| - 1;
    TargetIsFound(s, args, meta);
    var k: nat :| k < |leg.attempts[j].workItems| &&
      WorksOn(leg, leg.attempts[j].workItems[k], meta.workItemId, meta.workItemKey);
    WorkerItemIsFound(leg, j, k, meta);
    hide PursuitShape;
    hide LegSettled;
    hide FindAttempt;
  }

  lemma PlannerIsValid(s: State, args: Args, meta: Metadata, st: Settlement)
    requires Open(s, args) && OnTarget(s, meta) && meta.PlannerRole? && (st.Completed? ==> FitsSchema(meta, st.payload))
    ensures ValidationError(s, meta, st) == None <==>
      (st.Completed? ==> PlanFits(ModeOf(args), Last(s.legs), |Last(s.legs).attempts|, st.payload.plan))
  {
    var leg := Last(s.legs);
    var j := |leg.attempts| - 1;
    TargetIsFound(s, args, meta);
    assert leg.attempts[j].sequence == j + 1 by { assert AttemptFits(leg, j); }
    assert s.pursuit.mode == ModeOf(args);
    hide PursuitShape;
    hide LegSettled;
    hide FindAttempt;
    hide PlanFits;
    hide PlannerSubmissionError;
    if st.Completed? { PlanAcceptedExactlyWhenFit(s.pursuit.mode, leg, leg.attempts[j].sequence, st.payload.plan); }
  }

  /** The pursuit accepts whatever a running node reports, and its submission if a plan fits. */
  lemma RunningIsValid(s: State, args: Args, meta: Metadata, st: Settlement)
    requires Open(s, args) && OnTarget(s, meta) && (st.Completed? ==> FitsSchema(meta, st.payload))
    ensures ValidationError(s, meta, st) == None <==>
      (st.Completed? && meta.PlannerRole? ==>
         PlanFits(ModeOf(args), Last(s.legs), |Last(s.legs).attempts|, st.payload.plan))
  {
    if meta.WorkerRole? { WorkerIsValid(s, args, meta, st); } else { PlannerIsValid(s, args, meta, st); }
    hide ValidationError;
    hide PlanFits;
  }

  lemma RefusedExactly(run: Run, args: Args, e: nat, payload: Payload)
    requires RunInv(run, args) && e < |run.nodes|
    ensures SubmitRefusal(run, e, payload).None? <==> Acceptable(run, args, e, payload)
  {
    if run.nodes[e].status == EntryRunning {
      assert RunLive(run, args) && OnTarget(run.state, run.nodes[e].meta);
      hide TargetsHeld;
      hide OnTarget;
      hide LogOk;
      hide LaunchesOk;
      hide ValidationError;
      hide PlanFits;
      if FitsSchema(run.nodes[e].meta, payload) {
        RunningIsValid(run.state, args, run.nodes[e].meta, Completed(payload));
      }
    }
  }

  /** A submission is accepted exactly if it is acceptable; then its entry is completed with
      it and it reaches the pursuit, and otherwise neither entries nor pursuit change. */
  lemma SubmissionAcceptedExactly(args: Args, ops: seq<Op>, e: nat, payload: Payload)
    requires ValidArgs(args) && e < |Exec(args, true, ops).nodes|
    ensures var a, b := Exec(args, true, ops), Exec(args, true, ops + [Submit(e, payload)]);
      && (SubmitRefusal(a, e, payload).None? <==> Acceptable(a, args, e, payload))
      && (if Acceptable(a, args, e, payload)
          then b.applied == a.applied + [e] && e < |b.nodes| &&
               b.nodes[e] == Entry(a.nodes[e].meta, EntryCompleted, Some(payload))
          else b.applied == a.applied && b.state == a.state && b.nodes == a.nodes)
  {
    hide Exec;
    ExecKeepsInv(args, ops);
    ExecOneMore(args, true, ops, Submit(e, payload));
    var a := Exec(args, true, ops);
    RefusedExactly(a, args, e, payload);
    hide Acceptable;
    if SubmitRefusal(a, e, payload).None? {
      AcceptedBrings(a, e, payload);
      hide SubmitRefusal;
      hide Step;
      SettledRun(a, Submit(e, payload), e, Completed(payload), args);
    }
  }

  /** The report of a running node always reaches the pursuit; any other changes nothing. */
  lemma ReportAcceptedExactly(args: Args, ops: seq<Op>, e: nat, st: Settlement)
    requires ValidArgs(args) && e < |Exec(args, true, ops).nodes|
    ensures var a, b := Exec(args, true, ops), Exec(args, true, ops + [Report(e, st)]);
      if a.nodes[e].status == EntryRunning && !st.Completed?
      then b.applied == a.applied + [e] && e < |b.nodes| &&
           b.nodes[e] == Entry(a.nodes[e].meta, EndOf(st), None)
      else b == a
  {
    hide Exec;
    ExecKeepsInv(args, ops);
    ExecOneMore(args, true, ops, Report(e, st));
    var a := Exec(args, true, ops);
    if a.nodes[e].status == EntryRunning && !st.Completed? {
      ReportBrings(a, args, e, st);
      hide Step;
      hide RunInv;
      hide Brings;
      SettledRun(a, Report(e, st), e, st, args);
    }
  }

  function EndOf(st: Settlement): EntryStatus
    requires !st.Completed?
  {
    if st.NodeRejected? then EntryRejected else if st.NodeCancelled? then EntryCancelled else EntryFailed
  }

  lemma ReportBrings(a: Run, args: Args, e: nat, st: Settlement)
    requires RunInv(a, args) && e < |a.nodes| && a.nodes[e].status == EntryRunning && !st.Completed?
    ensures Brings(a, Report(e, st), e, st)
  {
    assert RunLive(a, args) && OnTarget(a.state, a.nodes[e].meta);
    hide TargetsHeld;
    hide OnTarget;
    RunningIsValid(a.state, args, a.nodes[e].meta, st);
  }

  /** An interrupt ends an unfinished run with its reason: what runs is cancelled, and
      entries that had ended, the legs and what was applied stay. */
  lemma InterruptStopsRun(args: Args, ops: seq<Op>, reason: string)
    requires ValidArgs(args)
    ensures var a, b := Exec(args, true, ops), Exec(args, true, ops + [Interrupt(reason)]);
      if a.finished.Some? then b == a
      else
        && b.finished == Some(CancelledOutcome(reason)) && b.state.legs == a.state.legs
        && b.state.failures == a.state.failures && b.applied == a.applied && |b.nodes| == |a.nodes|
        && forall e :: 0 <= e < |a.nodes| ==>
             b.nodes[e] == if a.nodes[e].status == EntryRunning then Entry(a.nodes[e].meta, EntryCancelled, None)
                           else a.nodes[e]
  {
    hide Exec;
    ExecKeepsInv(args, ops);
    ExecOneMore(args, true, ops, Interrupt(reason));
    hide RunLive;
    hide RunOver;
    hide LaunchesOk;
    hide TimelineOk;
  }

  // ----- attempts and legs --------------------------------------------------------------------------

  /** An attempt won exactly if its plan was accepted and all its items succeeded, failed
      exactly if its planner gave up or all its items have ended and not all well, and is at
      work otherwise; a failed one tells why. */
  lemma AttemptStatusExactly(args: Args, ops: seq<Op>, i: nat, j: nat)
    requires ValidArgs(args) && HasAttempt(Exec(args, true, ops).state.legs, i, j)
    ensures var s := Exec(args, true, ops).state;
      var a := AttemptOf(s.legs, i, j);
      StatusTells(a) && (a.status == Failed ==> Explained(s.legs[i], a))
  {
    hide Exec;
    ExecKeepsInv(args, ops);
    ExecKeepsRecords(args, ops);
    var run := Exec(args, true, ops);
    StatusOfAttempt(run, args, i, j);
    assert FailuresExplained(run.state);
    hide RunInv;
    hide Explained;
  }

  predicate AllSucceeded(a: Attempt) {
    forall k :: 0 <= k < |a.workItems| ==> a.workItems[k].status == Success
  }

  predicate AllEnded(a: Attempt) {
    forall k :: 0 <= k < |a.workItems| ==> a.workItems[k].status in {Success, Failed, Blocked}
  }

  predicate StatusTells(a: Attempt) {
    && (a.status == Success <==> a.plan.status == Success && AllSucceeded(a))
    && (a.status == Failed <==>
          a.plan.status == Failed || (a.plan.status == Success && AllEnded(a) && !AllSucceeded(a)))
    && (a.status == Running <==> a.plan.status == NotStarted || (a.plan.status == Success && !AllEnded(a)))
  }

  lemma StatusOfAttempt(run: Run, args: Args, i: nat, j: nat)
    requires RunInv(run, args) && HasAttempt(run.state.legs, i, j)
    ensures StatusTells(AttemptOf(run.state.legs, i, j))
  {
    KindOfLeg(run, args, i);
    StatusInLeg(run.state.legs[i], j);
    hide StatusTells;
    hide RunInv;
  }

  lemma KindOfLeg(run: Run, args: Args, i: nat)
    requires RunInv(run, args) && i < |run.state.legs|
    ensures LegWon(run.state.legs[i]) || LegLost(run.state.legs[i]) || LegSettled(run.state.legs[i])
  {
    ShapeOfRun(run, args, i);
    assert i < |run.state.legs| - 1 ==> LegWon(run.state.legs[i]);
    hide LegWon;
    hide LegLost;
    hide LegSettled;
    hide LegShape;
    hide LogOk;
  }

  lemma StatusInLeg(leg: Leg, j: nat)
    requires (LegWon(leg) || LegLost(leg) || LegSettled(leg)) && j < |leg.attempts|
    ensures StatusTells(leg.attempts[j])
  {
    var a := leg.attempts[j];
    assert LegShape(leg);
    assert AttemptFits(leg, j);
    assert j < |leg.attempts| - 1 ==> Spent(a);
    hide LegShape;
    hide Sound;
    hide Spread;
    hide Orderable;
    if Spent(a) { SpentTells(leg, j); } else { CurrentTells(leg); }
  }

  lemma SpentTells(leg: Leg, j: nat)
    requires j < |leg.attempts| && AttemptFits(leg, j) && Spent(leg.attempts[j])
    ensures StatusTells(leg.attempts[j])
  {
    hide Orderable;
  }

  lemma CurrentTells(leg: Leg)
    requires |leg.attempts| > 0 && AttemptFits(leg, |leg.attempts| - 1) && (LegWon(leg) || LegSettled(leg))
    ensures StatusTells(Last(leg.attempts))
  {
    var a := Last(leg.attempts);
    assert forall k :: 0 <= k < |a.workItems| ==> ItemFits(leg, a, a.workItems[k]);
    hide LegShape;
    hide Sound;
    hide Spread;
    hide Orderable;
  }

  /** A leg won exactly if its last attempt did, is lost exactly if that failed with no
      attempt left, and is at work otherwise; only the last leg can be at work or lost. */
  lemma LegStatusExactly(args: Args, ops: seq<Op>, i: nat)
    requires ValidArgs(args) && i < |Exec(args, true, ops).state.legs|
    ensures var s := Exec(args, true, ops).state;
      var leg := s.legs[i];
      && 1 <= |leg.attempts| <= args.maxAttempts
      && (forall j :: 0 <= j < |leg.attempts| - 1 ==> leg.attempts[j].status == Failed)
      && (leg.status == Success <==> Last(leg.attempts).status == Success)
      && (leg.status == Failed <==> Last(leg.attempts).status == Failed)
      && (leg.status == Failed ==> |leg.attempts| == args.maxAttempts)
      && (leg.status == Running <==> Last(leg.attempts).status == Running)
      && (i < |s.legs| - 1 ==> leg.status == Success)
  {
    hide Exec;
    ExecKeepsInv(args, ops);
    var run := Exec(args, true, ops);
    var s, leg := run.state, run.state.legs[i];
    assert i < |s.legs| - 1 ==> LegWon(leg);
    assert LegWon(leg) || LegLost(leg) || LegSettled(leg);
    assert LegFollows(leg, args, i);
    forall j | 0 <= j < |leg.attempts| - 1 ensures leg.attempts[j].status == Failed { assert Spent(leg.attempts[j]); }
  }

  // ----- goals --------------------------------------------------------------------------------------

  /** The first leg pursues the first goal there is. */
  lemma FirstGoal(args: Args)
    requires ValidArgs(args)
    ensures var legs := Exec(args, true, []).state.legs;
      && |legs| == 1 && legs[0].legGoalVersion == 1
      && (if args.legGoals == [] then legs[0].legGoal == args.pursuitGoal && legs[0].nextLegGoal == None
          else legs[0].legGoal == args.legGoals[0])
  {
    ExecUnfolds(args, true, []);
    InitialStateIsOpen(args);
    var run := Run(CreateInitialState(args), [], None, [WorkflowStarted, SnapshotRecorded], []);
    DispatchKeepsInv(run, args);
  }

  ghost predicate TakesPlan(a: Run, args: Args, op: Op) {
    op.Submit? && Acceptable(a, args, op.entry, op.payload) && a.nodes[op.entry].meta.PlannerRole?
  }

  ghost function Taken(a: Run, args: Args, op: Op): Option<PlannerPayload> {
    if TakesPlan(a, args, op) then Some(op.payload.plan) else None
  }

  /** The leg opened after `won` starts from its queued goal, or from the next predefined one. */
  predicate StartsNext(args: Args, i: nat, won: Leg, next: Leg) {
    && won.status == Success && next.legGoalVersion == 1
    && (if args.legGoals == [] then won.nextLegGoal == Some(next.legGoal) && next.nextLegGoal == None
        else i < |args.legGoals| && next.legGoal == args.legGoals[i])
  }

  /** The plan taken, if any, moves the goals of the current leg; all others stay, and a leg that
      opens starts with its own. */
  ghost predicate GoalsMove(args: Args, s: State, r: State, taken: Option<PlannerPayload>) {
    && 1 <= |s.legs| <= |r.legs| <= |s.legs| + 1
    && (forall i :: 0 <= i < |s.legs| - 1 ==> SameGoals(s.legs[i], r.legs[i]))
    && (var n := |s.legs| - 1;
        if taken.Some? then GoalsFollow(s.legs[n], r.legs[n], taken.value) else SameGoals(s.legs[n], r.legs[n]))
    && (|r.legs| > |s.legs| ==> StartsNext(args, |s.legs|, r.legs[|s.legs| - 1], r.legs[|s.legs|]))
  }

  /** Goals change by accepted plans alone, as those say: a plan for the current leg replaces
      its goal or queues the next one; a leg that opens takes the queued or predefined goal. */
  lemma GoalsFollowPlans(args: Args, ops: seq<Op>, op: Op)
    requires ValidArgs(args)
    ensures var a, b := Exec(args, true, ops), Exec(args, true, ops + [op]);
      GoalsMove(args, a.state, b.state, Taken(a, args, op))
  {
    hide Exec;
    hide GoalsMove;
    hide RunInv;
    hide Taken;
    ExecKeepsInv(args, ops);
    ExecKeepsInv(args, ops + [op]);
    ExecOneMore(args, true, ops, op);
    hide Step;
    StepGoals(Exec(args, true, ops), args, op);
  }

  /** The settlement that this operation brings to the pursuit, if it brings one. */
  lemma BroughtOrNot(a: Run, args: Args, op: Op) returns (brings: bool, e: nat, st: Settlement)
    requires RunInv(a, args)
    ensures brings ==> Brings(a, op, e, st)
    ensures !brings ==> Step(a, op, true).state.legs == a.state.legs && !TakesPlan(a, args, op)
    ensures !brings ==> Step(a, op, true).state.failures == a.state.failures
    ensures brings ==> (TakesPlan(a, args, op) <==> st.Completed? && a.nodes[e].meta.PlannerRole?)
    ensures brings ==> e < |a.nodes| && a.nodes[e].status == EntryRunning
    ensures brings ==> (st.Completed? <==> op.Submit?) && (op.Report? ==> op == Report(e, st))
    ensures op.Report? && op.entry < |a.nodes| && a.nodes[op.entry].status == EntryRunning && !op.settlement.Completed?
            ==> brings
    ensures op.Submit? && op.entry < |a.nodes| && SubmitRefusal(a, op.entry, op.payload).None? ==> brings
  {
    hide RunInv;
    hide ValidationError;
    hide ApplyValidated;
    brings, e, st := false, 0, NodeFailed("");
    match op {
      case Submit(x, payload) =>
        if x < |a.nodes| {
          RefusedExactly(a, args, x, payload);
          if SubmitRefusal(a, x, payload).None? { brings, e, st := true, x, Completed(payload); }
        }
      case Report(x, end) =>
        if x < |a.nodes| && a.nodes[x].status == EntryRunning && !end.Completed? {
          ReportBrings(a, args, x, end);
          brings, e, st := true, x, end;
        }
      case Interrupt(reason) =>
    }
  }

  /** The last leg's goals and the list of failures, right after a settlement was applied. */
  lemma AppliedGoals(s: State, meta: Metadata, st: Settlement, args: Args)
    requires Open(s, args) && (st.Completed? ==> FitsSchema(meta, st.payload))
    requires ValidationError(s, meta, st) == None
    ensures var m := ApplySettlement(s, meta, st).state;
      && |m.legs| == |s.legs| >= 1 && m.legs == s.legs[|s.legs| - 1 := Last(m.legs)] && m.pursuit == s.pursuit
      && |Last(m.legs).attempts| == |Last(s.legs).attempts| >= 1
      && (if st.Completed? && meta.PlannerRole? then GoalsFollow(Last(s.legs), Last(m.legs), st.payload.plan)
          else SameGoals(Last(s.legs), Last(m.legs)))
      && m.failures == s.failures + (if st.Completed? then [] else [SettlementFailure(st, RoleOf(meta))])
  {
    hide ApplySettlement;
    hide ValidationError;
    hide SettlementFailure;
    if meta.PlannerRole? { PlannerEffect(s, meta, st, args); } else { var k := WorkerEffect(s, meta, st, args); }
    hide Open;
    hide SettledItem;
  }

  function RoleOf(meta: Metadata): string {
    if meta.PlannerRole? then "planner" else "worker"
  }

  lemma QuietGoals(m: State, r: State, i: nat)
    requires QuietLegs(m.legs, r.legs) && i < |m.legs|
    ensures SameGoals(m.legs[i], r.legs[i])
  {
    assert QuietLeg(m.legs[i], r.legs[i]);
  }

  lemma NextLegStarts(m: State, r: State, args: Args)
    requires |m.legs| >= 1 && |r.legs| == |m.legs| + 1 && OpensNext(m.pursuit, r.legs[|m.legs| - 1], r.legs[|m.legs|])
    requires m.pursuit.mode == ModeOf(args) && PursuitShape(r, args)
    ensures StartsNext(args, |m.legs|, r.legs[|m.legs| - 1], r.legs[|m.legs|])
  {
    assert LegWon(r.legs[|m.legs| - 1]) && LegFollows(r.legs[|m.legs|], args, |m.legs|);
  }

  /** From the applied settlement to the state after the step. */
  lemma BroughtEffect(a: Run, args: Args, op: Op, e: nat, st: Settlement)
    requires RunInv(a, args) && Brings(a, op, e, st)
    ensures Open(a.state, args) && e < |a.nodes| && (st.Completed? ==> FitsSchema(a.nodes[e].meta, st.payload))
    ensures ValidationError(a.state, a.nodes[e].meta, st) == None
    ensures var m := ApplySettlement(a.state, a.nodes[e].meta, st).state;
      LegsExtend(m.legs, Step(a, op, true).state.legs) && ReconcileEffect(m, Step(a, op, true).state)
  {
    BringsToOpen(a, args, op, e, st);
    SettledState(a, op, e, st, args);
    hide Step;
    hide Reconcile;
    hide RunInv;
    hide Open;
    hide ApplySettlement;
    hide ValidationError;
    hide ReconcileEffect;
    hide Brings;
    hide Marked;
    hide RunningOf;
    hide LegsExtend;
  }

  /** From before (`a`) over the applied settlement (`m`) to the state after the step. */
  lemma BroughtFacts(a: Run, args: Args, op: Op, e: nat, st: Settlement) returns (m: State)
    requires RunInv(a, args) && Brings(a, op, e, st)
    ensures var s := a.state;
      && ReconcileEffect(m, Step(a, op, true).state)
      && |m.legs| == |s.legs| >= 1 && m.legs == s.legs[|s.legs| - 1 := Last(m.legs)] && m.pursuit == s.pursuit
      && |Last(m.legs).attempts| == |Last(s.legs).attempts| >= 1
      && (if st.Completed? && a.nodes[e].meta.PlannerRole? then GoalsFollow(Last(s.legs), Last(m.legs), st.payload.plan)
          else SameGoals(Last(s.legs), Last(m.legs)))
      && m.failures == s.failures + (if st.Completed? then [] else [SettlementFailure(st, RoleOf(a.nodes[e].meta))])
  {
    hide Step;
    hide RunInv;
    hide Open;
    hide ApplySettlement;
    hide ValidationError;
    hide SettlementFailure;
    hide ReconcileEffect;
    hide LegsExtend;
    hide GoalsFollow;
    hide SameGoals;
    hide RoleOf;
    assert e < |a.nodes|;
    hide Brings;
    m := ApplySettlement(a.state, a.nodes[e].meta, st).state;
    BroughtEffect(a, args, op, e, st);
    AppliedGoals(a.state, a.nodes[e].meta, st, args);
  }

  lemma BringsToOpen(a: Run, args: Args, op: Op, e: nat, st: Settlement)
    requires RunInv(a, args) && Brings(a, op, e, st)
    ensures Open(a.state, args) && e < |a.nodes| && (st.Completed? ==> FitsSchema(a.nodes[e].meta, st.payload))
    ensures ValidationError(a.state, a.nodes[e].meta, st) == None
  {
  }

  /** The applied settlement moves the goals; reconciling leaves them and may open a leg. */
  lemma GoalsThrough(args: Args, s: State, m: State, r: State, taken: Option<PlannerPayload>)
    requires |m.legs| == |s.legs| >= 1 && m.legs == s.legs[|s.legs| - 1 := Last(m.legs)] && m.pursuit == s.pursuit
    requires if taken.Some? then GoalsFollow(Last(s.legs), Last(m.legs), taken.value)
             else SameGoals(Last(s.legs), Last(m.legs))
    requires ReconcileEffect(m, r) && PursuitShape(r, args) && s.pursuit.mode == ModeOf(args)
    ensures GoalsMove(args, s, r, taken)
  {
    forall i | 0 <= i < |s.legs| ensures SameGoals(m.legs[i], r.legs[i]) { QuietGoals(m, r, i); }
    QuietGrows(m, r);
    if |r.legs| > |s.legs| { NextLegStarts(m, r, args); }
    hide QuietLegs;
    hide VerdictRecorded;
    hide StartsNext;
    hide OpensNext;
    hide PursuitShape;
  }

  lemma TakenExactly(a: Run, args: Args, op: Op, e: nat, st: Settlement)
    requires Brings(a, op, e, st) && (TakesPlan(a, args, op) <==> st.Completed? && a.nodes[e].meta.PlannerRole?)
    ensures Taken(a, args, op) ==
            if st.Completed? && a.nodes[e].meta.PlannerRole? then Some(st.payload.plan) else None
  {
    BroughtPayload(a, op, e, st);
    hide Brings;
    hide Acceptable;
  }

  lemma SameGoalsMove(args: Args, s: State, r: State)
    requires r.legs == s.legs && |s.legs| >= 1
    ensures GoalsMove(args, s, r, None)
  {
  }

  lemma StepGoals(a: Run, args: Args, op: Op)
    requires RunInv(a, args) && RunInv(Step(a, op, true), args)
    ensures GoalsMove(args, a.state, Step(a, op, true).state, Taken(a, args, op))
  {
    hide RunInv;
    hide Step;
    hide TakesPlan;
    hide Brings;
    hide GoalsFollow;
    hide SameGoals;
    hide GoalsMove;
    hide ReconcileEffect;
    hide PursuitShape;
    var b := Step(a, op, true);
    ModeHeld(a, args);
    ModeHeld(b, args);
    var brings, e, st := BroughtOrNot(a, args, op);
    if brings {
      hide Taken;
      var m := BroughtFacts(a, args, op, e, st);
      TakenExactly(a, args, op, e, st);
      GoalsThrough(args, a.state, m, b.state, Taken(a, args, op));
    } else {
      SameGoalsMove(args, a.state, b.state);
    }
  }

  lemma ModeHeld(a: Run, args: Args)
    requires RunInv(a, args)
    ensures PursuitShape(a.state, args) && a.state.pursuit.mode == ModeOf(args) && |a.state.legs| >= 1
  {
    hide LogOk;
    hide LaunchesOk;
    hide TimelineOk;
  }

  lemma BroughtPayload(a: Run, op: Op, e: nat, st: Settlement)
    requires Brings(a, op, e, st)
    ensures st.Completed? ==> op == Submit(e, st.payload)
  {
    hide ValidationError;
  }

  lemma QuietGrows(m: State, r: State)
    requires QuietLegs(m.legs, r.legs)
    ensures |m.legs| <= |r.legs|
  {
  }

  // ----- failures ------------------------------------------------------------------------------------------

  /** The text of an attempt's first reason. */
  function AttemptText(a: Attempt): string {
    if a.failureReasons != [] && a.failureReasons[0].message.Some? then a.failureReasons[0].message.value
    else "attempt failed"
  }

  /** The list of failures grows by the end of a node that gave up and by the attempt that
      failed with it, and by nothing else. */
  lemma FailuresAreListed(args: Args, ops: seq<Op>, op: Op) returns (nodeText: string)
    requires ValidArgs(args)
    ensures var a, b := Exec(args, true, ops), Exec(args, true, ops + [op]);
      FailuresGrow(a.state, b.state, GivesUp(a, op), nodeText)
    ensures var a := Exec(args, true, ops);
      GivesUp(a, op) ==> TextOf(op.settlement, RoleOf(a.nodes[op.entry].meta), nodeText)
  {
    hide Exec;
    ExecKeepsInv(args, ops);
    ExecOneMore(args, true, ops, op);
    hide Step;
    nodeText := StepFailures(Exec(args, true, ops), args, op);
  }

  /** A running node ends without a submission. */
  predicate GivesUp(a: Run, op: Op) {
    op.Report? && op.entry < |a.nodes| && a.nodes[op.entry].status == EntryRunning && !op.settlement.Completed?
  }

  predicate TextOf(st: Settlement, role: string, text: string) {
    match st
    case NodeFailed(reason) => text == role + " failed: " + reason
    case NodeRejected(reason) => text == role + " rejected: " + reason
    case NodeCancelled(cause) => text == role + " cancelled: " + (if cause.Some? then cause.value else "cancelled")
    case Completed(_) => false
  }

  /** `after` is `before` with the texts of a node that gave up and of the attempt that failed. */
  predicate FailuresGrow(a: State, b: State, gaveUp: bool, nodeText: string) {
    && |a.legs| >= 1 && |Last(a.legs).attempts| >= 1
    && HasAttempt(b.legs, |a.legs| - 1, |Last(a.legs).attempts| - 1)
    && var before := Last(Last(a.legs).attempts);
       var current := AttemptOf(b.legs, |a.legs| - 1, |Last(a.legs).attempts| - 1);
       b.failures == a.failures + (if gaveUp then [nodeText] else []) +
         (if before.status == Running && current.status == Failed then [AttemptText(current)] else [])
  }

  lemma FailuresGrowOver(a: State, m: State, b: State, gaveUp: bool, nodeText: string)
    requires |m.legs| == |a.legs| >= 1 && |Last(m.legs).attempts| == |Last(a.legs).attempts| >= 1
    requires Last(Last(a.legs).attempts).status == Running && ReconcileEffect(m, b)
    requires m.failures == a.failures + (if gaveUp then [nodeText] else [])
    ensures FailuresGrow(a, b, gaveUp, nodeText)
  {
    VerdictGrows(m, b);
    hide ReconcileEffect;
    hide AttemptText;
  }

  lemma BroughtFailures(a: Run, args: Args, op: Op, e: nat, st: Settlement)
    requires RunInv(a, args) && Brings(a, op, e, st)
    ensures FailuresGrow(a.state, Step(a, op, true).state, !st.Completed?,
                         SettlementFailure(st, RoleOf(a.nodes[e].meta)))
  {
    BringsToOpen(a, args, op, e, st);
    assert |a.state.legs| >= 1 && Last(Last(a.state.legs).attempts).status == Running;
    var m := BroughtFacts(a, args, op, e, st);
    var text := SettlementFailure(st, RoleOf(a.nodes[e].meta));
    FailuresGrowOver(a.state, m, Step(a, op, true).state, !st.Completed?, text);
    hide Step;
    hide RunInv;
    hide ReconcileEffect;
    hide Brings;
    hide SettlementFailure;
    hide GoalsFollow;
    hide SameGoals;
    hide RoleOf;
    hide FailuresGrow;
    hide ValidationError;
    hide PursuitShape;
  }

  lemma EndTextIs(st: Settlement, role: string)
    ensures !st.Completed? ==> TextOf(st, role, SettlementFailure(st, role))
  {
  }

  lemma StepFailures(a: Run, args: Args, op: Op) returns (nodeText: string)
    requires RunInv(a, args)
    ensures FailuresGrow(a.state, Step(a, op, true).state, GivesUp(a, op), nodeText)
    ensures GivesUp(a, op) ==> TextOf(op.settlement, RoleOf(a.nodes[op.entry].meta), nodeText)
  {
    assert |a.state.legs| >= 1 && LegShape(Last(a.state.legs));
    hide TakesPlan;
    hide Step;
    hide RunInv;
    hide FailuresGrow;
    hide LegShape;
    hide Brings;
    var brings, e, st := BroughtOrNot(a, args, op);
    nodeText := "";
    if brings {
      nodeText := SettlementFailure(st, RoleOf(a.nodes[e].meta));
      EndTextIs(st, RoleOf(a.nodes[e].meta));
      hide SettlementFailure;
      hide TextOf;
      BroughtFailures(a, args, op, e, st);
    } else {
      assert !GivesUp(a, op);
      SameFailures(a.state, Step(a, op, true).state, nodeText);
    }
  }

  lemma SameFailures(a: State, b: State, nodeText: string)
    requires |a.legs| >= 1 && LegShape(Last(a.legs)) && b.legs == a.legs && b.failures == a.failures
    ensures FailuresGrow(a, b, false, nodeText)
  {
  }

  lemma VerdictGrows(m: State, r: State)
    requires ReconcileEffect(m, r)
    ensures |m.legs| >= 1 && |Last(m.legs).attempts| >= 1
    ensures HasAttempt(r.legs, |m.legs| - 1, |Last(m.legs).attempts| - 1)
    ensures var current := AttemptOf(r.legs, |m.legs| - 1, |Last(m.legs).attempts| - 1);
      r.failures == m.failures + (if current.status == Failed then [AttemptText(current)] else [])
  {
    hide Explained;
  }

  /** A node that gives up fails its item or its plan, with the text of its end. */
  lemma GivenUpNodeFails(args: Args, ops: seq<Op>, e: nat, st: Settlement) returns (text: string)
    requires ValidArgs(args) && GivesUp(Exec(args, true, ops), Report(e, st))
    ensures var meta, b := Exec(args, true, ops).nodes[e].meta, Exec(args, true, ops + [Report(e, st)]);
      && TextOf(st, RoleOf(meta), text)
      && (if meta.WorkerRole? then ItemGivenUp(b.state, meta.workItemKey, text)
          else PlanGivenUp(b.state, meta.attemptId, text))
  {
    hide Exec;
    var a, op := Exec(args, true, ops), Report(e, st);
    ExecKeepsInv(args, ops);
    ExecKeepsInv(args, ops + [op]);
    ExecOneMore(args, true, ops, op);
    ReportBrings(a, args, e, st);
    BroughtEffect(a, args, op, e, st);
    text := SettlementFailure(st, RoleOf(a.nodes[e].meta));
    EndTextIs(st, RoleOf(a.nodes[e].meta));
    hide Step;
    hide RunInv;
    hide SettlementFailure;
    hide TextOf;
    hide Brings;
    hide ItemGivenUp;
    hide PlanGivenUp;
    hide Open;
    hide ApplySettlement;
    hide ValidationError;
    hide ReconcileEffect;
    hide LegsExtend;
    var b := Step(a, op, true);
    if a.nodes[e].meta.WorkerRole? { ItemGivesUp(a.state, a.nodes[e].meta, st, args, b.state); }
    else { PlannerGivesUp(a.state, a.nodes[e].meta, st, args, b); }
  }

  ghost predicate ItemGivenUp(s: State, key: string, text: string) {
    exists i, j, k :: 0 <= i < |s.legs| && InLeg(s.legs[i], j, k) && GivenUpAs(Item(s.legs[i], j, k), key, text)
  }

  predicate GivenUpAs(item: WorkItem, key: string, text: string) {
    item.key == key && item.status == Failed && item.summary == Some(text) && item.outcome == Some(text)
  }

  ghost predicate PlanGivenUp(s: State, attemptId: Uuid, text: string) {
    exists i, j :: HasAttempt(s.legs, i, j) && AttemptGivenUpAs(AttemptOf(s.legs, i, j), attemptId, text)
  }

  predicate AttemptGivenUpAs(a: Attempt, attemptId: Uuid, text: string) {
    && a.id == attemptId && a.status == Failed && a.plan.status == Failed
    && a.failureReasons == [FailureReason(None, PlannerFailed, Some(text), None, None, [])]
  }

  lemma ItemGivesUp(s: State, meta: Metadata, st: Settlement, args: Args, r: State)
    requires Open(s, args) && meta.WorkerRole? && !st.Completed? && ValidationError(s, meta, st) == None
    requires LegsExtend(ApplySettlement(s, meta, st).state.legs, r.legs)
    ensures ItemGivenUp(r, meta.workItemKey, SettlementFailure(st, "worker"))
  {
    assert |s.legs| >= 1;
    hide Open;
    hide ApplySettlement;
    hide ValidationError;
    hide SettlementFailure;
    hide LegsExtend;
    var k := WorkerEffect(s, meta, st, args);
    var n, leg := |s.legs| - 1, Last(s.legs);
    var j := |leg.attempts| - 1;
    ItemAfterSet(leg, j, k, SettledItem(Item(leg, j, k), st), j, k);
    ItemStays(ApplySettlement(s, meta, st).state.legs, r.legs, n, j, k);
    assert GivenUpAs(Item(r.legs[n], j, k), meta.workItemKey, SettlementFailure(st, "worker"));
  }

  lemma ItemStays(a: seq<Leg>, b: seq<Leg>, i: nat, j: int, k: int)
    requires LegsExtend(a, b) && i < |a| && InLeg(a[i], j, k) && Item(a[i], j, k).status != NotStarted
    ensures InLeg(b[i], j, k) && Item(b[i], j, k) == Item(a[i], j, k)
  {
    assert LegExtends(a[i], b[i]) && AttemptExtends(a[i].attempts[j], b[i].attempts[j]);
    assert ItemExtends(Item(a[i], j, k), Item(b[i], j, k));
  }

  lemma PlannerGivesUp(s: State, meta: Metadata, st: Settlement, args: Args, b: Run)
    requires Open(s, args) && meta.PlannerRole? && !st.Completed? && ValidationError(s, meta, st) == None
    requires ReconcileEffect(ApplySettlement(s, meta, st).state, b.state) && RunInv(b, args)
    ensures PlanGivenUp(b.state, meta.attemptId, SettlementFailure(st, "planner"))
  {
    hide Open;
    hide ApplySettlement;
    hide ValidationError;
    hide SettlementFailure;
    hide RunInv;
    hide ReconcileEffect;
    hide AttemptGivenUpAs;
    hide AllEnded;
    hide AllSucceeded;
    PlannerEndsPlan(s, meta, st, args, b.state);
    var n, j := |s.legs| - 1, |Last(s.legs).attempts| - 1;
    StatusOfAttempt(b, args, n, j);
    assert AttemptGivenUpAs(AttemptOf(b.state.legs, n, j), meta.attemptId, SettlementFailure(st, "planner"));
  }

  lemma PlannerEndsPlan(s: State, meta: Metadata, st: Settlement, args: Args, r: State)
    requires Open(s, args) && meta.PlannerRole? && !st.Completed? && ValidationError(s, meta, st) == None
    requires ReconcileEffect(ApplySettlement(s, meta, st).state, r)
    ensures |s.legs| >= 1 && HasAttempt(r.legs, |s.legs| - 1, |Last(s.legs).attempts| - 1)
    ensures var current := AttemptOf(r.legs, |s.legs| - 1, |Last(s.legs).attempts| - 1);
      && current.id == meta.attemptId && current.plan.status == Failed
      && (current.status == Failed ==>
            AttemptGivenUpAs(current, meta.attemptId, SettlementFailure(st, "planner")))
  {
    assert |s.legs| >= 1;
    hide Open;
    hide ApplySettlement;
    hide ValidationError;
    hide SettlementFailure;
    hide ReconcileEffect;
    PlannerEffect(s, meta, st, args);
    PlanGivesUp(ApplySettlement(s, meta, st).state, r, SettlementFailure(st, "planner"), Last(s.legs));
    FailedPlanIsExplainedBy(st);
  }

  lemma PlanGivesUp(m: State, r: State, reason: string, before: Leg)
    requires |m.legs| >= 1 && PlanFailed(before, Last(m.legs), reason) && ReconcileEffect(m, r)
    ensures HasAttempt(r.legs, |m.legs| - 1, |Last(m.legs).attempts| - 1)
    ensures var current := AttemptOf(r.legs, |m.legs| - 1, |Last(m.legs).attempts| - 1);
      && current.id == Last(Last(m.legs).attempts).id && current.plan.status == Failed
      && (current.status == Failed ==> current.failureReasons == [PlannerFailureReason(reason)])
  {
    var n, j := |m.legs| - 1, |Last(m.legs).attempts| - 1;
    assert QuietLeg(m.legs[n], r.legs[n]) && QuietAttempt(m.legs[n].attempts[j], r.legs[n].attempts[j]);
    hide Explained;
    hide OpensNext;
  }

  lemma FailedPlanIsExplainedBy(st: Settlement)
    ensures var text := SettlementFailure(st, "planner");
      PlannerFailureReason(text) == FailureReason(None, PlannerFailed, Some(text), None, None, [])
  {
    var text := SettlementFailure(st, "planner");
    assert text[0] == 'p';
    assert "context_script_error:"[0] == 'c';
  }

  // ----- the timeline -----------------------------------------------------------------------------------------

  /** What an operation adds to the timeline, and how far it moves the state's version: one
      transition for the settlement, one more if the pursuit progressed by it, a snapshot
      after both, and then the finish or the launches. */
  ghost predicate TimelineGrows(a: Run, b: Run, op: Op, progressed: bool) {
    if |b.applied| > |a.applied| then
      && b.timeline == a.timeline + (if op.Submit? then [OutcomeReceived] else []) + [TransitionApplied] +
           (if progressed then [TransitionApplied] else []) + [SnapshotRecorded] +
           (if b.finished.Some? then [WorkflowFinished] else if |b.nodes| > |a.nodes| then [WorkflowDispatched] else [])
      && b.state.version == a.state.version + (if progressed then 2 else 1)
    else if op.Interrupt? && a.finished.None? then
      b.timeline == a.timeline + [TransitionApplied, SnapshotRecorded, WorkflowFinished]
    else
      && b.state.version == a.state.version
      && (b.timeline == a.timeline || (op.Submit? && b.timeline == a.timeline + [OutcomeReceived]))
  }

  lemma ReconcileOneKeepsVersion(s: State, i: nat, running: RunningNodes)
    requires i < |s.legs|
    ensures ReconcileOne(s, i, running).state.version == s.version
  {
    hide SpreadBlocks;
    hide AttemptVerdict;
    hide CloseAttempt;
    hide FailureText;
  }

  lemma ReconcileVersion(m: State, running: RunningNodes, args: Args)
    requires Unreconciled(m, args)
    ensures var r := Reconcile(m, running); r.state.version == m.version + (if r.changed then 1 else 0)
  {
    ReconcileLast(m, running);
    ReconcileOneKeepsVersion(m, |m.legs| - 1, running);
    hide ReconcileOne;
    hide ReconcileFrom;
  }

  lemma ApplyVersion(s: State, meta: Metadata, st: Settlement)
    requires st.Completed? ==> FitsSchema(meta, st.payload)
    ensures var r := ApplySettlement(s, meta, st); r.changed ==> r.state.version == s.version + 1
  {
    hide AdoptPlan;
    hide SettledItem;
    hide FindAttempt;
    hide SettlementFailure;
  }

  /** The timeline records every operation in this form. */
  lemma TimelineTellsSteps(args: Args, ops: seq<Op>, op: Op) returns (progressed: bool)
    requires ValidArgs(args)
    ensures TimelineGrows(Exec(args, true, ops), Exec(args, true, ops + [op]), op, progressed)
  {
    hide Exec;
    var a := Exec(args, true, ops);
    ExecKeepsInv(args, ops);
    ExecOneMore(args, true, ops, op);
    hide TimelineGrows;
    hide Brings;
    hide TakesPlan;
    hide Step;
    hide RunInv;
    var brings, e, st := BroughtOrNot(a, args, op);
    if brings {
      progressed := BroughtTimeline(a, args, op, e, st);
    } else {
      progressed := false;
      QuietTimeline(a, args, op);
    }
  }

  lemma QuietTimeline(a: Run, args: Args, op: Op)
    requires RunInv(a, args)
    requires op.Submit? && op.entry < |a.nodes| ==> SubmitRefusal(a, op.entry, op.payload).Some?
    requires op.Report? && op.entry < |a.nodes| ==> a.nodes[op.entry].status != EntryRunning || op.settlement.Completed?
    ensures TimelineGrows(a, Step(a, op, true), op, false)
  {
    hide RunInv;
    hide ValidationError;
    hide ApplyValidated;
  }

  lemma EvaluateTimeline(run: Run, e: nat, st: Settlement, args: Args) returns (progressed: bool)
    requires e < |run.nodes| && (st.Completed? ==> FitsSchema(run.nodes[e].meta, st.payload))
    requires ApplySettlement(run.state, run.nodes[e].meta, st).changed
    requires Unreconciled(ApplySettlement(run.state, run.nodes[e].meta, st).state, args)
    ensures var r := Evaluate(run, e, st);
      && r.timeline == run.timeline + [TransitionApplied] + (if progressed then [TransitionApplied] else []) +
           [SnapshotRecorded]
      && r.state.version == run.state.version + (if progressed then 2 else 1)
      && r.nodes == run.nodes && r.finished == run.finished
  {
    var m := ApplySettlement(run.state, run.nodes[e].meta, st).state;
    ApplyVersion(run.state, run.nodes[e].meta, st);
    ReconcileVersion(m, RunningOf(run.nodes), args);
    progressed := Reconcile(m, RunningOf(run.nodes)).changed;
    hide ApplySettlement;
    hide Reconcile;
    hide Unreconciled;
    hide RunningOf;
  }

  lemma FinishTimeline(r: Run)
    requires r.finished.None? && WorkflowDeadlocked !in FinishOrDispatch(r, true).timeline
    ensures var f := FinishOrDispatch(r, true);
      && f.timeline == r.timeline + (if f.finished.Some? then [WorkflowFinished]
                                     else if |f.nodes| > |r.nodes| then [WorkflowDispatched] else [])
      && f.state.version == r.state.version && f.applied == r.applied
  {
    hide Dispatches;
    hide RunningOf;
    hide PursuitOutcome;
  }

  lemma MarkedRun(a: Run, args: Args, op: Op, e: nat, st: Settlement)
    requires RunInv(a, args) && Brings(a, op, e, st)
    ensures var marked := Marked(a, e, st);
      && e < |marked.nodes| && marked.nodes[e].meta == a.nodes[e].meta && |marked.nodes| == |a.nodes|
      && marked.state == a.state && marked.finished.None?
      && marked.timeline == a.timeline + (if op.Submit? then [OutcomeReceived] else [])
      && (st.Completed? ==> FitsSchema(a.nodes[e].meta, st.payload))
      && ApplySettlement(a.state, a.nodes[e].meta, st).changed
      && Unreconciled(ApplySettlement(a.state, a.nodes[e].meta, st).state, args)
  {
    hide ApplySettlement;
    hide ValidationError;
    hide Unreconciled;
    hide TargetsHeld;
    hide LogOk;
    hide LaunchesOk;
    hide TimelineOk;
    hide LegsExtend;
    hide LegDescends;
    BroughtStep(a, op, e, st, args);
    AppliedKeepsTargets(a.state, a.nodes, Marked(a, e, st).nodes, e, st, args);
  }

  lemma GrowsThrough(a: Run, marked: Run, r: Run, f: Run, op: Op, e: nat, progressed: bool)
    requires |marked.nodes| == |a.nodes| && marked.state == a.state
    requires marked.timeline == a.timeline + (if op.Submit? then [OutcomeReceived] else [])
    requires r.timeline == marked.timeline + [TransitionApplied] + (if progressed then [TransitionApplied] else []) +
        [SnapshotRecorded]
    requires r.state.version == marked.state.version + (if progressed then 2 else 1) && r.nodes == marked.nodes
    requires f.timeline == r.timeline + (if f.finished.Some? then [WorkflowFinished]
                                         else if |f.nodes| > |r.nodes| then [WorkflowDispatched] else [])
    requires f.state.version == r.state.version && f.applied == a.applied + [e]
    ensures TimelineGrows(a, f, op, progressed)
  {
  }

  lemma BroughtTimeline(a: Run, args: Args, op: Op, e: nat, st: Settlement) returns (progressed: bool)
    requires RunInv(a, args) && Brings(a, op, e, st)
    ensures TimelineGrows(a, Step(a, op, true), op, progressed)
  {
    var marked := Marked(a, e, st);
    MarkedRun(a, args, op, e, st);
    BroughtStep(a, op, e, st, args);
    SettledRun(a, op, e, st, args);
    StepKeepsInv(a, op, args);
    NoDeadlockReported(Step(a, op, true), args);
    hide ApplySettlement;
    hide RunInv;
    hide ValidationError;
    hide Evaluate;
    hide FinishOrDispatch;
    hide Marked;
    hide Brings;
    hide Step;
    hide RunLive;
    hide Ended;
    hide RunExtends;
    hide Unreconciled;
    hide TimelineGrows;
    progressed := EvaluateTimeline(marked, e, st, args);
    FinishTimeline(Evaluate(marked, e, st));
    GrowsThrough(a, marked, Evaluate(marked, e, st), Step(a, op, true), op, e, progressed);
  }
}
