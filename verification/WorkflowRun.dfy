/** One workflow run: node entries, their completions, and the queue of operations that
    apply them to the pursuit. Each operation runs to its end before the next starts. */
module WorkflowRun {
  import opened Text
  import opened PursuitState
  import opened PursuitProgress

  datatype EntryStatus = EntryRunning | EntryCompleted | EntryRejected | EntryCancelled | EntryFailed

  datatype Entry = Entry(meta: Metadata, status: EntryStatus, accepted: Option<Payload>)

  datatype EventKind =
    | WorkflowStarted
    | OutcomeReceived
    | TransitionApplied
    | SnapshotRecorded
    | WorkflowDispatched
    | WorkflowDeadlocked
    | WorkflowFinished

  datatype Outcome =
    | SuccessOutcome(summary: string)
    | FailureOutcome(failures: seq<string>)
    | DeadlockOutcome
    | CancelledOutcome(reason: string)

  /** `applied` lists the entries whose settlement reached the pursuit, in order. */
  datatype Run = Run(
    state: State,
    nodes: seq<Entry>,
    finished: Option<Outcome>,
    timeline: seq<EventKind>,
    applied: seq<nat>)

  function RunningOf(nodes: seq<Entry>): RunningNodes {
    RunningNodes(
      set e | e in nodes && e.status == EntryRunning && e.meta.PlannerRole? :: e.meta.planId,
      set e | e in nodes && e.status == EntryRunning && e.meta.WorkerRole? :: e.meta.workItemKey)
  }

  predicate AnyRunning(nodes: seq<Entry>) {
    exists e :: 0 <= e < |nodes| && nodes[e].status == EntryRunning
  }

  function Emit(run: Run, event: EventKind): Run {
    run.(timeline := run.timeline + [event])
  }

  function Finish(run: Run, outcome: Outcome): Run {
    if run.finished.Some? then run
    else Emit(run.(finished := Some(outcome)), WorkflowFinished)
  }

  function TerminalSummary(s: State): string {
    if |s.legs| > 0 && |s.legs[|s.legs| - 1].attempts| > 0 then
      var leg := s.legs[|s.legs| - 1];
      var plan := leg.attempts[|leg.attempts| - 1].plan;
      if plan.summary.Some? then plan.summary.value else "pursuit completed"
    else "pursuit completed"
  }

  function PursuitOutcome(s: State): Outcome {
    if s.workflowStatus == Succeeded then SuccessOutcome(TerminalSummary(s)) else FailureOutcome(s.failures)
  }

  function Claims(ds: seq<Metadata>): (es: seq<Entry>)
    ensures |es| == |ds|
    ensures forall i :: 0 <= i < |ds| ==> es[i] == Entry(ds[i], EntryRunning, None)
  {
    seq(|ds|, i requires 0 <= i < |ds| => Entry(ds[i], EntryRunning, None))
  }

  function DeadlockIfIdle(run: Run): Run {
    if run.state.done || AnyRunning(run.nodes) then run
    else
      var s := run.state.(done := true, workflowStatus := Deadlocked);
      Finish(Emit(Emit(Emit(run.(state := s), WorkflowDeadlocked), TransitionApplied), SnapshotRecorded),
        DeadlockOutcome)
  }

  /** Launch every node the pursuit asks for; each launch succeeds or fails later. */
  function DispatchAll(run: Run, bound: bool): Run {
    if run.state.done then run
    else
      var ds := Dispatches(run.state, RunningOf(run.nodes), bound);
      if ds == [] then DeadlockIfIdle(run)
      else Emit(run, WorkflowDispatched).(nodes := run.nodes + Claims(ds))
  }

  function ApplyTransition(run: Run, r: Applied): Run {
    var next := run.(state := r.state);
    if r.changed then Emit(next, TransitionApplied) else next
  }

  function FinishOrDispatch(run: Run, bound: bool): Run {
    if run.state.done then Finish(run, PursuitOutcome(run.state)) else DispatchAll(run, bound)
  }

  /** Apply entry `e`'s settlement, evaluate progress and record a snapshot. */
  function Evaluate(run: Run, e: nat, st: Settlement): Run
    requires e < |run.nodes| && (st.Completed? ==> FitsSchema(run.nodes[e].meta, st.payload))
  {
    var r1 := ApplyTransition(run, ApplySettlement(run.state, run.nodes[e].meta, st)).(applied := run.applied + [e]);
    var r2 := ApplyTransition(r1, Reconcile(r1.state, RunningOf(r1.nodes)));
    Emit(r2, SnapshotRecorded)
  }

  function ApplyValidated(run: Run, e: nat, st: Settlement, bound: bool): Run
    requires e < |run.nodes| && (st.Completed? ==> FitsSchema(run.nodes[e].meta, st.payload))
  {
    FinishOrDispatch(Evaluate(run, e, st), bound)
  }

  /** Why a submitted payload is refused, if it is. */
  function SubmitRefusal(run: Run, e: nat, payload: Payload): Option<Rejection>
    requires e < |run.nodes|
  {
    if run.nodes[e].status != EntryRunning then Some(NodeAlreadyFinished)
    else if !FitsSchema(run.nodes[e].meta, payload) then Some(InvalidPayload)
    else ValidationError(run.state, run.nodes[e].meta, Completed(payload))
  }

  function SubmitCompletion(run: Run, e: nat, payload: Payload, bound: bool): Run
    requires e < |run.nodes|
  {
    match SubmitRefusal(run, e, payload)
    case Some(NodeAlreadyFinished) => run
    case Some(InvalidPayload) => run
    case Some(_) => Emit(run, OutcomeReceived)
    case None =>
      var entry := run.nodes[e].(status := EntryCompleted, accepted := Some(payload));
      ApplyValidated(Emit(run, OutcomeReceived).(nodes := run.nodes[e := entry]), e, Completed(payload), bound)
  }

  function StatusOf(st: Settlement): EntryStatus {
    match st
    case Completed(_) => EntryCompleted
    case NodeRejected(_) => EntryRejected
    case NodeCancelled(_) => EntryCancelled
    case NodeFailed(_) => EntryFailed
  }

  /** A node that ended without an accepted outcome; a refused report changes nothing. */
  function ReportSettlement(run: Run, e: nat, st: Settlement, bound: bool): Run
    requires e < |run.nodes|
  {
    if st.Completed? || run.nodes[e].status != EntryRunning then run
    else if ValidationError(run.state, run.nodes[e].meta, st).Some? then run
    else ApplyValidated(run.(nodes := run.nodes[e := run.nodes[e].(status := StatusOf(st))]), e, st, bound)
  }

  function CancelRunning(nodes: seq<Entry>): (r: seq<Entry>)
    ensures |r| == |nodes|
    ensures forall e :: 0 <= e < |nodes| ==>
      r[e] == if nodes[e].status == EntryRunning then nodes[e].(status := EntryCancelled) else nodes[e]
  {
    seq(|nodes|, e requires 0 <= e < |nodes| =>
      if nodes[e].status == EntryRunning then nodes[e].(status := EntryCancelled) else nodes[e])
  }

  function InterruptRun(run: Run, reason: string): Run {
    if run.finished.Some? then run
    else
      var s := run.state.(done := true, workflowStatus := Failure);
      Finish(Emit(Emit(run.(nodes := CancelRunning(run.nodes), state := s), TransitionApplied), SnapshotRecorded),
             CancelledOutcome(reason))
  }

  function StartRun(args: Args, bound: bool): Run {
    var run := Run(CreateInitialState(args), [], None, [WorkflowStarted, SnapshotRecorded], []);
    FinishOrDispatch(run, bound)
  }

  /** What the outside may do next: submit an outcome, report a node's end, interrupt. */
  datatype Op =
    | Submit(entry: nat, payload: Payload)
    | Report(entry: nat, settlement: Settlement)
    | Interrupt(reason: string)

  function Step(run: Run, op: Op, bound: bool): Run {
    match op
    case Submit(e, payload) => if e < |run.nodes| then SubmitCompletion(run, e, payload, bound) else run
    case Report(e, st) => if e < |run.nodes| then ReportSettlement(run, e, st, bound) else run
    case Interrupt(reason) => InterruptRun(run, reason)
  }

  /** The run after any sequence of operations. It is played from its start, one operation
      after the other; `ExecUnfolds` says so in one equation. */
  function Exec(args: Args, bound: bool, ops: seq<Op>): Run
    decreases |ops|, 2
  {
    Played(args, bound, ops)
  }

  function Played(args: Args, bound: bool, ops: seq<Op>): Run
    decreases |ops|, 1
  {
    StartedOrStepped(args, bound, ops)
  }

  function StartedOrStepped(args: Args, bound: bool, ops: seq<Op>): Run
    decreases |ops|, 0
  {
    if ops == [] then StartRun(args, bound)
    else Step(Exec(args, bound, ops[..|ops| - 1]), ops[|ops| - 1], bound)
  }

  lemma ExecUnfolds(args: Args, bound: bool, ops: seq<Op>)
    ensures Exec(args, bound, ops) ==
            if ops == [] then StartRun(args, bound)
                else Step(Exec(args, bound, ops[..|ops| - 1]), ops[|ops| - 1], bound)
  {
    hide StartRun;
    hide Step;
    assert Exec(args, bound, ops) == Played(args, bound, ops);
    assert Played(args, bound, ops) == StartedOrStepped(args, bound, ops);
  }
}
