/** The workflow run as an object: its fields change in place, and every operation is
    proved to do what the run's specification says and to keep the run's invariant. */
module WorkflowInstance {
  import opened Text
  import opened PursuitState
  import opened PursuitProgress
  import PursuitDraft
  import opened WorkflowRun
  import opened WorkflowSafety
  import opened WorkflowInvariant

  class WorkflowRunInstance {
    const args: Args
    const bound: bool
    var state: State
    var nodes: seq<Entry>
    var finished: bool
    var outcome: Option<Outcome>
    var timeline: seq<EventKind>
    var lastDispatches: seq<Metadata>
    ghost var applied: seq<nat>

    ghost function View(): Run
      reads this
    {
      Run(state, nodes, outcome, timeline, applied)
    }

    ghost predicate Valid()
      reads this
    {
      finished == outcome.Some?
    }

    constructor (args: Args, bound: bool)
      ensures this.args == args && this.bound == bound && Valid()
      ensures View() == Run(CreateInitialState(args), [], None, [], [])
    {
      this.args, this.bound := args, bound;
      state, nodes, finished, outcome := CreateInitialState(args), [], false, None;
      timeline, lastDispatches, applied := [], [], [];
    }

    method Start()
      requires Valid() && View() == Run(CreateInitialState(args), [], None, [], [])
      modifies this
      ensures Valid() && View() == StartRun(args, bound)
      ensures bound && ValidArgs(args) ==> RunInv(View(), args)
    {
      Emit(WorkflowStarted);
      Emit(SnapshotRecorded);
      assert View() == Run(CreateInitialState(args), [], None, [WorkflowStarted, SnapshotRecorded], []);
      var done := FinishIfDone();
      if !done { Dispatch(); }
      if bound && ValidArgs(args) { StartKeepsInv(args); }
    }

    method Emit(event: EventKind)
      modifies this`timeline
      ensures View() == WorkflowRun.Emit(old(View()), event)
    {
      timeline := timeline + [event];
    }

    method Finish(result: Outcome)
      requires Valid()
      modifies this`finished, this`outcome, this`timeline
      ensures Valid() && View() == WorkflowRun.Finish(old(View()), result)
    {
      if finished { return; }
      finished, outcome := true, Some(result);
      Emit(WorkflowFinished);
    }

    method FinishIfDone() returns (done: bool)
      requires Valid()
      modifies this`finished, this`outcome, this`timeline
      ensures Valid() && done == state.done
      ensures View() == if done then WorkflowRun.Finish(old(View()), PursuitOutcome(state)) else old(View())
    {
      if !state.done { return false; }
      Finish(PursuitOutcome(state));
      return true;
    }

    method ApplyTransition(result: Applied)
      modifies this`state, this`timeline
      ensures View() == WorkflowRun.ApplyTransition(old(View()), result)
    {
      state := result.state;
      if !result.changed { return; }
      Emit(TransitionApplied);
    }

    /** The nodes at work, as the pursuit sees them. */
    method RunningMetadata() returns (running: RunningNodes)
      ensures running == RunningOf(nodes)
    {
      var plans: set<Uuid>, workItems: set<string> := {}, {};
      for i := 0 to |nodes|
        invariant RunningNodes(plans, workItems) == RunningOf(nodes[..i])
      {
        ghost var front := nodes[..i];
        assert nodes[..i + 1] == front + [nodes[i]];
        RunningOfNext(front, nodes[i]);
        if nodes[i].status == EntryRunning {
          match nodes[i].meta {
            case PlannerRole(_, _, planId, _) => plans := plans + {planId};
            case WorkerRole(_, _, _, workItemKey, _) => workItems := workItems + {workItemKey};
          }
        }
      }
      assert nodes[..|nodes|] == nodes;
      running := RunningNodes(plans, workItems);
    }

    method ApplySettlement(meta: Metadata, st: Settlement) returns (result: Applied)
      requires st.Completed? ==> FitsSchema(meta, st.payload)
      ensures result == PursuitProgress.ApplySettlement(state, meta, st)
    {
      if meta.PlannerRole? { result := PursuitDraft.ApplyPlannerSettlement(state, meta, st); }
      else { result := PursuitDraft.ApplyWorkerSettlement(state, meta, st); }
    }

    method ApplyValidatedSettlement(e: nat, st: Settlement)
      requires Valid() && e < |nodes| && (st.Completed? ==> FitsSchema(nodes[e].meta, st.payload))
      modifies this
      ensures Valid() && View() == ApplyValidated(old(View()), e, st, bound)
    {
      var result := ApplySettlement(nodes[e].meta, st);
      ApplyTransition(result);
      applied := applied + [e];
      var running := RunningMetadata();
      var evaluated := PursuitDraft.ReconcilePursuitProgress(state, running);
      ApplyTransition(evaluated);
      Emit(SnapshotRecorded);
      assert View() == Evaluate(old(View()), e, st);
      var done := FinishIfDone();
      if !done { Dispatch(); }
    }

    /** Every dispatch claims an entry, then launches it. */
    method Dispatch()
      requires Valid()
      modifies this
      ensures Valid() && View() == DispatchAll(old(View()), bound)
    {
      hide Dispatches;
      hide RunningOf;
      hide WorkflowRun.DeadlockIfIdle;
      if state.done { return; }
      var running := RunningMetadata();
      var dispatches := PursuitDraft.Dispatch(state, running, bound);
      lastDispatches := dispatches;
      if |dispatches| == 0 {
        DeadlockIfIdle();
        return;
      }
      Emit(WorkflowDispatched);
      ClaimAll(dispatches);
    }

    /** Claim the nodes in order. */
    method ClaimAll(dispatches: seq<Metadata>)
      modifies this`nodes
      ensures nodes == old(nodes) + Claims(dispatches)
    {
      for i := 0 to |dispatches|
        invariant nodes == old(nodes) + Claims(dispatches)[..i]
      {
        ClaimDispatch(dispatches[i]);
      }
    }

    method ClaimDispatch(dispatch: Metadata)
      modifies this`nodes
      ensures nodes == old(nodes) + [Entry(dispatch, EntryRunning, None)]
    {
      nodes := nodes + [Entry(dispatch, EntryRunning, None)];
    }

    method DeadlockIfIdle()
      requires Valid()
      modifies this`state, this`finished, this`outcome, this`timeline
      ensures Valid()
      ensures View() == if lastDispatches == [] then WorkflowRun.DeadlockIfIdle(old(View())) else old(View())
    {
      if state.done || exists e :: 0 <= e < |nodes| && nodes[e].status == EntryRunning { return; }
      if |lastDispatches| > 0 { return; }
      state := state.(done := true, workflowStatus := Deadlocked);
      Emit(WorkflowDeadlocked);
      Emit(TransitionApplied);
      Emit(SnapshotRecorded);
      Finish(DeadlockOutcome);
    }

    /** A node submits its outcome; a refusal says why. */
    method SubmitNodeCompletion(e: nat, payload: Payload) returns (refusal: Option<Rejection>)
      requires Valid() && e < |nodes|
      modifies this
      ensures Valid() && refusal == SubmitRefusal(old(View()), e, payload)
      ensures View() == SubmitCompletion(old(View()), e, payload, bound)
      ensures bound && old(RunInv(View(), args)) ==> RunInv(View(), args) && RunExtends(old(View()), View())
    {
      hide RunInv;
      hide RunExtends;
      hide ApplyValidated;
      hide ValidationError;
      hide FitsSchema;
      if bound && RunInv(View(), args) { SubmitKeepsInv(View(), e, payload, args); }
      if nodes[e].status != EntryRunning { return Some(NodeAlreadyFinished); }
      if !FitsSchema(nodes[e].meta, payload) { return Some(InvalidPayload); }
      Emit(OutcomeReceived);
      refusal := ValidationError(state, nodes[e].meta, Completed(payload));
      if refusal.Some? {
        RefusedAfterCheck(state, nodes[e].meta, payload);
        return;
      }
      nodes := nodes[e := nodes[e].(status := EntryCompleted, accepted := Some(payload))];
      ApplyValidatedSettlement(e, Completed(payload));
    }

    /** A node ended without an accepted outcome. */
    method SettleNodeRun(e: nat, st: Settlement)
      requires Valid() && e < |nodes|
      modifies this
      ensures Valid() && View() == ReportSettlement(old(View()), e, st, bound)
      ensures bound && old(RunInv(View(), args)) ==> RunInv(View(), args) && RunExtends(old(View()), View())
    {
      hide RunInv;
      hide RunExtends;
      hide ApplyValidated;
      hide ValidationError;
      if bound && RunInv(View(), args) { ReportKeepsInv(View(), e, st, args); }
      if st.Completed? { return; }
      if nodes[e].status != EntryRunning { return; }
      var refusal := ValidationError(state, nodes[e].meta, st);
      if refusal.Some? { return; }
      nodes := nodes[e := nodes[e].(status := StatusOf(st))];
      ApplyValidatedSettlement(e, st);
    }

    method Interrupt(reason: string)
      requires Valid()
      modifies this
      ensures Valid() && View() == InterruptRun(old(View()), reason)
      ensures old(RunInv(View(), args)) ==> RunInv(View(), args) && NoneRunning(nodes)
    {
      hide RunInv;
      hide RunExtends;
      if RunInv(View(), args) { InterruptKeepsInv(View(), reason, args); }
      if finished { return; }
      CancelAll();
      state := state.(done := true, workflowStatus := Failure);
      Emit(TransitionApplied);
      Emit(SnapshotRecorded);
      Finish(CancelledOutcome(reason));
    }

    /** Everything still running counts as cancelled. */
    method CancelAll()
      modifies this`nodes
      ensures nodes == CancelRunning(old(nodes))
    {
      ghost var cancelled := CancelRunning(nodes);
      for e := 0 to |nodes|
        invariant |nodes| == |old(nodes)|
        invariant forall k :: 0 <= k < e ==> nodes[k] == cancelled[k]
        invariant forall k :: e <= k < |nodes| ==> nodes[k] == old(nodes)[k]
      {
        if nodes[e].status == EntryRunning { nodes := nodes[e := nodes[e].(status := EntryCancelled)]; }
      }
    }
  }

  lemma RunningOfNext(front: seq<Entry>, last: Entry)
    ensures var a, b := RunningOf(front), RunningOf(front + [last]);
      if last.status != EntryRunning then b == a
      else if last.meta.PlannerRole? then b == a.(plans := a.plans + {last.meta.planId})
      else b == a.(workItems := a.workItems + {last.meta.workItemKey})
  {
    var all := front + [last];
    forall e ensures e in all <==> e in front || e == last {
      if e in front { var i :| 0 <= i < |front| && front[i] == e; assert all[i] == e; }
      assert all[|front|] == last;
    }
  }

  lemma RefusedAfterCheck(s: State, meta: Metadata, payload: Payload)
    requires FitsSchema(meta, payload)
    ensures ValidationError(s, meta, Completed(payload)) !in {Some(NodeAlreadyFinished), Some(InvalidPayload)}
  {
  }
}
