/** Running nodes stay on target: what holds of every running entry in every run of a pursuit,
    for all submissions, reports and interrupts, and why dispatches never repeat a target. */
module WorkflowSafety {
  import opened Text
  import opened PursuitState
  import opened PursuitProgress
  import opened PursuitInvariant
  import opened PursuitSteps
  import opened PursuitClosing
  import opened PursuitReconcile
  import opened PursuitApply
  import opened WorkflowRun

  // ----- running entries and their targets -----------------------------------------

  /** A running node works on the pursuit's current attempt: on its pending plan, or on a
      waiting item all of whose dependencies succeeded. */
  ghost predicate OnTarget(s: State, meta: Metadata) {
    |s.legs| >= 1 && |Last(s.legs).attempts| >= 1 &&
    var leg := Last(s.legs);
    var attempt := Last(leg.attempts);
    meta.legId == leg.id && meta.attemptId == attempt.id && meta.attempt == attempt.sequence &&
    match meta
    case PlannerRole(_, _, planId, _) => planId == attempt.plan.id && attempt.plan.status == NotStarted
    case WorkerRole(_, _, id, key, _) =>
      exists k :: 0 <= k < |attempt.workItems| && WorksOn(leg, attempt.workItems[k], id, key)
  }

  ghost predicate WorksOn(leg: Leg, item: WorkItem, id: string, key: string) {
    item.id == id && item.key == key && item.status == NotStarted && DependenciesSucceeded(leg, item)
  }

  predicate SameTarget(a: Metadata, b: Metadata) {
    || (a.PlannerRole? && b.PlannerRole? && a.planId == b.planId)
    || (a.WorkerRole? && b.WorkerRole? && a.workItemKey == b.workItemKey)
  }

  ghost predicate TargetsHeld(s: State, nodes: seq<Entry>) {
    forall e :: 0 <= e < |nodes| && nodes[e].status == EntryRunning ==> OnTarget(s, nodes[e].meta)
  }

  /** No plan and no work item is held by two running nodes. */
  ghost predicate NoSharedTarget(nodes: seq<Entry>) {
    forall e, e2 :: 0 <= e < e2 < |nodes| && nodes[e].status == EntryRunning && nodes[e2].status == EntryRunning ==>
      !SameTarget(nodes[e].meta, nodes[e2].meta)
  }

  lemma UuidTextHasNoColon(u: Uuid)
    ensures ':' !in UuidText(u)
  {
  }

  lemma KeysUnique(leg: Leg, j: int, k: int, j2: int, k2: int)
    requires LegShape(leg) && InLeg(leg, j, k) && InLeg(leg, j2, k2)
    requires Item(leg, j, k).key == Item(leg, j2, k2).key
    ensures j == j2 && k == k2
  {
    var a, b := Item(leg, j, k), Item(leg, j2, k2);
    assert AttemptFits(leg, j) && AttemptFits(leg, j2);
    assert ItemFits(leg, leg.attempts[j], a) && ItemFits(leg, leg.attempts[j2], b);
    UuidTextHasNoColon(leg.id);
    WorkItemKeyInjective(UuidText(leg.id), a.legGoalVersion, a.id, UuidText(leg.id), b.legGoalVersion, b.id);
  }

  lemma RunningKeyHolder(nodes: seq<Entry>, key: string) returns (e: nat)
    requires key in RunningOf(nodes).workItems
    ensures e < |nodes| && nodes[e].status == EntryRunning && nodes[e].meta.WorkerRole? &&
        nodes[e].meta.workItemKey == key
  {
    var x :| x in nodes && x.status == EntryRunning && x.meta.WorkerRole? && x.meta.workItemKey == key;
    e :| 0 <= e < |nodes| && nodes[e] == x;
  }

  lemma TargetsAreReady(s: State, nodes: seq<Entry>)
    requires |s.legs| >= 1 && LegShape(Last(s.legs)) && TargetsHeld(s, nodes)
    ensures RunningReady(Last(s.legs), RunningOf(nodes))
  {
    var leg := Last(s.legs);
    var running := RunningOf(nodes);
    forall j, k | InLeg(leg, j, k) && Item(leg, j, k).status == NotStarted && Item(leg, j, k).key in running.workItems
      ensures DependenciesSucceeded(leg, Item(leg, j, k))
    {
      var e := RunningKeyHolder(nodes, Item(leg, j, k).key);
      assert OnTarget(s, nodes[e].meta);
      var n := |leg.attempts| - 1;
      var k2 :| 0 <= k2 < |leg.attempts[n].workItems| &&
        WorksOn(leg, leg.attempts[n].workItems[k2], nodes[e].meta.workItemId, nodes[e].meta.workItemKey);
      KeysUnique(leg, j, k, n, k2);
    }
  }

  // ----- after one entry settles -----------------------------------------------------

  ghost predicate NoneRunning(nodes: seq<Entry>) {
    forall e :: 0 <= e < |nodes| ==> nodes[e].status != EntryRunning
  }

  /** While a plan is pending, its planner is the only node that can be running. */
  lemma PlannerRunsAlone(s: State, nodes: seq<Entry>, e: nat, e2: nat)
    requires TargetsHeld(s, nodes) && NoSharedTarget(nodes)
    requires |s.legs| >= 1 && LegShape(Last(s.legs))
    requires e < |nodes| && nodes[e].status == EntryRunning && nodes[e].meta.PlannerRole?
    requires e2 < |nodes| && nodes[e2].status == EntryRunning
    ensures e2 == e
  {
    var leg := Last(s.legs);
    assert OnTarget(s, nodes[e].meta) && OnTarget(s, nodes[e2].meta);
    assert Last(leg.attempts).workItems == [] by { assert AttemptFits(leg, |leg.attempts| - 1); }
  }

  /** The current items with this key are the same in `b`. */
  ghost predicate KeepsHeld(a: Leg, b: Leg, key: string) {
    && |a.attempts| == |b.attempts| >= 1
    && forall k :: 0 <= k < |Last(a.attempts).workItems| ==>
         Last(a.attempts).workItems[k].key != key ||
         (k < |Last(b.attempts).workItems| && Last(b.attempts).workItems[k] == Last(a.attempts).workItems[k])
  }

  /** A worker's target stands as long as its own item is left alone. */
  lemma TargetCarriesOver(a: State, b: State, meta: Metadata)
    requires OnTarget(a, meta) && meta.WorkerRole?
    requires |b.legs| >= 1 && LegExtends(Last(a.legs), Last(b.legs)) && Unique(Last(b.legs))
    requires KeepsHeld(Last(a.legs), Last(b.legs), meta.workItemKey)
    ensures OnTarget(b, meta)
  {
    var la, lb := Last(a.legs), Last(b.legs);
    var n := |la.attempts| - 1;
    assert AttemptExtends(la.attempts[n], lb.attempts[n]);
    var k :| 0 <= k < |la.attempts[n].workItems| &&
      WorksOn(la, la.attempts[n].workItems[k], meta.workItemId, meta.workItemKey);
    ExtendsKeepsReliance(la, lb, la.attempts[n].workItems[k]);
    assert WorksOn(lb, lb.attempts[n].workItems[k], meta.workItemId, meta.workItemKey);
  }

  /** The other running workers keep their items when one worker settles. */
  lemma OthersKeepTarget(s: State, m: State, key: string, other: Metadata, args: Args)
    requires ApplyResult(s, m, args) && LeavesOthers(s, m, key)
    requires OnTarget(s, other) && other.WorkerRole? && other.workItemKey != key
    ensures OnTarget(m, other)
  {
    assert LegExtends(s.legs[|s.legs| - 1], m.legs[|s.legs| - 1]);
    TargetCarriesOver(s, m, other);
  }

  lemma ItemOfRunningWorker(s: State, meta: Metadata, k: nat)
    requires OnTarget(s, meta) && meta.WorkerRole? && LegShape(Last(s.legs))
    requires k < |Last(Last(s.legs).attempts).workItems| &&
        Last(Last(s.legs).attempts).workItems[k].key == meta.workItemKey
    ensures DependenciesSucceeded(Last(s.legs), Last(Last(s.legs).attempts).workItems[k])
  {
    var leg := Last(s.legs);
    var n := |leg.attempts| - 1;
    var k2 :| 0 <= k2 < |leg.attempts[n].workItems| &&
      WorksOn(leg, leg.attempts[n].workItems[k2], meta.workItemId, meta.workItemKey);
    assert Item(leg, n, k).key == Item(leg, n, k2).key;
    KeysUnique(leg, n, k, n, k2);
  }

  /** An accepted settlement of running entry `e`: its effect on the pursuit, and the
      targets of the entries still running. */
  lemma AppliedKeepsTargets(s: State, nodes: seq<Entry>, nodes': seq<Entry>, e: nat, st: Settlement, args: Args)
    requires Open(s, args) && TargetsHeld(s, nodes) && NoSharedTarget(nodes)
    requires e < |nodes| && nodes[e].status == EntryRunning && (st.Completed? ==> FitsSchema(nodes[e].meta, st.payload))
    requires ValidationError(s, nodes[e].meta, st) == None
    requires |nodes'| == |nodes| && nodes' == nodes[e := nodes'[e]] && nodes'[e].status != EntryRunning
    ensures var r := ApplySettlement(s, nodes[e].meta, st);
      r.changed && ApplyResult(s, r.state, args) && TargetsHeld(r.state, nodes')
    ensures forall e2 :: 0 <= e2 < |nodes'| && nodes'[e2].status == EntryRunning ==> nodes'[e2].meta.WorkerRole?
  {
    var meta := nodes[e].meta;
    var m := ApplySettlement(s, meta, st).state;
    assert OnTarget(s, meta);
    if meta.PlannerRole? {
      ApplyPlannerResult(s, meta, st, args);
      forall e2 | 0 <= e2 < |nodes'| ensures nodes'[e2].status != EntryRunning {
        if nodes[e2].status == EntryRunning { PlannerRunsAlone(s, nodes, e, e2); }
      }
    } else {
      forall k | 0 <= k < |Last(Last(s.legs).attempts).workItems| &&
        Last(Last(s.legs).attempts).workItems[k].key == meta.workItemKey
        ensures DependenciesSucceeded(Last(s.legs), Last(Last(s.legs).attempts).workItems[k])
      {
        ItemOfRunningWorker(s, meta, k);
      }
      ApplyWorkerResult(s, meta, st, args);
      ApplyWorkerLocal(s, meta, st, args);
      forall e2 | 0 <= e2 < |nodes'| && nodes'[e2].status == EntryRunning
        ensures OnTarget(m, nodes'[e2].meta) && nodes'[e2].meta.WorkerRole?
      {
        OtherRunningIsWorker(s, nodes, e, e2);
        OthersKeepTarget(s, m, meta.workItemKey, nodes[e2].meta, args);
      }
    }
  }

  lemma OtherRunningIsWorker(s: State, nodes: seq<Entry>, e: nat, e2: nat)
    requires TargetsHeld(s, nodes) && NoSharedTarget(nodes)
    requires |s.legs| >= 1 && LegShape(Last(s.legs))
    requires e < |nodes| && nodes[e].status == EntryRunning && nodes[e].meta.WorkerRole?
    requires e2 < |nodes| && nodes[e2].status == EntryRunning && e2 != e
    ensures nodes[e2].meta.WorkerRole? && nodes[e2].meta.workItemKey != nodes[e].meta.workItemKey
    ensures OnTarget(s, nodes[e2].meta)
  {
    if nodes[e2].meta.PlannerRole? { PlannerRunsAlone(s, nodes, e2, e); }
    assert e < e2 ==> !SameTarget(nodes[e].meta, nodes[e2].meta);
    assert e2 < e ==> !SameTarget(nodes[e2].meta, nodes[e].meta);
  }

  // ----- after the reconcile -----------------------------------------------------------

  /** While an item of the current attempt is being worked on, reconciling only blocks
      items; it closes nothing. */
  lemma StaysWhileRunning(m: State, running: RunningNodes, k: nat, args: Args)
    requires Unreconciled(m, args)
    requires InLeg(Last(m.legs), |Last(m.legs).attempts| - 1, k)
    requires Item(Last(m.legs), |Last(m.legs).attempts| - 1, k).status == NotStarted
    requires Item(Last(m.legs), |Last(m.legs).attempts| - 1, k).key in running.workItems
    ensures var r := Reconcile(m, running).state;
      r.legs == m.legs[|m.legs| - 1 := SpreadBlocks(Last(m.legs), running)] && !r.done
  {
    hide SpreadBlocks;
    hide AfterFailedAttempt;
    hide AfterSucceededAttempt;
    hide CloseAttempt;
    var n := |m.legs| - 1;
    var leg := SpreadBlocks(m.legs[n], running);
    var j := |leg.attempts| - 1;
    SpreadBlocksKeeps(m.legs[n], running);
    assert Item(leg, j, k) == Item(m.legs[n], j, k);
    assert AttemptFits(leg, j);
    assert EffectiveStatus(leg.attempts[j].workItems[k], running) == Running;
    assert AttemptVerdict(leg.attempts[j], running) == None;
    var s1 := SetLeg(m, n, leg);
    assert s1.legs[n] == leg;
    assert ReconcileLeg(s1, n, running) == Applied(s1, false);
    ReconcileLast(m, running);
  }

  lemma BlocksOnlyKeepsHeld(a: Leg, b: Leg, running: RunningNodes, key: string)
    requires BlocksOnly(a, b, running) && key in running.workItems && |a.attempts| >= 1
    ensures KeepsHeld(a, b, key)
  {
    var n := |a.attempts| - 1;
    forall k | 0 <= k < |a.attempts[n].workItems| && a.attempts[n].workItems[k].key == key
      ensures k < |b.attempts[n].workItems| && b.attempts[n].workItems[k] == a.attempts[n].workItems[k]
    {
      assert InLeg(a, n, k) && Item(a, n, k).key == key;
      assert Item(b, n, k) == Item(a, n, k);
    }
  }

  lemma SpreadKeepsTarget(m: State, r: State, running: RunningNodes, other: Metadata, args: Args)
    requires Unreconciled(m, args) && OnTarget(m, other) && other.WorkerRole? && other.workItemKey in running.workItems
    requires |r.legs| >= 1 && Last(r.legs) == SpreadBlocks(Last(m.legs), running)
    ensures OnTarget(r, other)
  {
    var leg := Last(m.legs);
    var spread := SpreadBlocks(leg, running);
    SpreadBlocksKeeps(leg, running);
    BlocksOnlyExtends(leg, spread, running);
    BlocksOnlyKeepsHeld(leg, spread, running, other.workItemKey);
    TargetCarriesOver(m, r, other);
  }

  lemma WorkerHoldsOpen(m: State, running: RunningNodes, other: Metadata, args: Args)
    requires Unreconciled(m, args) && OnTarget(m, other) && other.WorkerRole? && other.workItemKey in running.workItems
    ensures OnTarget(Reconcile(m, running).state, other) && !Reconcile(m, running).state.done
  {
    var leg := Last(m.legs);
    var n := |leg.attempts| - 1;
    var k :| 0 <= k < |leg.attempts[n].workItems| &&
      WorksOn(leg, leg.attempts[n].workItems[k], other.workItemId, other.workItemKey);
    StaysWhileRunning(m, running, k, args);
    SpreadKeepsTarget(m, Reconcile(m, running).state, running, other, args);
  }

  lemma HolderIsRunning(nodes: seq<Entry>, e: nat)
    requires e < |nodes| && nodes[e].status == EntryRunning
    ensures nodes[e].meta.WorkerRole? ==> nodes[e].meta.workItemKey in RunningOf(nodes).workItems
    ensures nodes[e].meta.PlannerRole? ==> nodes[e].meta.planId in RunningOf(nodes).plans
  {
    assert nodes[e] in nodes;
  }

  /** After a settlement of entry `e` was applied and reconciled, whatever still runs is
      on target, and nothing runs once the pursuit is done. */
  lemma ReconciledKeepsTargets(m: State, nodes: seq<Entry>, args: Args)
    requires Unreconciled(m, args) && TargetsHeld(m, nodes)
    requires forall e :: 0 <= e < |nodes| && nodes[e].status == EntryRunning ==> nodes[e].meta.WorkerRole?
    ensures var r := Reconcile(m, RunningOf(nodes)).state;
      TargetsHeld(r, nodes) && (r.done ==> NoneRunning(nodes)) && ReconcileResult(m, r, args)
  {
    var r := Reconcile(m, RunningOf(nodes)).state;
    TargetsAreReady(m, nodes);
    ReconcileSettles(m, RunningOf(nodes), args);
    forall e | 0 <= e < |nodes| && nodes[e].status == EntryRunning ensures OnTarget(r, nodes[e].meta) && !r.done {
      HolderIsRunning(nodes, e);
      WorkerHoldsOpen(m, RunningOf(nodes), nodes[e].meta, args);
    }
  }

  // ----- dispatching ---------------------------------------------------------------------

  /** The node's target is not held by a running node. */
  predicate Unheld(meta: Metadata, running: RunningNodes) {
    match meta
    case PlannerRole(_, _, planId, _) => planId !in running.plans
    case WorkerRole(_, _, _, key, _) => key !in running.workItems
  }

  lemma DispatchIsOnTarget(s: State, running: RunningNodes, d: Metadata, args: Args)
    requires Open(s, args) && d in Dispatches(s, running, true)
    ensures OnTarget(s, d) && Unheld(d, running)
  {
    var leg := Last(s.legs);
    var attempt := Last(leg.attempts);
    OnlyLastLegDispatches(s, args, running, true);
    if attempt.plan.status == Success {
      var k :| 0 <= k < |attempt.workItems| && Ready(leg, attempt.workItems[k], running) &&
        d == WorkerMeta(leg, attempt, attempt.workItems[k]);
      assert WorksOn(leg, attempt.workItems[k], d.workItemId, d.workItemKey);
    }
  }

  ghost predicate DistinctTargets(ds: seq<Metadata>) {
    forall a, b :: 0 <= a < b < |ds| ==> !SameTarget(ds[a], ds[b])
  }

  lemma {:induction false} WorkerDispatchesDistinct(leg: Leg, attempt: Attempt, items: seq<WorkItem>,
      running: RunningNodes)
    requires forall a, b :: 0 <= a < b < |items| ==> items[a].key != items[b].key
    ensures DistinctTargets(WorkerDispatches(leg, attempt, items, running))
  {
    if items != [] {
      var front := items[..|items| - 1];
      var last := items[|items| - 1];
      var ds := WorkerDispatches(leg, attempt, front, running);
      WorkerDispatchesDistinct(leg, attempt, front, running);
      forall a | 0 <= a < |ds| ensures !SameTarget(ds[a], WorkerMeta(leg, attempt, last)) {
        assert ds[a] in ds;
        var k :| 0 <= k < |front| && Ready(leg, front[k], running) && ds[a] == WorkerMeta(leg, attempt, front[k]);
        assert front[k] == items[k];
      }
    }
  }

  lemma CurrentKeysDistinct(leg: Leg)
    requires LegShape(leg)
    ensures var items := Last(leg.attempts).workItems;
      forall a, b :: 0 <= a < b < |items| ==> items[a].key != items[b].key
  {
    var n := |leg.attempts| - 1;
    var items := leg.attempts[n].workItems;
    forall a, b | 0 <= a < b < |items| ensures items[a].key != items[b].key {
      if Item(leg, n, a).key == Item(leg, n, b).key { KeysUnique(leg, n, a, n, b); }
    }
  }

  lemma LegDispatchesDistinct(leg: Leg, running: RunningNodes)
    requires LegShape(leg)
    ensures DistinctTargets(LegDispatches(leg, running, true))
  {
    CurrentKeysDistinct(leg);
    WorkerDispatchesDistinct(leg, Last(leg.attempts), Last(leg.attempts).workItems, running);
  }

  lemma DispatchesDistinct(s: State, running: RunningNodes, args: Args)
    requires Open(s, args)
    ensures DistinctTargets(Dispatches(s, running, true))
  {
    OnlyLastLegDispatches(s, args, running, true);
    LegDispatchesDistinct(Last(s.legs), running);
  }

  lemma UnheldMeansDifferent(nodes: seq<Entry>, e: nat, d: Metadata)
    requires e < |nodes| && nodes[e].status == EntryRunning && Unheld(d, RunningOf(nodes))
    ensures !SameTarget(nodes[e].meta, d)
  {
    HolderIsRunning(nodes, e);
  }

  lemma ClaimsKeepTargets(s: State, nodes: seq<Entry>, args: Args)
    requires Open(s, args) && TargetsHeld(s, nodes) && NoSharedTarget(nodes)
    ensures var nodes' := nodes + Claims(Dispatches(s, RunningOf(nodes), true));
      TargetsHeld(s, nodes') && NoSharedTarget(nodes')
  {
    var ds := Dispatches(s, RunningOf(nodes), true);
    var nodes' := nodes + Claims(ds);
    DispatchesDistinct(s, RunningOf(nodes), args);
    forall a | 0 <= a < |ds| ensures OnTarget(s, ds[a]) && Unheld(ds[a], RunningOf(nodes)) {
      DispatchIsOnTarget(s, RunningOf(nodes), ds[a], args);
    }
    forall e, e2 | 0 <= e < e2 < |nodes'| && nodes'[e].status == EntryRunning && nodes'[e2].status == EntryRunning
      ensures !SameTarget(nodes'[e].meta, nodes'[e2].meta)
    {
      if e < |nodes| <= e2 {
        UnheldMeansDifferent(nodes, e, ds[e2 - |nodes|]);
      }
    }
  }

  /** Nothing that is ready waits for a launch. */
  ghost predicate Saturated(s: State, nodes: seq<Entry>) {
    Dispatches(s, RunningOf(nodes), true) == []
  }

  lemma ClaimedIsHeld(nodes: seq<Entry>, ds: seq<Metadata>, d: Metadata)
    requires d in ds
    ensures !Unheld(d, RunningOf(nodes + Claims(ds)))
  {
    var i :| 0 <= i < |ds| && ds[i] == d;
    var all := nodes + Claims(ds);
    assert all[|nodes| + i] == Entry(d, EntryRunning, None);
    HolderIsRunning(all, |nodes| + i);
  }

  lemma StillHeld(nodes: seq<Entry>, more: seq<Entry>)
    ensures RunningOf(nodes).plans <= RunningOf(nodes + more).plans
    ensures RunningOf(nodes).workItems <= RunningOf(nodes + more).workItems
  {
  }

  lemma FewerDispatches(s: State, running: RunningNodes, running': RunningNodes, d: Metadata, args: Args)
    requires Open(s, args)
    requires running.plans <= running'.plans && running.workItems <= running'.workItems
    requires d in Dispatches(s, running', true)
    ensures d in Dispatches(s, running, true)
  {
    OnlyLastLegDispatches(s, args, running, true);
    OnlyLastLegDispatches(s, args, running', true);
  }

  lemma ClaimsSaturate(s: State, nodes: seq<Entry>, args: Args)
    requires Open(s, args)
    ensures Saturated(s, nodes + Claims(Dispatches(s, RunningOf(nodes), true)))
  {
    var ds := Dispatches(s, RunningOf(nodes), true);
    var nodes' := nodes + Claims(ds);
    var ds' := Dispatches(s, RunningOf(nodes'), true);
    StillHeld(nodes, Claims(ds));
    if ds' != [] {
      assert ds'[0] in ds';
      FewerDispatches(s, RunningOf(nodes), RunningOf(nodes'), ds'[0], args);
      ClaimedIsHeld(nodes, ds, ds'[0]);
      DispatchIsOnTarget(s, RunningOf(nodes'), ds'[0], args);
    }
  }

  lemma NoneRunningIsEmpty(nodes: seq<Entry>)
    requires NoneRunning(nodes)
    ensures RunningOf(nodes) == RunningNodes({}, {})
  {
  }
}
