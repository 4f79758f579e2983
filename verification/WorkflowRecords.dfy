/** What stands behind a pursuit's state in every run: which entry planned an attempt, which one
    settled an item, and which had passed before another was launched. */
module WorkflowRecords {
  import opened Text
  import opened PursuitState
  import opened PursuitProgress
  import opened PursuitInvariant
  import opened PursuitSteps
  import opened PursuitClosing
  import opened PursuitReconcile
  import opened PursuitApply
  import opened PursuitEffects
  import opened WorkflowRun
  import opened WorkflowSafety
  import opened WorkflowInvariant

  // ----- entries and what they left ---------------------------------------------------------

  /** The entry ended with a submission that the work passed. */
  predicate Passed(n: Entry) {
    n.status == EntryCompleted && n.accepted.Some? && n.accepted.value.WorkerOutcome? && n.accepted.value.work.isPass
  }

  /** The item as the worker's entry left it. */
  predicate SettledAs(item: WorkItem, n: Entry) {
    && n.meta.WorkerRole? && item.key == n.meta.workItemKey && item.id == n.meta.workItemId
    && item.status == (if Passed(n) then Success else Failed)
    && (n.status == EntryCompleted ==>
          && n.accepted.Some? && n.accepted.value.WorkerOutcome?
          && item.summary == Some(n.accepted.value.work.summary) && item.outcome == Some(n.accepted.value.work.outcome))
  }

  /** The attempt's plan as the planner's entry left it. */
  predicate PlannedAs(a: Attempt, n: Entry) {
    && n.meta.PlannerRole? && a.plan.id == n.meta.planId
    && (if n.status == EntryCompleted
        then n.accepted.Some? && n.accepted.value.PlannerOutcome? && Carries(a, n.accepted.value.plan)
        else a.plan.status == Failed)
  }

  ghost predicate WorkerRecorded(s: State, n: Entry) {
    exists i, j, k :: 0 <= i < |s.legs| && InLeg(s.legs[i], j, k) && RecordedAt(s.legs[i], j, k, n)
  }

  predicate RecordedAt(leg: Leg, j: int, k: int, n: Entry)
    requires InLeg(leg, j, k)
  {
    leg.id == n.meta.legId && leg.attempts[j].id == n.meta.attemptId && SettledAs(Item(leg, j, k), n)
  }

  ghost predicate PlannerRecorded(s: State, n: Entry) {
    exists i, j :: HasAttempt(s.legs, i, j) && PlanRecordedAt(s.legs[i], j, n)
  }

  predicate PlanRecordedAt(leg: Leg, j: int, n: Entry)
    requires 0 <= j < |leg.attempts|
  {
    leg.id == n.meta.legId && leg.attempts[j].id == n.meta.attemptId && PlannedAs(leg.attempts[j], n)
  }

  /** What every applied entry submitted or reported is what the pursuit holds. */
  ghost predicate EntriesRecorded(s: State, nodes: seq<Entry>, applied: seq<nat>) {
    forall e :: e in applied ==>
      e < |nodes| && (if nodes[e].meta.WorkerRole? then WorkerRecorded(s, nodes[e]) else PlannerRecorded(s, nodes[e]))
  }

  predicate WorkedOn(nodes: seq<Entry>, e: int, key: string) {
    0 <= e < |nodes| && nodes[e].meta.WorkerRole? && nodes[e].meta.workItemKey == key
  }

  predicate PlannedBy(nodes: seq<Entry>, e: int, planId: Uuid) {
    0 <= e < |nodes| && nodes[e].meta.PlannerRole? && nodes[e].meta.planId == planId
  }

  predicate Settled(item: WorkItem) {
    item.status == Success || item.status == Failed
  }

  /** No item settles and no plan is made without an applied entry. */
  ghost predicate ItemsHaveEntries(s: State, nodes: seq<Entry>, applied: seq<nat>) {
    forall i, j, k :: 0 <= i < |s.legs| && InLeg(s.legs[i], j, k) && Settled(Item(s.legs[i], j, k)) ==>
      exists e :: e in applied && WorkedOn(nodes, e, Item(s.legs[i], j, k).key)
  }

  ghost predicate PlansHaveEntries(s: State, nodes: seq<Entry>, applied: seq<nat>) {
    forall i, j :: HasAttempt(s.legs, i, j) && AttemptOf(s.legs, i, j).plan.status != NotStarted ==>
      exists e :: e in applied && PlannedBy(nodes, e, AttemptOf(s.legs, i, j).plan.id)
  }

  ghost predicate FailuresExplained(s: State) {
    forall i, j :: HasAttempt(s.legs, i, j) && AttemptOf(s.legs, i, j).status == Failed ==>
      Explained(s.legs[i], AttemptOf(s.legs, i, j))
  }

  // ----- the order of launches -----------------------------------------------------------------

  /** A worker for item `d` of the same leg and goal version passed before entry `e` was launched. */
  ghost predicate PassedBefore(nodes: seq<Entry>, applied: seq<nat>, e: nat, version: nat, d: string)
    requires e < |nodes|
  {
    exists e2 :: e2 in applied && e2 < e && PassedOn(nodes, e2, nodes[e].meta.legId, version, d)
  }

  predicate PassedOn(nodes: seq<Entry>, e: nat, legId: Uuid, version: nat, id: string) {
    && e < |nodes| && Passed(nodes[e]) && nodes[e].meta.WorkerRole?
    && nodes[e].meta.legId == legId && nodes[e].meta.workItemId == id
    && nodes[e].meta.workItemKey == WorkItemKey(UuidText(legId), version, id)
  }

  /** Entry `e` was launched for item `k` of the plan that entry `e0` had submitted, after all
      the dependencies that plan names had passed. */
  ghost predicate LaunchedBy(nodes: seq<Entry>, applied: seq<nat>, e: nat, e0: nat, k: nat, version: nat)
    requires e < |nodes| && nodes[e].meta.WorkerRole?
  {
    && e0 in applied && e0 < e && nodes[e0].meta.PlannerRole?
    && nodes[e0].meta.legId == nodes[e].meta.legId && nodes[e0].meta.attemptId == nodes[e].meta.attemptId
    && nodes[e0].status == EntryCompleted && nodes[e0].accepted.Some? && nodes[e0].accepted.value.PlannerOutcome?
    && var specs := nodes[e0].accepted.value.plan.workItems;
       && k < |specs| && specs[k].id == nodes[e].meta.workItemId
       && nodes[e].meta.workItemKey == WorkItemKey(UuidText(nodes[e].meta.legId), version, specs[k].id)
       && forall d :: d in specs[k].dependsOn ==> PassedBefore(nodes, applied, e, version, d)
  }

  ghost predicate LaunchInOrder(nodes: seq<Entry>, applied: seq<nat>, e: nat)
    requires e < |nodes| && nodes[e].meta.WorkerRole?
  {
    exists e0: nat, k: nat, version: nat :: LaunchedBy(nodes, applied, e, e0, k, version)
  }

  ghost predicate LaunchesInOrder(nodes: seq<Entry>, applied: seq<nat>) {
    forall e :: 0 <= e < |nodes| && nodes[e].meta.WorkerRole? ==> LaunchInOrder(nodes, applied, e)
  }

  ghost predicate RecordsOk(s: State, nodes: seq<Entry>, applied: seq<nat>) {
    && EntriesRecorded(s, nodes, applied)
    && ItemsHaveEntries(s, nodes, applied) && PlansHaveEntries(s, nodes, applied)
    && FailuresExplained(s)
    && LaunchesInOrder(nodes, applied)
  }

  // ----- what was recorded stays -------------------------------------------------------------------

  lemma WorkerRecordStays(a: State, b: State, n: Entry)
    requires WorkerRecorded(a, n) && LegsExtend(a.legs, b.legs)
    ensures WorkerRecorded(b, n)
  {
    var i, j, k :| 0 <= i < |a.legs| && InLeg(a.legs[i], j, k) && RecordedAt(a.legs[i], j, k, n);
    assert LegExtends(a.legs[i], b.legs[i]);
    assert AttemptExtends(a.legs[i].attempts[j], b.legs[i].attempts[j]);
    assert ItemExtends(Item(a.legs[i], j, k), Item(b.legs[i], j, k));
    assert InLeg(b.legs[i], j, k) && RecordedAt(b.legs[i], j, k, n);
  }

  lemma PlannerRecordStays(a: State, b: State, n: Entry)
    requires PlannerRecorded(a, n) && LegsExtend(a.legs, b.legs)
    ensures PlannerRecorded(b, n)
  {
    var i, j :| HasAttempt(a.legs, i, j) && PlanRecordedAt(a.legs[i], j, n);
    assert LegExtends(a.legs[i], b.legs[i]);
    var x, y := a.legs[i].attempts[j], b.legs[i].attempts[j];
    assert AttemptExtends(x, y);
    if n.status == EntryCompleted {
      forall k | 0 <= k < |x.workItems| ensures y.workItems[k].id == x.workItems[k].id
        ensures y.workItems[k].dependsOn == x.workItems[k].dependsOn
      {
        assert ItemExtends(x.workItems[k], y.workItems[k]);
      }
    }
    assert HasAttempt(b.legs, i, j) && PlanRecordedAt(b.legs[i], j, n);
  }

  /** Entries that were applied are the same in `after`. */
  ghost predicate AppliedKept(nodes: seq<Entry>, applied: seq<nat>, after: seq<Entry>) {
    && |nodes| <= |after|
    && (forall e :: 0 <= e < |nodes| ==> after[e].meta == nodes[e].meta)
    && (forall e :: e in applied ==> e < |nodes| && after[e] == nodes[e])
  }

  lemma LaunchStays(nodes: seq<Entry>, applied: seq<nat>, after: seq<Entry>, applied': seq<nat>, e: nat)
    requires AppliedKept(nodes, applied, after) && applied <= applied'
    requires e < |nodes| && nodes[e].meta.WorkerRole? && LaunchInOrder(nodes, applied, e)
    ensures LaunchInOrder(after, applied', e)
  {
    var e0: nat, k: nat, version: nat :| LaunchedBy(nodes, applied, e, e0, k, version);
    var specs := nodes[e0].accepted.value.plan.workItems;
    forall d | d in specs[k].dependsOn ensures PassedBefore(after, applied', e, version, d) {
      assert PassedBefore(nodes, applied, e, version, d);
      var e2: nat :| e2 in applied && e2 < e && PassedOn(nodes, e2, nodes[e].meta.legId, version, d);
      assert e2 in applied' && PassedOn(after, e2, after[e].meta.legId, version, d);
    }
    assert LaunchedBy(after, applied', e, e0, k, version);
  }

  lemma LaunchesStay(nodes: seq<Entry>, applied: seq<nat>, after: seq<Entry>, applied': seq<nat>)
    requires AppliedKept(nodes, applied, after) && applied <= applied' && |after| == |nodes|
    requires LaunchesInOrder(nodes, applied)
    ensures LaunchesInOrder(after, applied')
  {
    forall e | 0 <= e < |after| && after[e].meta.WorkerRole? ensures LaunchInOrder(after, applied', e) {
      LaunchStays(nodes, applied, after, applied', e);
    }
  }

  // ----- one settlement --------------------------------------------------------------------------

  function EndedEntry(meta: Metadata, st: Settlement): Entry {
    Entry(meta, StatusOf(st), if st.Completed? then Some(st.payload) else None)
  }

  /** Between the settlement and the state before it, only the entry's own item settles. */
  ghost predicate SettlesOnly(s: State, m: State, meta: Metadata) {
    forall i, j, k :: 0 <= i < |m.legs| && InLeg(m.legs[i], j, k) && Settled(Item(m.legs[i], j, k)) ==>
      || (i < |s.legs| && InLeg(s.legs[i], j, k) && Item(s.legs[i], j, k) == Item(m.legs[i], j, k))
      || (meta.WorkerRole? && Item(m.legs[i], j, k).key == meta.workItemKey)
  }

  /** Likewise, only the entry's own plan is made or fails. */
  ghost predicate PlansOnly(s: State, m: State, meta: Metadata) {
    forall i, j :: HasAttempt(m.legs, i, j) && AttemptOf(m.legs, i, j).plan.status != NotStarted ==>
      || (HasAttempt(s.legs, i, j) && AttemptOf(s.legs, i, j).plan == AttemptOf(m.legs, i, j).plan)
      || (meta.PlannerRole? && AttemptOf(m.legs, i, j).plan.id == meta.planId)
  }

  lemma OneItemSettles(legs: seq<Leg>, after: seq<Leg>, j: int, k: int, item: WorkItem, meta: Metadata)
    requires |legs| >= 1 && InLeg(Last(legs), j, k) && meta.WorkerRole? && item.key == meta.workItemKey
    requires after == legs[|legs| - 1 := SetItem(Last(legs), j, k, item)]
    ensures forall i, a, b :: 0 <= i < |after| && InLeg(after[i], a, b) ==>
      InLeg(legs[i], a, b) &&
      (Item(legs[i], a, b) == Item(after[i], a, b) || Item(after[i], a, b).key == meta.workItemKey)
    ensures forall i, a :: HasAttempt(after, i, a) ==>
      HasAttempt(legs, i, a) && AttemptOf(legs, i, a).plan == AttemptOf(after, i, a).plan
  {
  }

  lemma ItemIsRecorded(m: State, leg: Leg, j: int, k: int, item: WorkItem, n: Entry)
    requires |m.legs| >= 1 && InLeg(leg, j, k) && Last(m.legs) == SetItem(leg, j, k, item)
    requires leg.id == n.meta.legId && leg.attempts[j].id == n.meta.attemptId && SettledAs(item, n)
    ensures WorkerRecorded(m, n)
  {
    hide SettledAs;
    ItemAfterSet(leg, j, k, item, j, k);
    assert RecordedAt(m.legs[|m.legs| - 1], j, k, n);
  }

  lemma PlannerLeaves(s: State, meta: Metadata, st: Settlement, args: Args)
    requires Open(s, args) && meta.PlannerRole? && (st.Completed? ==> FitsSchema(meta, st.payload))
    requires ValidationError(s, meta, st) == None
    requires Last(Last(s.legs).attempts).plan.id == meta.planId
    ensures var m := ApplySettlement(s, meta, st).state;
      PlannerRecorded(m, EndedEntry(meta, st)) && SettlesOnly(s, m, meta) && PlansOnly(s, m, meta)
  {
    hide ApplySettlement;
    hide ValidationError;
    hide SettlementFailure;
    PlannerEffect(s, meta, st, args);
    var leg, m := Last(s.legs), ApplySettlement(s, meta, st).state;
    var n, j := |s.legs| - 1, |leg.attempts| - 1;
    hide PursuitShape;
    hide LegSettled;
    assert HasAttempt(m.legs, n, j) && PlanRecordedAt(m.legs[n], j, EndedEntry(meta, st));
    forall a, b | InLeg(m.legs[n], a, b) && Settled(Item(m.legs[n], a, b))
      ensures InLeg(leg, a, b) && Item(leg, a, b) == Item(m.legs[n], a, b)
    {
      if a < j { assert KeptAttempt(leg.attempts[a], m.legs[n].attempts[a]); }
    }
    forall b | HasAttempt(m.legs, n, b) && b < j ensures m.legs[n].attempts[b].plan == leg.attempts[b].plan {
      assert KeptAttempt(leg.attempts[b], m.legs[n].attempts[b]);
    }
  }

  lemma QuietSettlesNothing(s: State, m: State, r: State, meta: Metadata)
    requires SettlesOnly(s, m, meta) && PlansOnly(s, m, meta) && QuietLegs(m.legs, r.legs)
    ensures SettlesOnly(s, r, meta) && PlansOnly(s, r, meta)
  {
    forall i, j | HasAttempt(r.legs, i, j)
      ensures if HasAttempt(m.legs, i, j) then QuietAttempt(AttemptOf(m.legs, i, j), AttemptOf(r.legs, i, j))
              else Untouched(AttemptOf(r.legs, i, j))
    {
      if i < |m.legs| {
        assert QuietLeg(m.legs[i], r.legs[i]);
        if j < |m.legs[i].attempts| { assert QuietAttempt(m.legs[i].attempts[j], r.legs[i].attempts[j]); }
      }
    }
    hide QuietLeg;
    hide QuietLegs;
    forall i, j, k | 0 <= i < |r.legs| && InLeg(r.legs[i], j, k) && Settled(Item(r.legs[i], j, k))
      ensures 0 <= i < |m.legs| && InLeg(m.legs[i], j, k) && Item(m.legs[i], j, k) == Item(r.legs[i], j, k)
    {
      assert HasAttempt(r.legs, i, j);
      assert QuietItem(AttemptOf(m.legs, i, j).workItems[k], AttemptOf(r.legs, i, j).workItems[k]);
    }
  }

  lemma EntriesStep(s: State, r: State, nodes: seq<Entry>, after: seq<Entry>, applied: seq<nat>, e: nat)
    requires EntriesRecorded(s, nodes, applied) && LegsExtend(s.legs, r.legs)
    requires AppliedKept(nodes, applied, after) && e < |after|
    requires if after[e].meta.WorkerRole? then WorkerRecorded(r, after[e]) else PlannerRecorded(r, after[e])
    ensures EntriesRecorded(r, after, applied + [e])
  {
    hide LegsExtend;
    hide WorkerRecorded;
    hide PlannerRecorded;
    forall x | x in applied
      ensures if after[x].meta.WorkerRole? then WorkerRecorded(r, after[x]) else PlannerRecorded(r, after[x])
    {
      if after[x].meta.WorkerRole? { WorkerRecordStays(s, r, nodes[x]); } else { PlannerRecordStays(s, r, nodes[x]); }
    }
  }

  lemma HaveEntriesStep(s: State, r: State, nodes: seq<Entry>, after: seq<Entry>, applied: seq<nat>, e: nat)
    requires ItemsHaveEntries(s, nodes, applied) && PlansHaveEntries(s, nodes, applied)
    requires AppliedKept(nodes, applied, after) && e < |after|
    requires SettlesOnly(s, r, after[e].meta) && PlansOnly(s, r, after[e].meta)
    ensures ItemsHaveEntries(r, after, applied + [e]) && PlansHaveEntries(r, after, applied + [e])
  {
    forall i, j, k | 0 <= i < |r.legs| && InLeg(r.legs[i], j, k) && Settled(Item(r.legs[i], j, k))
      ensures exists x :: x in applied + [e] && WorkedOn(after, x, Item(r.legs[i], j, k).key)
    {
      if i < |s.legs| && InLeg(s.legs[i], j, k) && Item(s.legs[i], j, k) == Item(r.legs[i], j, k) {
        var x :| x in applied && WorkedOn(nodes, x, Item(s.legs[i], j, k).key);
        assert x in applied + [e] && WorkedOn(after, x, Item(r.legs[i], j, k).key);
      } else {
        assert e in applied + [e] && WorkedOn(after, e, Item(r.legs[i], j, k).key);
      }
    }
    forall i, j | HasAttempt(r.legs, i, j) && AttemptOf(r.legs, i, j).plan.status != NotStarted
      ensures exists x :: x in applied + [e] && PlannedBy(after, x, AttemptOf(r.legs, i, j).plan.id)
    {
      if HasAttempt(s.legs, i, j) && AttemptOf(s.legs, i, j).plan == AttemptOf(r.legs, i, j).plan {
        var x :| x in applied && PlannedBy(nodes, x, AttemptOf(s.legs, i, j).plan.id);
        assert x in applied + [e] && PlannedBy(after, x, AttemptOf(r.legs, i, j).plan.id);
      } else {
        assert e in applied + [e] && PlannedBy(after, e, AttemptOf(r.legs, i, j).plan.id);
      }
    }
  }

  /** Only the current attempt may have closed since `s`, which was open. */
  lemma FailureOfOldAttempt(s: State, r: State, args: Args, i: int, j: int)
    requires Open(s, args) && FailuresExplained(s) && LegsExtend(s.legs, r.legs)
    requires forall i :: 0 <= i < |r.legs| ==> Unique(r.legs[i])
    requires HasAttempt(s.legs, i, j) && (i < |s.legs| - 1 || j < |s.legs[i].attempts| - 1)
    requires HasAttempt(r.legs, i, j) && AttemptOf(r.legs, i, j).status == Failed
    ensures Explained(r.legs[i], AttemptOf(r.legs, i, j))
  {
    var a, b := s.legs[i], r.legs[i];
    assert i < |s.legs| - 1 ==> LegWon(a);
    assert LegShape(a) && LegExtends(a, b) && AttemptExtends(a.attempts[j], b.attempts[j]);
    assert AttemptFits(a, j);
    assert forall x :: 0 <= x < |a.attempts| - 1 ==> Spent(a.attempts[x]);
    assert a.attempts[j].status != Running;
    assert Explained(a, AttemptOf(s.legs, i, j));
    forall j2, k | InLeg(a, j2, k) && j2 <= j ensures Item(a, j2, k).status != NotStarted {
      assert j2 < |a.attempts| - 1 ==> Spent(a.attempts[j2]);
      assert a.attempts[j2].workItems[k] == Item(a, j2, k);
    }
    SameSettledItems(a.attempts[j], b.attempts[j]);
    hide Explained;
    ExplainedStays(a, b, j, b.attempts[j]);
  }

  lemma SameSettledItems(a: Attempt, b: Attempt)
    requires AttemptExtends(a, b) && a.plan.status != NotStarted
    requires forall k :: 0 <= k < |a.workItems| ==> a.workItems[k].status != NotStarted
    ensures b.workItems == a.workItems
  {
    forall k | 0 <= k < |a.workItems| ensures b.workItems[k] == a.workItems[k] {
      assert ItemExtends(a.workItems[k], b.workItems[k]);
    }
  }

  lemma FailuresStep(s: State, m: State, r: State, args: Args)
    requires Open(s, args) && FailuresExplained(s) && LegsExtend(s.legs, r.legs)
    requires forall i :: 0 <= i < |r.legs| ==> Unique(r.legs[i])
    requires |m.legs| == |s.legs| && |Last(m.legs).attempts| == |Last(s.legs).attempts|
    requires m.legs == s.legs[|s.legs| - 1 := Last(m.legs)]
    requires QuietLegs(m.legs, r.legs) && VerdictRecorded(m, r)
    requires Last(Last(m.legs).attempts).plan.status == Failed ==> Explained(Last(m.legs), Last(Last(m.legs).attempts))
    ensures FailuresExplained(r)
  {
    hide Open;
    hide LegsExtend;
    hide Unique;
    forall i, j | HasAttempt(r.legs, i, j) && AttemptOf(r.legs, i, j).status == Failed
      ensures Explained(r.legs[i], AttemptOf(r.legs, i, j))
    {
      if i < |s.legs| {
        assert QuietLeg(m.legs[i], r.legs[i]);
        if i == |s.legs| - 1 && j == |s.legs[i].attempts| - 1 {
          CurrentFailure(m, r);
        } else {
          OldOrNewFailure(s, m, r, args, i, j);
        }
      }
    }
  }

  lemma CurrentFailure(m: State, r: State)
    requires |m.legs| >= 1 && |Last(m.legs).attempts| >= 1 && QuietLegs(m.legs, r.legs) && VerdictRecorded(m, r)
    requires Last(Last(m.legs).attempts).plan.status == Failed ==> Explained(Last(m.legs), Last(Last(m.legs).attempts))
    requires r.legs[|m.legs| - 1].attempts[|Last(m.legs).attempts| - 1].status == Failed
    ensures Explained(r.legs[|m.legs| - 1], r.legs[|m.legs| - 1].attempts[|Last(m.legs).attempts| - 1])
  {
    var n, j := |m.legs| - 1, |Last(m.legs).attempts| - 1;
    assert QuietLeg(m.legs[n], r.legs[n]) && QuietAttempt(m.legs[n].attempts[j], r.legs[n].attempts[j]);
    hide ReasonsAt;
    hide FailureText;
  }

  lemma OldOrNewFailure(s: State, m: State, r: State, args: Args, i: int, j: int)
    requires Open(s, args) && FailuresExplained(s) && LegsExtend(s.legs, r.legs)
    requires forall i :: 0 <= i < |r.legs| ==> Unique(r.legs[i])
    requires |m.legs| == |s.legs| && |Last(m.legs).attempts| == |Last(s.legs).attempts| && QuietLegs(m.legs, r.legs)
    requires m.legs == s.legs[|s.legs| - 1 := Last(m.legs)]
    requires HasAttempt(r.legs, i, j) && i < |s.legs| && AttemptOf(r.legs, i, j).status == Failed
    requires i < |s.legs| - 1 || j != |s.legs[i].attempts| - 1
    ensures Explained(r.legs[i], AttemptOf(r.legs, i, j))
  {
    assert LegExtends(s.legs[i], r.legs[i]) && QuietLeg(m.legs[i], r.legs[i]);
    if j < |s.legs[i].attempts| {
      FailureOfOldAttempt(s, r, args, i, j);
    } else {
      NewAttemptWaits(m.legs[i], r.legs[i], j);
    }
  }

  lemma NewAttemptWaits(leg: Leg, after: Leg, j: int)
    requires QuietLeg(leg, after) && |leg.attempts| <= j < |after.attempts|
    ensures after.attempts[j].status != Failed
  {
    assert Untouched(after.attempts[j]);
  }

  /** What the ended entry `n` leaves in the state right after it: its record, nothing else
      settled or planned, and a reason for a failed plan. */
  ghost predicate Leaves(s: State, m: State, n: Entry) {
    && (if n.meta.WorkerRole? then WorkerRecorded(m, n) else PlannerRecorded(m, n))
    && SettlesOnly(s, m, n.meta) && PlansOnly(s, m, n.meta)
    && |m.legs| == |s.legs| >= 1 && m.legs == s.legs[|s.legs| - 1 := Last(m.legs)]
    && |Last(m.legs).attempts| == |Last(s.legs).attempts| >= 1
    && (Last(Last(m.legs).attempts).plan.status == Failed ==> Explained(Last(m.legs), Last(Last(m.legs).attempts)))
  }

  lemma OpenHasLegs(s: State, args: Args)
    requires Open(s, args)
    ensures |s.legs| >= 1 && |Last(s.legs).attempts| >= 1 && Last(Last(s.legs).attempts).plan.status != Failed
  {
    hide Sound;
    hide Spread;
  }

  lemma WorkerEntryLeaves(s: State, meta: Metadata, st: Settlement, args: Args)
    requires Open(s, args) && meta.WorkerRole? && (st.Completed? ==> FitsSchema(meta, st.payload))
    requires ValidationError(s, meta, st) == None
    ensures Leaves(s, ApplySettlement(s, meta, st).state, EndedEntry(meta, st))
  {
    hide ApplySettlement;
    hide ValidationError;
    hide Open;
    hide Leaves;
    hide SetItem;
    hide SettledItem;
    OpenHasLegs(s, args);
    var k := WorkerEffect(s, meta, st, args);
    WorkerLeft(s, ApplySettlement(s, meta, st).state, meta, st, k);
  }

  lemma WorkerLeft(s: State, m: State, meta: Metadata, st: Settlement, k: nat)
    requires meta.WorkerRole? && (st.Completed? ==> FitsSchema(meta, st.payload))
    requires |s.legs| >= 1 && |Last(s.legs).attempts| >= 1 && Last(Last(s.legs).attempts).plan.status != Failed
    requires var leg, j := Last(s.legs), |Last(s.legs).attempts| - 1;
      && leg.id == meta.legId && leg.attempts[j].id == meta.attemptId && InLeg(leg, j, k)
      && Item(leg, j, k).key == meta.workItemKey && Item(leg, j, k).id == meta.workItemId
      && m.legs == s.legs[|s.legs| - 1 := SetItem(leg, j, k, SettledItem(Item(leg, j, k), st))]
    ensures Leaves(s, m, EndedEntry(meta, st))
  {
    var leg, j := Last(s.legs), |Last(s.legs).attempts| - 1;
    var item := SettledItem(Item(leg, j, k), st);
    assert SettledAs(item, EndedEntry(meta, st));
    hide SettledAs;
    hide SettledItem;
    hide WorkerRecorded;
    OneItemSettles(s.legs, m.legs, j, k, item, meta);
    ItemIsRecorded(m, leg, j, k, item, EndedEntry(meta, st));
  }

  lemma EntryLeaves(s: State, nodes: seq<Entry>, e: nat, st: Settlement, args: Args)
    requires Open(s, args) && TargetsHeld(s, nodes) && e < |nodes| && nodes[e].status == EntryRunning
    requires st.Completed? ==> FitsSchema(nodes[e].meta, st.payload)
    requires ValidationError(s, nodes[e].meta, st) == None
    ensures Leaves(s, ApplySettlement(s, nodes[e].meta, st).state, EndedEntry(nodes[e].meta, st))
  {
    hide ApplySettlement;
    hide ValidationError;
    hide Open;
    hide Leaves;
    hide OnTarget;
    var meta := nodes[e].meta;
    assert OnTarget(s, meta);
    if meta.WorkerRole? {
      WorkerEntryLeaves(s, meta, st, args);
    } else {
      PlannerEntryLeaves(s, meta, st, args);
    }
  }

  lemma PlannerEntryLeaves(s: State, meta: Metadata, st: Settlement, args: Args)
    requires Open(s, args) && OnTarget(s, meta) && meta.PlannerRole? && (st.Completed? ==> FitsSchema(meta, st.payload))
    requires ValidationError(s, meta, st) == None
    ensures Leaves(s, ApplySettlement(s, meta, st).state, EndedEntry(meta, st))
  {
    hide ApplySettlement;
    hide ValidationError;
    hide Open;
    hide Leaves;
    PlannerLeaves(s, meta, st, args);
    PlannerEffect(s, meta, st, args);
    PlannerLeft(s, ApplySettlement(s, meta, st).state, meta, st);
  }

  lemma PlannerLeft(s: State, m: State, meta: Metadata, st: Settlement)
    requires meta.PlannerRole? && (st.Completed? ==> FitsSchema(meta, st.payload))
    requires PlannerRecorded(m, EndedEntry(meta, st)) && SettlesOnly(s, m, meta) && PlansOnly(s, m, meta)
    requires |m.legs| == |s.legs| >= 1 && m.legs == s.legs[|s.legs| - 1 := Last(m.legs)]
    requires EarlierKept(Last(s.legs), Last(m.legs))
    requires if st.Completed? then Carries(Last(Last(m.legs).attempts), st.payload.plan)
             else PlanFailed(Last(s.legs), Last(m.legs), SettlementFailure(st, "planner"))
    ensures Leaves(s, m, EndedEntry(meta, st))
  {
    hide SettlementFailure;
    hide PlannerRecorded;
    hide SettlesOnly;
    hide PlansOnly;
    hide PlanFailed;
    if !st.Completed? { FailedPlanIsExplained(s, m, st); }
  }

  lemma FailedPlanIsExplained(s: State, m: State, st: Settlement)
    requires |s.legs| >= 1 && |m.legs| >= 1 && PlanFailed(Last(s.legs), Last(m.legs), SettlementFailure(st, "planner"))
    ensures Explained(Last(m.legs), Last(Last(m.legs).attempts))
  {
    var text := SettlementFailure(st, "planner");
    assert text[0] == 'p';
    assert "context_script_error:"[0] == 'c';
    assert PlannerFailureReason(text) == FailureReason(None, PlannerFailed, Some(text), None, None, []);
  }

  /** Before (`s`), right after the settlement (`m`) and reconciled (`r`). */
  ghost predicate StepFacts(s: State, m: State, r: State) {
    && LegsExtend(s.legs, m.legs) && LegsExtend(m.legs, r.legs)
    && ReconcileEffect(m, r)
    && forall i :: 0 <= i < |r.legs| ==> Unique(r.legs[i])
  }

  lemma ReconciledFacts(m: State, nodes: seq<Entry>, args: Args)
    requires Unreconciled(m, args) && TargetsHeld(m, nodes)
    requires forall e :: 0 <= e < |nodes| && nodes[e].status == EntryRunning ==> nodes[e].meta.WorkerRole?
    ensures var r := Reconcile(m, RunningOf(nodes)).state;
      LegsExtend(m.legs, r.legs) && ReconcileEffect(m, r) && forall i :: 0 <= i < |r.legs| ==> Unique(r.legs[i])
  {
    hide Reconcile;
    hide LegsExtend;
    hide ReconcileEffect;
    ReconciledKeepsTargets(m, nodes, args);
    TargetsAreReady(m, nodes);
    hide TargetsHeld;
    ReconcileIsRecorded(m, RunningOf(nodes), args);
    ReconciledUnique(m, Reconcile(m, RunningOf(nodes)).state, args);
  }

  lemma SettledFacts(a: Run, b: Run, e: nat, st: Settlement, args: Args)
    requires RunLive(a, args) && Ended(a, b, e, st)
    ensures var m := ApplySettlement(a.state, a.nodes[e].meta, st).state;
      StepFacts(a.state, m, Reconcile(m, RunningOf(b.nodes)).state)
  {
    hide Reconcile;
    hide ReconcileEffect;
    hide LegsExtend;
    hide Unique;
    AppliedKeepsTargets(a.state, a.nodes, b.nodes, e, st, args);
    ReconciledFacts(ApplySettlement(a.state, a.nodes[e].meta, st).state, b.nodes, args);
    hide ApplySettlement;
    hide ValidationError;
  }

  lemma EndedFacts(a: Run, b: Run, e: nat, st: Settlement, args: Args)
    requires RunLive(a, args) && Ended(a, b, e, st)
    ensures Open(a.state, args) && TargetsHeld(a.state, a.nodes) && e < |a.nodes| && a.nodes[e].status == EntryRunning
    ensures st.Completed? ==> FitsSchema(a.nodes[e].meta, st.payload)
    ensures ValidationError(a.state, a.nodes[e].meta, st) == None
    ensures |b.nodes| == |a.nodes| && b.nodes[e] == EndedEntry(a.nodes[e].meta, st)
    ensures b.nodes[e].meta == a.nodes[e].meta
  {
    hide Open;
    hide TargetsHeld;
    hide ValidationError;
    hide Saturated;
    hide NoSharedTarget;
  }

  lemma ReconciledRecords(a: Run, b: Run, m: State, r: State, e: nat, st: Settlement, args: Args)
    requires RunLive(a, args) && LogOk(a) && Ended(a, b, e, st) && RecordsOk(a.state, a.nodes, a.applied)
    requires m == ApplySettlement(a.state, a.nodes[e].meta, st).state && StepFacts(a.state, m, r)
    ensures RecordsOk(r, b.nodes, a.applied + [e])
  {
    EndedFacts(a, b, e, st, args);
    EntryLeaves(a.state, a.nodes, e, st, args);
    EndedIsKept(a, b, e, st);
    hide RunLive;
    hide Ended;
    hide EndedEntry;
    hide Unique;
    hide RecordsOk;
    hide ApplySettlement;
    hide ValidationError;
    hide Open;
    hide TargetsHeld;
    hide LogOk;
    hide LegsExtend;
    hide ReconcileEffect;
    hide Leaves;
    hide StepFacts;
    hide AppliedKept;
    RecordsStep(a.state, m, r, a.nodes, b.nodes, a.applied, e, args);
  }

  /** An accepted settlement, applied and reconciled, keeps the records. */
  lemma EvaluateRecords(a: Run, b: Run, e: nat, st: Settlement, args: Args)
    requires RunLive(a, args) && LogOk(a) && Ended(a, b, e, st) && RecordsOk(a.state, a.nodes, a.applied)
    ensures var r := Evaluate(b, e, st); RecordsOk(r.state, r.nodes, r.applied)
  {
    var m := ApplySettlement(a.state, a.nodes[e].meta, st).state;
    EvaluateShape(b, e, st);
    SettledFacts(a, b, e, st, args);
    ReconciledRecords(a, b, m, Reconcile(m, RunningOf(b.nodes)).state, e, st, args);
    hide Evaluate;
    hide RecordsOk;
    hide StepFacts;
    hide Reconcile;
    hide ApplySettlement;
    hide ValidationError;
    hide RunLive;
    hide LogOk;
  }

  lemma EndedIsKept(a: Run, b: Run, e: nat, st: Settlement)
    requires LogOk(a) && Ended(a, b, e, st)
    ensures AppliedKept(a.nodes, a.applied, b.nodes) && |b.nodes| == |a.nodes|
    ensures b.nodes[e] == EndedEntry(a.nodes[e].meta, st)
  {
    hide ValidationError;
  }

  lemma ReconciledUnique(m: State, r: State, args: Args)
    requires ReconcileResult(m, r, args)
    ensures forall i :: 0 <= i < |r.legs| ==> Unique(r.legs[i])
  {
    assert PursuitShape(r, args) && LegShape(Last(r.legs));
    hide LegsExtend;
    AllLegsUnique(r, args);
  }

  lemma RecordsStep(s: State, m: State, r: State, nodes: seq<Entry>, after: seq<Entry>, applied: seq<nat>, e: nat,
      args: Args)
    requires RecordsOk(s, nodes, applied) && Open(s, args) && StepFacts(s, m, r)
    requires AppliedKept(nodes, applied, after) && |after| == |nodes| && e < |after|
    requires Leaves(s, m, after[e])
    ensures RecordsOk(r, after, applied + [e])
  {
    assert QuietLegs(m.legs, r.legs) && VerdictRecorded(m, r) by { hide LegsExtend; }
    hide QuietLegs;
    hide VerdictRecorded;
    hide EntriesRecorded;
    hide ItemsHaveEntries;
    hide PlansHaveEntries;
    hide FailuresExplained;
    hide LaunchesInOrder;
    hide Open;
    hide LegsExtend;
    hide ReconcileEffect;
    hide AppliedKept;
    hide SettlesOnly;
    hide PlansOnly;
    hide Explained;
    hide WorkerRecorded;
    hide PlannerRecorded;
    hide Unique;
    LegsExtendTransitive(s.legs, m.legs, r.legs);
    LeftRecordStays(s, m, r, after[e]);
    EntriesStep(s, r, nodes, after, applied, e);
    QuietSettlesNothing(s, m, r, after[e].meta);
    HaveEntriesStep(s, r, nodes, after, applied, e);
    FailuresStep(s, m, r, args);
    LaunchesStay(nodes, applied, after, applied + [e]);
  }

  lemma LeftRecordStays(s: State, m: State, r: State, n: Entry)
    requires Leaves(s, m, n) && StepFacts(s, m, r)
    ensures if n.meta.WorkerRole? then WorkerRecorded(r, n) else PlannerRecorded(r, n)
  {
    hide SettlesOnly;
    hide PlansOnly;
    hide Explained;
    hide WorkerRecorded;
    hide PlannerRecorded;
    hide Unique;
    hide LegsExtend;
    hide ReconcileEffect;
    if n.meta.WorkerRole? { WorkerRecordStays(m, r, n); } else { PlannerRecordStays(m, r, n); }
  }

  // ----- who stands behind a plan and an item ---------------------------------------------------------

  lemma LegHasShape(s: State, args: Args, i: nat)
    requires PursuitShape(s, args) && LegShape(Last(s.legs)) && i < |s.legs|
    ensures LegShape(s.legs[i])
  {
    if i < |s.legs| - 1 { assert LegWon(s.legs[i]); }
  }

  /** A key names one item of the whole pursuit. */
  lemma StateKeys(s: State, args: Args, i: nat, j: nat, k: nat, i2: nat, j2: nat, k2: nat)
    requires PursuitShape(s, args) && LegShape(Last(s.legs))
    requires i < |s.legs| && InLeg(s.legs[i], j, k) && i2 < |s.legs| && InLeg(s.legs[i2], j2, k2)
    requires Item(s.legs[i], j, k).key == Item(s.legs[i2], j2, k2).key
    ensures (i, j, k) == (i2, j2, k2)
  {
    var x, y := s.legs[i], s.legs[i2];
    var a, b := Item(x, j, k), Item(y, j2, k2);
    LegHasShape(s, args, i);
    LegHasShape(s, args, i2);
    assert AttemptFits(x, j) && ItemFits(x, x.attempts[j], a);
    assert AttemptFits(y, j2) && ItemFits(y, y.attempts[j2], b);
    WorkItemKeyInjective(UuidText(x.id), a.legGoalVersion, a.id, UuidText(y.id), b.legGoalVersion, b.id);
    DecInjective(x.id, y.id);
    if i == i2 { KeysUnique(x, j, k, j2, k2); }
  }

  /** The applied entry that settled the item. */
  lemma SettlerOf(s: State, nodes: seq<Entry>, applied: seq<nat>, args: Args, i: nat, j: nat, k: nat) returns (e: nat)
    requires PursuitShape(s, args) && LegShape(Last(s.legs))
    requires EntriesRecorded(s, nodes, applied) && ItemsHaveEntries(s, nodes, applied)
    requires i < |s.legs| && InLeg(s.legs[i], j, k) && Settled(Item(s.legs[i], j, k))
    ensures e in applied && e < |nodes| && RecordedAt(s.legs[i], j, k, nodes[e])
  {
    e :| e in applied && WorkedOn(nodes, e, Item(s.legs[i], j, k).key);
    var i2, j2, k2 :| 0 <= i2 < |s.legs| && InLeg(s.legs[i2], j2, k2) && RecordedAt(s.legs[i2], j2, k2, nodes[e]);
    StateKeys(s, args, i, j, k, i2, j2, k2);
  }

  /** The item that an applied worker's entry settled. */
  lemma SettledBy(s: State, nodes: seq<Entry>, applied: seq<nat>, args: Args, e: nat, i: nat, j: nat, k: nat)
    requires PursuitShape(s, args) && LegShape(Last(s.legs)) && EntriesRecorded(s, nodes, applied)
    requires i < |s.legs| && InLeg(s.legs[i], j, k) && e in applied && WorkedOn(nodes, e, Item(s.legs[i], j, k).key)
    ensures RecordedAt(s.legs[i], j, k, nodes[e])
  {
    var i2, j2, k2 :| 0 <= i2 < |s.legs| && InLeg(s.legs[i2], j2, k2) && RecordedAt(s.legs[i2], j2, k2, nodes[e]);
    StateKeys(s, args, i, j, k, i2, j2, k2);
  }

  /** The applied entry that planned the attempt. */
  lemma PlannerOf(s: State, nodes: seq<Entry>, applied: seq<nat>, i: nat, j: nat) returns (e: nat)
    requires IdsFresh(s.legs, s.minted)
    requires EntriesRecorded(s, nodes, applied) && PlansHaveEntries(s, nodes, applied)
    requires HasAttempt(s.legs, i, j) && AttemptOf(s.legs, i, j).plan.status != NotStarted
    ensures e in applied && e < |nodes| && PlanRecordedAt(s.legs[i], j, nodes[e])
  {
    e :| e in applied && PlannedBy(nodes, e, AttemptOf(s.legs, i, j).plan.id);
    var i2, j2 :| HasAttempt(s.legs, i2, j2) && PlanRecordedAt(s.legs[i2], j2, nodes[e]);
    assert AttemptOf(s.legs, i2, j2).plan.id == AttemptOf(s.legs, i, j).plan.id;
  }

  // ----- dispatching -------------------------------------------------------------------------------------

  lemma DependencyPassed(s: State, nodes: seq<Entry>, applied: seq<nat>, args: Args, after: seq<Entry>, e: nat,
      version: nat, d: string)
    requires PursuitShape(s, args) && LegShape(Last(s.legs))
    requires EntriesRecorded(s, nodes, applied) && ItemsHaveEntries(s, nodes, applied)
    requires nodes <= after && |nodes| <= e < |after| && after[e].meta.legId == Last(s.legs).id
    requires DependencyStatus(Last(s.legs), version, d) == Some(Success)
    ensures PassedBefore(after, applied, e, version, d)
  {
    var n, leg := |s.legs| - 1, Last(s.legs);
    var j, k := LookupFound(leg, version, d);
    var e2 := SettlerOf(s, nodes, applied, args, n, j, k);
    assert AttemptFits(leg, j) && ItemFits(leg, leg.attempts[j], Item(leg, j, k));
    assert PassedOn(after, e2, leg.id, version, d);
  }

  /** A node launched for a ready item comes after the plan and after what it depends on. */
  lemma LaunchIsInOrder(s: State, nodes: seq<Entry>, applied: seq<nat>, args: Args, after: seq<Entry>, e: nat)
    requires Open(s, args) && RecordsOk(s, nodes, applied)
    requires nodes <= after && |nodes| <= e < |after| && after[e].meta.WorkerRole? && OnTarget(s, after[e].meta)
    ensures LaunchInOrder(after, applied, e)
  {
    var n, leg, meta := |s.legs| - 1, Last(s.legs), after[e].meta;
    var j := |leg.attempts| - 1;
    var k: nat :| k < |leg.attempts[j].workItems| &&
      WorksOn(leg, leg.attempts[j].workItems[k], meta.workItemId, meta.workItemKey);
    var item := leg.attempts[j].workItems[k];
    assert AttemptFits(leg, j) && ItemFits(leg, leg.attempts[j], item);
    var e0 := PlannerOf(s, nodes, applied, n, j);
    assert nodes[e0] == after[e0];
    forall d | d in item.dependsOn ensures PassedBefore(after, applied, e, item.legGoalVersion, d) {
      DependencyPassed(s, nodes, applied, args, after, e, item.legGoalVersion, d);
    }
    assert LaunchedBy(after, applied, e, e0, k, item.legGoalVersion);
  }

  // ----- every operation keeps the records -------------------------------------------------------------------

  ghost predicate Recorded(run: Run) {
    RecordsOk(run.state, run.nodes, run.applied)
  }

  /** The records speak of the legs alone. */
  lemma SameLegsRecords(s: State, r: State, nodes: seq<Entry>, applied: seq<nat>)
    requires RecordsOk(s, nodes, applied) && r.legs == s.legs
    ensures RecordsOk(r, nodes, applied)
  {
    hide LaunchesInOrder;
    hide Explained;
    hide RecordedAt;
    hide PlanRecordedAt;
    forall e | e in applied
      ensures if nodes[e].meta.WorkerRole? then WorkerRecorded(r, nodes[e]) else PlannerRecorded(r, nodes[e])
    {
      assert WorkerRecorded(r, nodes[e]) == WorkerRecorded(s, nodes[e]);
      assert PlannerRecorded(r, nodes[e]) == PlannerRecorded(s, nodes[e]);
    }
  }

  lemma MoreEntriesRecords(s: State, nodes: seq<Entry>, after: seq<Entry>, applied: seq<nat>)
    requires RecordsOk(s, nodes, applied) && AppliedKept(nodes, applied, after)
    requires forall e :: |nodes| <= e < |after| && after[e].meta.WorkerRole? ==> LaunchInOrder(after, applied, e)
    ensures RecordsOk(s, after, applied)
  {
    hide Explained;
    hide WorkerRecorded;
    hide PlannerRecorded;
    forall i, j, k | 0 <= i < |s.legs| && InLeg(s.legs[i], j, k) && Settled(Item(s.legs[i], j, k))
      ensures exists x :: x in applied && WorkedOn(after, x, Item(s.legs[i], j, k).key)
    {
      var x :| x in applied && WorkedOn(nodes, x, Item(s.legs[i], j, k).key);
      assert WorkedOn(after, x, Item(s.legs[i], j, k).key);
    }
    forall i, j | HasAttempt(s.legs, i, j) && AttemptOf(s.legs, i, j).plan.status != NotStarted
      ensures exists x :: x in applied && PlannedBy(after, x, AttemptOf(s.legs, i, j).plan.id)
    {
      var x :| x in applied && PlannedBy(nodes, x, AttemptOf(s.legs, i, j).plan.id);
      assert PlannedBy(after, x, AttemptOf(s.legs, i, j).plan.id);
    }
    forall e | 0 <= e < |after| && after[e].meta.WorkerRole? ensures LaunchInOrder(after, applied, e) {
      if e < |nodes| { LaunchStays(nodes, applied, after, applied, e); }
    }
  }

  lemma ClaimsKeepRecords(s: State, nodes: seq<Entry>, applied: seq<nat>, ds: seq<Metadata>, args: Args)
    requires Open(s, args) && RecordsOk(s, nodes, applied)
    requires forall d :: d in ds ==> OnTarget(s, d)
    ensures RecordsOk(s, nodes + Claims(ds), applied)
  {
    var after := nodes + Claims(ds);
    assert AppliedKept(nodes, applied, after) by { assert EntriesRecorded(s, nodes, applied); }
    hide RecordsOk;
    hide Open;
    hide OnTarget;
    hide LaunchInOrder;
    forall e | |nodes| <= e < |after| && after[e].meta.WorkerRole? ensures LaunchInOrder(after, applied, e) {
      assert ds[e - |nodes|] in ds;
      LaunchIsInOrder(s, nodes, applied, args, after, e);
    }
    MoreEntriesRecords(s, nodes, after, applied);
  }

  lemma DispatchKeepsRecords(run: Run, args: Args)
    requires Open(run.state, args) && Recorded(run)
    ensures Recorded(DispatchAll(run, true))
  {
    var ds := Dispatches(run.state, RunningOf(run.nodes), true);
    hide RecordsOk;
    forall d | d in ds ensures OnTarget(run.state, d) { DispatchIsOnTarget(run.state, RunningOf(run.nodes), d, args); }
    hide Dispatches;
    ClaimsKeepRecords(run.state, run.nodes, run.applied, ds, args);
    SameLegsRecords(run.state, DeadlockIfIdle(run).state, run.nodes, run.applied);
  }

  lemma EvaluatedOpen(a: Run, b: Run, e: nat, st: Settlement, args: Args)
    requires RunLive(a, args) && Ended(a, b, e, st)
    ensures var r := Evaluate(b, e, st); r.finished.None? && (!r.state.done ==> Open(r.state, args))
  {
    hide Evaluate;
    hide Reconcile;
    hide ApplySettlement;
    hide ValidationError;
    hide TargetsHeld;
    hide RunLive;
    hide Open;
    hide LegsExtend;
    hide Descends;
    hide PursuitShape;
    var r := Evaluate(b, e, st);
    EvaluateShape(b, e, st);
    EvaluateKeeps(a, b, r, ApplySettlement(a.state, a.nodes[e].meta, st).state, e, st, args);
  }

  lemma SettleKeepsRecords(a: Run, b: Run, e: nat, st: Settlement, args: Args)
    requires RunInv(a, args) && RunLive(a, args) && Ended(a, b, e, st) && Recorded(a)
    ensures Recorded(ApplyValidated(b, e, st, true))
  {
    var r := Evaluate(b, e, st);
    EvaluatedOpen(a, b, e, st, args);
    EvaluateRecords(a, b, e, st, args);
    hide RecordsOk;
    hide Evaluate;
    hide RunInv;
    hide RunLive;
    hide Ended;
    hide Open;
    if !r.state.done { DispatchKeepsRecords(r, args); }
  }

  lemma SubmitKeepsRecords(a: Run, e: nat, payload: Payload, args: Args)
    requires RunInv(a, args) && Recorded(a) && e < |a.nodes|
    ensures Recorded(SubmitCompletion(a, e, payload, true))
  {
    hide RecordsOk;
    hide ValidationError;
    hide ApplyValidated;
    if SubmitRefusal(a, e, payload).None? {
      var b := Emit(a, OutcomeReceived).(nodes :=
        a.nodes[e := a.nodes[e].(status := EntryCompleted, accepted := Some(payload))]);
      assert a.nodes[e].accepted == None;
      SettleKeepsRecords(a, b, e, Completed(payload), args);
    }
  }

  lemma ReportKeepsRecords(a: Run, e: nat, st: Settlement, args: Args)
    requires RunInv(a, args) && Recorded(a) && e < |a.nodes|
    ensures Recorded(ReportSettlement(a, e, st, true))
  {
    hide RecordsOk;
    hide ApplyValidated;
    if !st.Completed? && a.nodes[e].status == EntryRunning && ValidationError(a.state, a.nodes[e].meta, st).None? {
      var b := a.(nodes := a.nodes[e := a.nodes[e].(status := StatusOf(st))]);
      assert a.nodes[e].accepted == None;
      SettleKeepsRecords(a, b, e, st, args);
    }
  }

  lemma InterruptKeepsRecords(a: Run, reason: string, args: Args)
    requires RunInv(a, args) && Recorded(a)
    ensures Recorded(InterruptRun(a, reason))
  {
    hide RunLive;
    hide RunOver;
    if a.finished.None? {
      var after := CancelRunning(a.nodes);
      assert AppliedKept(a.nodes, a.applied, after) by { assert EntriesRecorded(a.state, a.nodes, a.applied); }
      hide RecordsOk;
      MoreEntriesRecords(a.state, a.nodes, after, a.applied);
      SameLegsRecords(a.state, InterruptRun(a, reason).state, after, a.applied);
    }
  }

  lemma StepKeepsRecords(run: Run, op: Op, args: Args)
    requires RunInv(run, args) && Recorded(run)
    ensures Recorded(Step(run, op, true))
  {
    hide RunInv;
    hide Recorded;
    hide SubmitCompletion;
    hide ReportSettlement;
    hide InterruptRun;
    match op {
      case Submit(e, payload) => if e < |run.nodes| { SubmitKeepsRecords(run, e, payload, args); }
      case Report(e, st) => if e < |run.nodes| { ReportKeepsRecords(run, e, st, args); }
      case Interrupt(reason) => InterruptKeepsRecords(run, reason, args);
    }
  }

  lemma StartIsRecorded(args: Args)
    requires ValidArgs(args)
    ensures Recorded(StartRun(args, true))
  {
    InitialStateIsOpen(args);
    var run := Run(CreateInitialState(args), [], None, [WorkflowStarted, SnapshotRecorded], []);
    assert Recorded(run);
    DispatchKeepsRecords(run, args);
  }

  /** In every run the state of the pursuit is what its entries submitted and reported. */
  lemma {:induction false} ExecKeepsRecords(args: Args, ops: seq<Op>)
    requires ValidArgs(args)
    ensures Recorded(Exec(args, true, ops))
  {
    hide Recorded;
    hide RunInv;
    hide Step;
    ExecUnfolds(args, true, ops);
    if ops == [] {
      StartIsRecorded(args);
    } else {
      ExecKeepsRecords(args, ops[..|ops| - 1]);
      ExecKeepsInv(args, ops[..|ops| - 1]);
      StepKeepsRecords(Exec(args, true, ops[..|ops| - 1]), ops[|ops| - 1], args);
    }
  }
}
