/** The scheduler as it runs. */
module PursuitDraft {
  import opened Text
  import opened DependencyGraph
  import opened PursuitState
  import opened PursuitProgress

  // A cloned state whose fields are updated in place, each method proved against the function
  // that specifies it.

  class Draft {
    var version: nat
    var done: bool
    var workflowStatus: WorkflowStatus
    var pursuit: Pursuit
    var legs: seq<Leg>
    var failures: seq<string>
    var minted: nat

    function View(): State
      reads this
    {
      State(version, done, workflowStatus, pursuit, legs, failures, minted)
    }

    constructor Clone(s: State)
      ensures View() == s
    {
      version, done, workflowStatus, pursuit := s.version, s.done, s.workflowStatus, s.pursuit;
      legs, failures, minted := s.legs, s.failures, s.minted;
    }

    method BlockIfNeeded(i: nat, j: nat, k: nat, running: RunningNodes) returns (blocked: bool)
      requires i < |legs| && InLeg(legs[i], j, k)
      modifies this`legs
      ensures legs == old(legs)[i := BlockItem(old(legs)[i], j, k, running)]
      ensures blocked <==> legs[i] != old(legs)[i]
    {
      var leg := legs[i];
      var item := Item(leg, j, k);
      if item.status != NotStarted || item.key in running.workItems { return false; }
      var blockedBy := Blockers(leg, item.legGoalVersion, item.dependsOn);
      if |blockedBy| == 0 { return false; }
      var summary := BlockedSummary(blockedBy);
      legs := legs[i := SetItem(leg, j, k,
        item.(status := Blocked, summary := Some(summary), outcome := Some(summary)))];
      assert Item(legs[i], j, k) != item;
      return true;
    }

    /** The inner loop of a pass: the items of attempt `j`. */
    method SweepAttempt(i: nat, j: nat, running: RunningNodes) returns (any: bool)
      requires i < |legs| && j < |legs[i].attempts|
      modifies this`legs
      ensures legs == old(legs)[i := SweepItems(old(legs)[i], j, 0, running)]
      ensures any <==> legs[i] != old(legs)[i]
    {
      hide BlockItem;
      hide SweepItems;
      hide Waiting;
      ghost var before := legs[i];
      any := false;
      var k := 0;
      while k < |legs[i].attempts[j].workItems|
        invariant |legs| == |old(legs)| && legs == old(legs)[i := legs[i]]
        invariant Shrinks(before, legs[i]) && (any <==> legs[i] != before)
        invariant SweepItems(legs[i], j, k, running) == SweepItems(before, j, 0, running)
        decreases |before.attempts[j].workItems| - k
      {
        ghost var mid := legs[i];
        SweepItemsStep(mid, j, k, running);
        var blocked := BlockIfNeeded(i, j, k, running);
        if blocked { any := true; }
        ShrinksOn(before, mid, legs[i]);
        k := k + 1;
      }
      SweepItemsEnd(legs[i], j, k, running);
    }

    /** One pass over all items of leg `i`. */
    method SweepOnce(i: nat, running: RunningNodes) returns (any: bool)
      requires i < |legs|
      modifies this`legs
      ensures legs == old(legs)[i := SweepAttempts(old(legs)[i], 0, running)]
      ensures any <==> legs[i] != old(legs)[i]
    {
      hide SweepItems;
      hide SweepAttempts;
      hide Waiting;
      ghost var before := legs[i];
      any := false;
      var j := 0;
      while j < |legs[i].attempts|
        invariant |legs| == |old(legs)| && legs == old(legs)[i := legs[i]]
        invariant Shrinks(before, legs[i]) && (any <==> legs[i] != before)
        invariant SweepAttempts(legs[i], j, running) == SweepAttempts(before, 0, running)
        decreases |before.attempts| - j
      {
        ghost var mid := legs[i];
        SweepAttemptsStep(mid, j, running);
        var blocked := SweepAttempt(i, j, running);
        if blocked { any := true; }
        ShrinksOn(before, mid, legs[i]);
        j := j + 1;
      }
      SweepAttemptsEnd(legs[i], j, running);
    }

    method PropagateDependencyBlocks(i: nat, running: RunningNodes) returns (changed: bool)
      requires i < |legs|
      modifies this`legs
      ensures legs == old(legs)[i := SpreadBlocks(old(legs)[i], running)]
      ensures changed <==> legs[i] != old(legs)[i]
    {
      hide SweepAttempts;
      hide SpreadBlocks;
      ghost var start := legs[i];
      ghost var goal := SpreadBlocks(start, running);
      changed := false;
      var keepGoing := true;
      while keepGoing
        invariant |legs| == |old(legs)| && legs == old(legs)[i := legs[i]]
        invariant goal == if keepGoing then SpreadBlocks(legs[i], running) else legs[i]
        invariant Shrinks(start, legs[i]) && (changed <==> legs[i] != start)
        decreases Waiting(legs[i]), keepGoing
      {
        ghost var before := legs[i];
        keepGoing := SweepOnce(i, running);
        if keepGoing { changed := true; }
        SpreadStep(before, running);
        ShrinksOn(start, before, legs[i]);
      }
    }

    method ClosePursuit(status: RunStatus)
      modifies this`pursuit, this`done, this`workflowStatus
      ensures View() == PursuitProgress.ClosePursuit(old(View()), status)
    {
      pursuit := pursuit.(status := status);
      done := true;
      workflowStatus := if status == Success then Succeeded else Failure;
    }

    /** The status leg `i`'s last attempt closes with, and why it failed. */
    method JudgeAttempt(i: nat, running: RunningNodes)
      returns (next: Option<RunStatus>, failureReasons: seq<FailureReason>)
      requires i < |legs| && |legs[i].attempts| > 0
      ensures var leg := legs[i];
        var j := |leg.attempts| - 1;
        next == AttemptVerdict(leg.attempts[j], running) &&
        (next.Some? ==>
           CloseAttempt(leg, next.value) ==
           leg.(attempts := leg.attempts[j :=
             leg.attempts[j].(status := next.value, failureReasons := failureReasons)]))
    {
      var leg := legs[i];
      var attempt := leg.attempts[|leg.attempts| - 1];
      var items := attempt.workItems;
      failureReasons := [];
      next := None;
      if attempt.plan.status == Failed {
        next := Some(Failed);
        failureReasons := attempt.failureReasons;
      } else if attempt.plan.status == Success && |items| > 0 &&
                (forall k :: 0 <= k < |items| ==> EffectiveStatus(items[k], running) == Success) {
        next := Some(Success);
      } else if attempt.plan.status == Success &&
                (exists k :: 0 <= k < |items| && (items[k].status == Failed || items[k].status == Blocked)) &&
                (forall k :: 0 <= k < |items| ==> IsItemTerminal(EffectiveStatus(items[k], running))) {
        next := Some(Failed);
        failureReasons := ItemFailureReasons(leg, items);
      }
    }

    method RetryOrGiveUp(i: nat)
      requires i < |legs| && |legs[i].attempts| > 0
      modifies this
      ensures View() == AfterFailedAttempt(old(View()), i)
    {
      var leg := legs[i];
      failures := failures + [FailureText(leg.attempts[|leg.attempts| - 1].failureReasons)];
      if |leg.attempts| < leg.maxAttempts {
        leg := leg.(attempts := leg.attempts +
          [CreateAttempt(|leg.attempts| + 1, leg.legGoalVersion, minted, minted + 1)]);
        legs, minted := legs[i := leg], minted + 2;
        return;
      }
      legs := legs[i := leg.(status := Failed)];
      ClosePursuit(Failed);
    }

    method OpenNextOrClose(i: nat)
      requires i < |legs|
      modifies this
      ensures View() == AfterSucceededAttempt(old(View()), i)
    {
      var leg := legs[i].(status := Success);
      legs := legs[i := leg];
      var nextLeg := NextLegInit(pursuit, leg);
      if nextLeg.Some? {
        legs, minted := legs + [CreateLeg(nextLeg.value, minted)], minted + 3;
        return;
      }
      ClosePursuit(Success);
    }

    method ReconcileLeg(i: nat, running: RunningNodes) returns (changed: bool)
      requires i < |legs|
      modifies this
      ensures Applied(View(), changed) == PursuitProgress.ReconcileLeg(old(View()), i, running)
    {
      var leg := legs[i];
      if |leg.attempts| == 0 { return false; }
      var j := |leg.attempts| - 1;
      if IsEntityTerminal(leg.attempts[j].status) { return false; }
      var next, failureReasons := JudgeAttempt(i, running);
      if next.None? { return false; }
      legs := legs[i := leg.(attempts :=
        leg.attempts[j := leg.attempts[j].(status := next.value, failureReasons := failureReasons)])];
      assert View() == SetLeg(old(View()), i, CloseAttempt(old(legs)[i], next.value));
      if next.value == Failed { RetryOrGiveUp(i); } else { OpenNextOrClose(i); }
      return true;
    }

    method ReconcileOneLeg(i: nat, running: RunningNodes) returns (changed: bool)
      requires i < |legs|
      modifies this
      ensures Applied(View(), changed) == ReconcileOne(old(View()), i, running)
    {
      if legs[i].status != Running { return false; }
      changed := PropagateDependencyBlocks(i, running);
      var closed := ReconcileLeg(i, running);
      changed := closed || changed;
    }

    /** The loop over the legs; a leg opened on the way is visited too. */
    method ReconcileLegs(running: RunningNodes) returns (changed: bool)
      modifies this
      ensures Applied(View(), changed) == ReconcileFrom(old(View()), 0, running)
    {
      changed := false;
      var i := 0;
      ghost var goal := ReconcileFrom(View(), 0, running);
      while i < |legs|
        invariant i <= |legs|
        invariant goal.state == ReconcileFrom(View(), i, running).state
        invariant goal.changed == (changed || ReconcileFrom(View(), i, running).changed)
        decreases Closable(legs, i), |legs| - i
      {
        ghost var before := View();
        ReconcileOneShape(before, i, running);
        var legChanged := ReconcileOneLeg(i, running);
        changed := changed || legChanged;
        ClosableShrinks(before.legs, legs, i);
        i := i + 1;
      }
    }
  }

  lemma SweepItemsStep(leg: Leg, j: nat, k: nat, running: RunningNodes)
    requires j < |leg.attempts| && k < |leg.attempts[j].workItems|
    ensures SweepItems(leg, j, k, running) == SweepItems(BlockItem(leg, j, k, running), j, k + 1, running)
  {
  }

  lemma SweepItemsEnd(leg: Leg, j: nat, k: nat, running: RunningNodes)
    requires j < |leg.attempts| && k >= |leg.attempts[j].workItems|
    ensures SweepItems(leg, j, k, running) == leg
  {
  }

  lemma SweepAttemptsStep(leg: Leg, j: nat, running: RunningNodes)
    requires j < |leg.attempts|
    ensures SweepAttempts(leg, j, running) == SweepAttempts(SweepItems(leg, j, 0, running), j + 1, running)
  {
  }

  lemma SweepAttemptsEnd(leg: Leg, j: nat, running: RunningNodes)
    requires j >= |leg.attempts|
    ensures SweepAttempts(leg, j, running) == leg
  {
  }

  lemma SpreadStep(leg: Leg, running: RunningNodes)
    ensures var next := SweepAttempts(leg, 0, running);
      Shrinks(leg, next) && SpreadBlocks(leg, running) == if next == leg then leg else SpreadBlocks(next, running)
  {
  }

  lemma ShrinksOn(a: Leg, b: Leg, c: Leg)
    requires Shrinks(a, b) && Shrinks(b, c)
    ensures Shrinks(a, c) && (c == a ==> b == a)
  {
  }

  method ReconcilePursuitProgress(s: State, running: RunningNodes) returns (r: Applied)
    ensures r == Reconcile(s, running)
  {
    if s.done { return Applied(s, false); }
    var next := new Draft.Clone(s);
    var changed := next.ReconcileLegs(running);
    if !changed { return Applied(s, false); }
    next.version := next.version + 1;
    return Applied(next.View(), true);
  }

  method ApplyWorkerSettlement(s: State, meta: Metadata, st: Settlement) returns (r: Applied)
    requires meta.WorkerRole? && (st.Completed? ==> FitsSchema(meta, st.payload))
    ensures r == ApplyWorker(s, meta, st)
  {
    var next := new Draft.Clone(s);
    var at := FindAttempt(s, meta);
    if at.None? { return Applied(s, false); }
    var i, j := at.value.leg, at.value.attempt;
    var k := ItemIndex(next.legs[i].attempts[j].workItems, meta.workItemId, meta.workItemKey);
    if k == |next.legs[i].attempts[j].workItems| { return Applied(s, false); }
    var item := Item(next.legs[i], j, k);
    if !st.Completed? {
      var reason := SettlementFailure(st, "worker");
      item := item.(status := Failed, summary := Some(reason), outcome := Some(reason));
      next.failures := next.failures + [reason];
    } else {
      var work := st.payload.work;
      item := item.(status := if work.isPass then Success else Failed, summary := Some(work.summary),
        outcome := Some(work.outcome));
    }
    next.legs := next.legs[i := SetItem(next.legs[i], j, k, item)];
    next.version := next.version + 1;
    return Applied(next.View(), true);
  }

  method ApplyPlannerSettlement(s: State, meta: Metadata, st: Settlement) returns (r: Applied)
    requires meta.PlannerRole? && (st.Completed? ==> FitsSchema(meta, st.payload))
    ensures r == ApplyPlanner(s, meta, st)
  {
    var next := new Draft.Clone(s);
    var at := FindAttempt(s, meta);
    if at.None? { return Applied(s, false); }
    var i, j := at.value.leg, at.value.attempt;
    var leg := next.legs[i];
    if !st.Completed? {
      var reason := SettlementFailure(st, "planner");
      var attempt := leg.attempts[j];
      attempt := attempt.(plan := attempt.plan.(status := Failed), failureReasons := [PlannerFailureReason(reason)]);
      next.legs := next.legs[i := leg.(attempts := leg.attempts[j := attempt])];
      next.failures := next.failures + [reason];
      next.version := next.version + 1;
      return Applied(next.View(), true);
    }
    var payload := st.payload.plan;
    if payload.legGoal.Some? {
      var version := leg.legGoalVersion + 1;
      leg := leg.(legGoalVersion := version, legGoal := payload.legGoal.value, nextLegGoal := payload.nextLegGoal);
      var owner := leg.attempts[j].id;
      var attempts := leg.attempts;
      for t := 0 to |attempts|
        invariant |attempts| == |leg.attempts|
        invariant forall u :: 0 <= u < |attempts| ==>
          attempts[u] == if u < t then leg.attempts[u].(isConsistentWithLegGoal := leg.attempts[u].id == owner)
            else leg.attempts[u]
      {
        attempts := attempts[t := attempts[t].(isConsistentWithLegGoal := attempts[t].id == owner)];
      }
      assert attempts == MarkConsistent(leg.attempts, owner);
      leg := leg.(attempts := attempts[j := attempts[j].(legGoalVersion := version)]);
    } else if payload.nextLegGoal.Some? {
      leg := leg.(nextLegGoal := payload.nextLegGoal);
    }
    assert leg == Refocus(s.legs[i], j, payload);
    var attempt := leg.attempts[j];
    attempt := attempt.(
      plan := attempt.plan.(status := Success, legGoalVersion := leg.legGoalVersion, summary := Some(payload.summary)),
      workItems := attempt.workItems + NewItems(leg, payload.workItems));
    next.legs := next.legs[i := leg.(attempts := leg.attempts[j := attempt])];
    next.version := next.version + 1;
    return Applied(next.View(), true);
  }

  /** Nodes to launch, leg by leg and item by item. */
  method Dispatch(s: State, running: RunningNodes, bound: bool) returns (dispatches: seq<Metadata>)
    ensures dispatches == Dispatches(s, running, bound)
  {
    dispatches := [];
    if s.done { return; }
    for i := 0 to |s.legs|
      invariant dispatches == AllDispatches(s.legs[..i], running, bound)
    {
      var leg := s.legs[i];
      assert s.legs[..i + 1][..i] == s.legs[..i];
      if leg.status != Running || |leg.attempts| == 0 { continue; }
      var attempt := leg.attempts[|leg.attempts| - 1];
      if attempt.status != Running { continue; }
      if attempt.plan.status == NotStarted {
        if attempt.plan.id in running.plans { continue; }
        if bound { dispatches := dispatches + [PlannerMeta(leg, attempt)]; }
        continue;
      }
      if attempt.plan.status != Success || !bound { continue; }
      ghost var before := dispatches;
      var items := attempt.workItems;
      for k := 0 to |items|
        invariant dispatches == before + WorkerDispatches(leg, attempt, items[..k], running)
      {
        var item := items[k];
        assert items[..k + 1][..k] == items[..k];
        if item.status != NotStarted { continue; }
        if item.key in running.workItems { continue; }
        if !DependenciesSucceeded(leg, item) { continue; }
        dispatches := dispatches + [WorkerMeta(leg, attempt, item)];
      }
      assert items[..|items|] == items;
    }
    assert s.legs[..|s.legs|] == s.legs;
  }

  method CheckDuplicates(items: seq<ItemSpec>) returns (error: Option<SubmissionError>, currentIds: set<string>)
    ensures error == FirstDuplicate(items, |items|)
    ensures error.None? ==> currentIds == SpecIds(items)
  {
    currentIds := {};
    for i := 0 to |items|
      invariant currentIds == SpecIds(items[..i])
      invariant FirstDuplicate(items, i).None?
    {
      assert items[..i + 1] == items[..i] + [items[i]];
      assert SpecIds(items[..i + 1]) == SpecIds(items[..i]) + {items[i].id};
      if items[i].id in currentIds {
        DuplicateStays(items, i + 1, |items|);
        return Some(DuplicateId(items[i].id)), currentIds;
      }
      currentIds := currentIds + {items[i].id};
    }
    assert items[..|items|] == items;
    error := None;
  }

  method CheckClashes(leg: Leg, items: seq<ItemSpec>) returns (error: Option<SubmissionError>)
    ensures error == FirstClash(leg, items)
  {
    for i := 0 to |items|
      invariant FirstClash(leg, items) == FirstClash(leg, items[i..])
    {
      assert items[i..][1..] == items[i + 1..];
      if InCurrentVersion(leg, items[i].id) { return Some(DuplicateIdInVersion(items[i].id)); }
    }
    return None;
  }

  method CheckDependencies(leg: Leg, sequence: nat, refocus: bool, ids: set<string>, items: seq<ItemSpec>)
    returns (error: Option<SubmissionError>)
    ensures error == FirstBadItem(leg, sequence, refocus, ids, items)
  {
    for i := 0 to |items|
      invariant FirstBadItem(leg, sequence, refocus, ids, items) ==
          FirstBadItem(leg, sequence, refocus, ids, items[i..])
    {
      assert items[i..][1..] == items[i + 1..];
      var id, deps := items[i].id, items[i].dependsOn;
      for t := 0 to |deps|
        invariant FirstBadDependency(leg, sequence, refocus, ids, id, deps) ==
                  FirstBadDependency(leg, sequence, refocus, ids, id, deps[t..])
      {
        assert deps[t..][1..] == deps[t + 1..];
        var e := DependencyError(leg, sequence, refocus, ids, id, deps[t]);
        if e.Some? { return e; }
      }
    }
    return None;
  }

  /** The plan checks in the order they are made, stopping at the first failure. */
  method CheckPlan(mode: LegGoalMode, leg: Leg, sequence: nat, p: PlannerPayload)
    returns (error: Option<SubmissionError>)
    ensures error == PlannerSubmissionError(mode, leg, sequence, p)
    ensures error.None? <==> PlanFits(mode, leg, sequence, p)
  {
    PlanAcceptedExactlyWhenFit(mode, leg, sequence, p);
    if mode == Predefined && (p.legGoal.Some? || p.nextLegGoal.Some?) { return Some(PredefinedGoalsLocked); }
    var currentIds;
    error, currentIds := CheckDuplicates(p.workItems);
    if error.Some? { return; }
    if p.legGoal.None? {
      error := CheckClashes(leg, p.workItems);
      if error.Some? { return; }
    }
    error := CheckDependencies(leg, sequence, p.legGoal.Some?, currentIds, p.workItems);
    if error.Some? { return; }
    var cycle := CurrentGraphCycle(PayloadNodes(p.workItems));
    SearchIsExact(PayloadNodes(p.workItems));
    return if cycle then Some(DependencyCycle) else None;
  }

  lemma {:induction false} DuplicateStays(items: seq<ItemSpec>, i: nat, n: nat)
    requires i <= n <= |items| && FirstDuplicate(items, i).Some?
    ensures FirstDuplicate(items, n) == FirstDuplicate(items, i)
    decreases n
  {
    if i < n { DuplicateStays(items, i, n - 1); }
  }
}
