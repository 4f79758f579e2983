/** Accepted settlements keep the invariant. */
module PursuitApply {
  import opened Text
  import opened DependencyGraph
  import opened PursuitState
  import opened PursuitProgress
  import opened PursuitInvariant
  import opened PursuitSteps
  import opened PursuitClosing
  import opened PursuitReconcile

  // A settlement lands on the current attempt and keeps everything that was settled before.

  /** The attempt the pursuit is working on. */
  ghost predicate IsCurrent(s: State, at: Place) {
    |s.legs| >= 1 && at.leg == |s.legs| - 1 && at.attempt == |s.legs[at.leg].attempts| - 1
  }

  lemma OpenPlanIsCurrent(s: State, args: Args, at: Place)
    requires PursuitShape(s, args) && LegActive(Last(s.legs))
    requires HasAttempt(s.legs, at.leg, at.attempt)
    requires AttemptOf(s.legs, at.leg, at.attempt).plan.status == NotStarted
    ensures IsCurrent(s, at)
  {
    var leg := s.legs[at.leg];
    assert at.leg < |s.legs| - 1 ==> LegWon(leg);
    assert at.attempt < |leg.attempts| - 1 ==> Spent(leg.attempts[at.attempt]);
  }

  lemma WaitingItemIsCurrent(s: State, args: Args, at: Place, k: int)
    requires PursuitShape(s, args) && LegActive(Last(s.legs))
    requires at.leg < |s.legs| && InLeg(s.legs[at.leg], at.attempt, k)
    requires Item(s.legs[at.leg], at.attempt, k).status == NotStarted
    ensures IsCurrent(s, at)
  {
    var leg := s.legs[at.leg];
    assert at.leg < |s.legs| - 1 ==> LegWon(leg);
    WaitingIsInLastAttempt(leg, at.attempt, k);
  }

  /** What applying one settlement does to a pursuit at work. */
  ghost predicate ApplyResult(s: State, m: State, args: Args) {
    && Unreconciled(m, args)
    && |m.legs| == |s.legs|
    && |Last(m.legs).attempts| == |Last(s.legs).attempts|
    && LegsExtend(s.legs, m.legs)
    && LegDescends(Last(s.legs), Last(m.legs))
  }

  lemma SetLastLegResult(s: State, m: State, leg: Leg, args: Args)
    requires Open(s, args) && LegActive(leg)
    requires m.legs == s.legs[|s.legs| - 1 := leg] && m.minted == s.minted && m.pursuit == s.pursuit
    requires InProgress(m)
    requires Succeeds(Last(s.legs), leg, s.minted, s.minted, ModeOf(args))
    requires LegDescends(Last(s.legs), leg)
    ensures ApplyResult(s, m, args)
  {
    ReplaceLastKeepsShape(s.legs, leg, s.minted, s.minted, args);
    assert Last(m.legs) == leg;
  }

  // ----- planner ------------------------------------------------------------------

  lemma PlannerTarget(s: State, meta: Metadata, st: Settlement, args: Args) returns (at: Place)
    requires Open(s, args) && meta.PlannerRole? && (st.Completed? ==> FitsSchema(meta, st.payload))
    requires ValidationError(s, meta, st) == None
    ensures FindAttempt(s, meta) == Some(at) && IsCurrent(s, at)
    ensures Last(Last(s.legs).attempts).plan.status == NotStarted
    ensures st.Completed? ==> PlanFits(ModeOf(args), Last(s.legs), Last(Last(s.legs).attempts).sequence,
        st.payload.plan)
  {
    at := FindAttempt(s, meta).value;
    var leg := s.legs[at.leg];
    assert at.leg < |s.legs| - 1 ==> LegWon(leg);
    assert AttemptFits(leg, at.attempt);
    assert AttemptOf(s.legs, at.leg, at.attempt).plan.status == NotStarted;
    OpenPlanIsCurrent(s, args, at);
    if st.Completed? {
      PlanAcceptedExactlyWhenFit(s.pursuit.mode, leg, leg.attempts[at.attempt].sequence, st.payload.plan);
    }
  }

  lemma FailPlanKeepsFit(leg: Leg, r: Leg, plan: Plan, reasons: seq<FailureReason>, j: nat)
    requires |leg.attempts| > 0 && Last(leg.attempts).plan.status == NotStarted && plan.status == Failed
    requires r == leg.(attempts := leg.attempts[|leg.attempts| - 1 :=
        Last(leg.attempts).(plan := plan, failureReasons := reasons)])
    requires j < |leg.attempts| && AttemptFits(leg, j)
    ensures AttemptFits(r, j)
  {
    forall k | 0 <= k < |r.attempts[j].workItems| ensures ItemFits(r, r.attempts[j], r.attempts[j].workItems[k]) {
      assert ItemFits(leg, leg.attempts[j], leg.attempts[j].workItems[k]);
    }
  }

  lemma FailPlanKeepsLeg(leg: Leg, reasons: seq<FailureReason>)
    requires LegActive(leg) && Last(leg.attempts).plan.status == NotStarted
    ensures var a := Last(leg.attempts);
      var r := leg.(attempts := leg.attempts[|leg.attempts| - 1 :=
        a.(plan := a.plan.(status := Failed), failureReasons := reasons)]);
      LegActive(r) && LegExtends(leg, r) && LegDescends(leg, r)
  {
    var n := |leg.attempts| - 1;
    var a := leg.attempts[n];
    var plan := a.plan.(status := Failed);
    var r := leg.(attempts := leg.attempts[n := a.(plan := plan, failureReasons := reasons)]);
    assert LegExtends(leg, r) && LegDescends(leg, r) by {
      hide LegActive;
      hide Waiting;
    }
    hide LegExtends;
    hide LegDescends;
    hide Sound;
    hide Unique;
    hide DependenciesResolve;
    SameItemsKeepsSound(leg, r);
    SameItemsKeepsLinks(leg, r);
    forall j | 0 <= j < |r.attempts| ensures AttemptFits(r, j) { FailPlanKeepsFit(leg, r, plan, reasons, j); }
    hide AttemptFits;
  }

  lemma DistinctAttemptsInLeg(s: State, i: nat)
    requires IdsFresh(s.legs, s.minted) && i < |s.legs|
    ensures DistinctAttempts(s.legs[i])
  {
    var leg := s.legs[i];
    forall j, j2 | 0 <= j < j2 < |leg.attempts| ensures leg.attempts[j].id != leg.attempts[j2].id {
      assert HasAttempt(s.legs, i, j) && HasAttempt(s.legs, i, j2);
      assert AttemptOf(s.legs, i, j).id != AttemptOf(s.legs, i, j2).id;
    }
  }

  lemma AdoptedLeg(mode: LegGoalMode, leg: Leg, r: Leg, p: PlannerPayload)
    requires LegActive(leg) && MayAdopt(mode, leg, p) && Adopts(leg, r, p)
    ensures LegActive(r) && LegExtends(leg, r) && LegDescends(leg, r)
  {
    AdoptKeepsShape(mode, leg, r, p);
    AdoptKeepsSound(mode, leg, r, p);
    assert Last(leg.attempts).workItems == [] by { assert AttemptFits(leg, |leg.attempts| - 1); }
    forall j | 0 <= j < |leg.attempts| ensures AttemptExtends(leg.attempts[j], r.attempts[j]) {
    }
  }

  lemma ApplyPlannerResult(s: State, meta: Metadata, st: Settlement, args: Args)
    requires Open(s, args) && meta.PlannerRole? && (st.Completed? ==> FitsSchema(meta, st.payload))
    requires ValidationError(s, meta, st) == None
    ensures ApplyResult(s, ApplySettlement(s, meta, st).state, args)
    ensures ApplySettlement(s, meta, st).changed
  {
    hide AdoptPlan;
    hide PlannerSubmissionError;
    hide SettlementFailure;
    hide ValidationError;
    hide LegExtends;
    hide LegDescends;
    hide PlanFits;
    var at := PlannerTarget(s, meta, st, args);
    var n := |s.legs| - 1;
    var leg := s.legs[n];
    var m := ApplySettlement(s, meta, st).state;
    if st.Completed? {
      var r := AdoptPlan(leg, |leg.attempts| - 1, st.payload.plan);
      DistinctAttemptsInLeg(s, n);
      AdoptPlanAdopts(ModeOf(args), leg, st.payload.plan);
      AdoptedLeg(ModeOf(args), leg, r, st.payload.plan);
      SetLastLegResult(s, m, r, args);
    } else {
      var reasons := [PlannerFailureReason(SettlementFailure(st, "planner"))];
      FailPlanKeepsLeg(leg, reasons);
      SetLastLegResult(s, m, m.legs[n], args);
    }
  }

  // ----- worker --------------------------------------------------------------------

  lemma WorkerTarget(s: State, meta: Metadata, st: Settlement, args: Args) returns (at: Place, k: nat)
    requires Open(s, args) && meta.WorkerRole? && (st.Completed? ==> FitsSchema(meta, st.payload))
    requires ValidationError(s, meta, st) == None
    ensures FindAttempt(s, meta) == Some(at) && IsCurrent(s, at)
    ensures k == ItemIndex(s.legs[at.leg].attempts[at.attempt].workItems, meta.workItemId, meta.workItemKey)
    ensures InLeg(s.legs[at.leg], at.attempt, k)
    ensures Item(s.legs[at.leg], at.attempt, k).status == NotStarted
    ensures Item(s.legs[at.leg], at.attempt, k).key == meta.workItemKey
  {
    at := FindAttempt(s, meta).value;
    var leg := s.legs[at.leg];
    k := ItemIndex(leg.attempts[at.attempt].workItems, meta.workItemId, meta.workItemKey);
    assert at.leg < |s.legs| - 1 ==> LegWon(leg);
    assert AttemptFits(leg, at.attempt);
    assert ItemFits(leg, leg.attempts[at.attempt], leg.attempts[at.attempt].workItems[k]);
    WaitingItemIsCurrent(s, args, at, k);
  }

  lemma SettledLeg(leg: Leg, k: nat, item: WorkItem)
    requires LegActive(leg)
    requires Settles(leg, |leg.attempts| - 1, k, item) && item.status in {Success, Failed}
    requires DependenciesSucceeded(leg, Item(leg, |leg.attempts| - 1, k))
    ensures var r := SetItem(leg, |leg.attempts| - 1, k, item);
      LegActive(r) && LegExtends(leg, r) && LegDescends(leg, r)
  {
    hide Waiting;
    hide Spread;
    hide Sound;
    var n := |leg.attempts| - 1;
    var r := SetItem(leg, n, k, item);
    SettleKeepsShape(leg, n, k, item);
    SameReliance(leg, Item(leg, n, k), Item(leg, n, k).(status := item.status));
    SettleKeepsSound(leg, n, k, item);
    TakeFromWaiting(leg, n, k, item);
    SmallerSet(Waiting(r), Waiting(leg));
  }

  /** A worker's settlement lands on its own waiting item and leaves all the rest alone. */
  lemma WorkerEffect(s: State, meta: Metadata, st: Settlement, args: Args) returns (k: nat)
    requires Open(s, args) && meta.WorkerRole? && (st.Completed? ==> FitsSchema(meta, st.payload))
    requires ValidationError(s, meta, st) == None
    ensures var leg := Last(s.legs);
      var j, m := |leg.attempts| - 1, ApplySettlement(s, meta, st).state;
      && leg.id == meta.legId && leg.attempts[j].id == meta.attemptId
      && InLeg(leg, j, k) && Item(leg, j, k).status == NotStarted
      && Item(leg, j, k).id == meta.workItemId && Item(leg, j, k).key == meta.workItemKey
      && m.legs == s.legs[|s.legs| - 1 := SetItem(leg, j, k, SettledItem(Item(leg, j, k), st))]
      && m == s.(version := s.version + 1, legs := m.legs, failures := m.failures)
      && m.failures == s.failures + (if st.Completed? then [] else [SettlementFailure(st, "worker")])
    ensures ApplySettlement(s, meta, st).changed
  {
    var at;
    at, k := WorkerTarget(s, meta, st, args);
    hide PursuitShape;
    hide LegSettled;
    hide ValidationError;
    hide SettlementFailure;
  }

  lemma ApplyWorkerResult(s: State, meta: Metadata, st: Settlement, args: Args)
    requires Open(s, args) && meta.WorkerRole? && (st.Completed? ==> FitsSchema(meta, st.payload))
    requires ValidationError(s, meta, st) == None
    requires forall k ::
        0 <= k < |Last(Last(s.legs).attempts).workItems| &&
        Last(Last(s.legs).attempts).workItems[k].key == meta.workItemKey ==>
          DependenciesSucceeded(Last(s.legs), Last(Last(s.legs).attempts).workItems[k])
    ensures ApplyResult(s, ApplySettlement(s, meta, st).state, args)
    ensures ApplySettlement(s, meta, st).changed
  {
    var k := WorkerEffect(s, meta, st, args);
    hide ApplySettlement;
    hide ValidationError;
    hide LegExtends;
    hide LegDescends;
    hide PursuitShape;
    var leg := Last(s.legs);
    var j := |leg.attempts| - 1;
    var item := SettledItem(Item(leg, j, k), st);
    hide SettlementFailure;
    SettledLeg(leg, k, item);
    SetLastLegResult(s, ApplySettlement(s, meta, st).state, SetItem(leg, j, k, item), args);
  }

  /** Items of the current attempt other than `key` are the same in `m`. */
  ghost predicate LeavesOthers(s: State, m: State, key: string) {
    |s.legs| >= 1 && |m.legs| >= 1 && |Last(s.legs).attempts| == |Last(m.legs).attempts| >= 1 &&
    var a := Last(Last(s.legs).attempts).workItems;
    var b := Last(Last(m.legs).attempts).workItems;
    |a| == |b| && forall k :: 0 <= k < |a| && a[k].key != key ==> b[k] == a[k]
  }

  lemma ApplyWorkerLocal(s: State, meta: Metadata, st: Settlement, args: Args)
    requires Open(s, args) && meta.WorkerRole? && (st.Completed? ==> FitsSchema(meta, st.payload))
    requires ValidationError(s, meta, st) == None
    ensures LeavesOthers(s, ApplySettlement(s, meta, st).state, meta.workItemKey)
  {
    assert |s.legs| >= 1;
    hide ApplySettlement;
    hide PursuitShape;
    hide LegSettled;
    hide ValidationError;
    hide SettledItem;
    var k := WorkerEffect(s, meta, st, args);
    var leg, m := Last(s.legs), ApplySettlement(s, meta, st).state;
    assert Last(m.legs) == SetItem(leg, |leg.attempts| - 1, k, SettledItem(Item(leg, |leg.attempts| - 1, k), st));
  }

  // ----- readiness of an open pursuit ---------------------------------------------------

  lemma {:induction false} ClosedLegsDispatchNothing(legs: seq<Leg>, running: RunningNodes, bound: bool)
    requires forall i :: 0 <= i < |legs| ==> legs[i].status != Running
    ensures AllDispatches(legs, running, bound) == []
  {
    if legs != [] { ClosedLegsDispatchNothing(legs[..|legs| - 1], running, bound); }
  }

  lemma OnlyLastLegDispatches(s: State, args: Args, running: RunningNodes, bound: bool)
    requires PursuitShape(s, args) && !s.done
    ensures Dispatches(s, running, bound) == LegDispatches(Last(s.legs), running, bound)
  {
    ClosedLegsDispatchNothing(s.legs[..|s.legs| - 1], running, bound);
  }

  /** An open pursuit with nothing running always has a node to launch: it cannot deadlock. */
  lemma OpenPursuitDispatches(s: State, args: Args)
    requires Open(s, args)
    ensures Dispatches(s, RunningNodes({}, {}), true) != []
  {
    var running := RunningNodes({}, {});
    var leg := Last(s.legs);
    OnlyLastLegDispatches(s, args, running, true);
    assert AttemptFits(leg, |leg.attempts| - 1);
    var attempt := Last(leg.attempts);
    if attempt.plan.status == Success {
      var k0 :| 0 <= k0 < |attempt.workItems| && attempt.workItems[k0].status == NotStarted;
      var k := SomeItemIsReady(leg, k0);
      assert Ready(leg, attempt.workItems[k], running);
      assert WorkerMeta(leg, attempt, attempt.workItems[k]) in WorkerDispatches(leg, attempt, attempt.workItems,
          running);
    }
  }
}
