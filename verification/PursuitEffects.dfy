/** What one step does to the pursuit's records, said of attempts, items and goals. */
module PursuitEffects {
  import opened Text
  import opened PursuitState
  import opened PursuitProgress
  import opened PursuitInvariant
  import opened PursuitSteps
  import opened PursuitClosing
  import opened PursuitReconcile
  import opened PursuitApply

  // ----- a planner's settlement -----------------------------------------------------------

  /** The attempt holds the plan as it was submitted. */
  predicate Carries(a: Attempt, p: PlannerPayload) {
    && a.plan.status == Success && a.plan.summary == Some(p.summary)
    && |a.workItems| == |p.workItems|
    && forall k :: 0 <= k < |p.workItems| ==>
         a.workItems[k].id == p.workItems[k].id && a.workItems[k].dependsOn == p.workItems[k].dependsOn
  }

  /** The leg's goals after plan `p`: replaced with a new version, or at most the next one queued. */
  predicate GoalsFollow(a: Leg, b: Leg, p: PlannerPayload) {
    && b.legGoal == (if p.legGoal.Some? then p.legGoal.value else a.legGoal)
    && b.nextLegGoal == (if p.legGoal.Some? || p.nextLegGoal.Some? then p.nextLegGoal else a.nextLegGoal)
    && b.legGoalVersion == (if p.legGoal.Some? then a.legGoalVersion + 1 else a.legGoalVersion)
  }

  predicate SameGoals(a: Leg, b: Leg) {
    b.legGoal == a.legGoal && b.nextLegGoal == a.nextLegGoal && b.legGoalVersion == a.legGoalVersion
  }

  predicate AllWaiting(a: Attempt) {
    forall k :: 0 <= k < |a.workItems| ==>
      a.workItems[k].status == NotStarted && a.workItems[k].summary == None && a.workItems[k].outcome == None
  }

  /** All attempts but the last hold the plans and items they held. */
  ghost predicate EarlierKept(a: Leg, b: Leg) {
    && b.id == a.id && |b.attempts| == |a.attempts| >= 1
    && (forall j :: 0 <= j < |a.attempts| - 1 ==> KeptAttempt(a.attempts[j], b.attempts[j]))
    && Last(b.attempts).id == Last(a.attempts).id && Last(b.attempts).plan.id == Last(a.attempts).plan.id
  }

  predicate KeptAttempt(a: Attempt, b: Attempt) {
    && b.id == a.id && b.plan == a.plan && b.workItems == a.workItems && b.status == a.status
    && b.failureReasons == a.failureReasons
  }

  lemma AdoptedPlan(leg: Leg, p: PlannerPayload)
    requires |leg.attempts| >= 1 && Last(leg.attempts).workItems == []
    ensures var r := AdoptPlan(leg, |leg.attempts| - 1, p);
      EarlierKept(leg, r) && Carries(Last(r.attempts), p) && AllWaiting(Last(r.attempts)) && GoalsFollow(leg, r, p)
  {
    var n := |leg.attempts| - 1;
    var l, r := Refocus(leg, n, p), AdoptPlan(leg, n, p);
    RefocusKeeps(leg, n, p);
    hide Refocus;
    assert r.attempts[n].workItems == NewItems(l, p.workItems) by {
      assert l.attempts[n].workItems + NewItems(l, p.workItems) == NewItems(l, p.workItems);
    }
    assert GoalsFollow(leg, r, p) && EarlierKept(leg, r) by { hide NewItems; }
    NewItemsWait(l, p.workItems, r.attempts[n].workItems);
    hide NewItems;
    hide EarlierKept;
    hide GoalsFollow;
  }

  lemma RefocusKeeps(leg: Leg, n: nat, p: PlannerPayload)
    requires n < |leg.attempts|
    ensures var l := Refocus(leg, n, p);
      && GoalsFollow(leg, l, p) && l.id == leg.id && |l.attempts| == |leg.attempts|
      && forall j :: 0 <= j < |l.attempts| ==> KeptAttempt(leg.attempts[j], l.attempts[j])
  {
  }

  lemma NewItemsWait(leg: Leg, specs: seq<ItemSpec>, items: seq<WorkItem>)
    requires items == NewItems(leg, specs)
    ensures |items| == |specs|
    ensures forall k :: 0 <= k < |specs| ==>
      items[k].id == specs[k].id && items[k].dependsOn == specs[k].dependsOn &&
      items[k].status == NotStarted && items[k].summary == None && items[k].outcome == None
  {
    hide WorkItemKey;
  }

  /** The current plan failed for this reason, and nothing else changed. */
  ghost predicate PlanFailed(a: Leg, b: Leg, reason: string) {
    && SameGoals(a, b) && |b.attempts| == |a.attempts| >= 1
    && Last(b.attempts).plan.status == Failed && Last(b.attempts).workItems == Last(a.attempts).workItems
    && Last(b.attempts).failureReasons == [PlannerFailureReason(reason)]
  }

  /** The leg after the settlement of its planner. */
  function PlannedLeg(leg: Leg, st: Settlement): Leg
    requires |leg.attempts| >= 1 && (st.Completed? ==> st.payload.PlannerOutcome?)
  {
    var n := |leg.attempts| - 1;
    var a := leg.attempts[n];
    if st.Completed? then AdoptPlan(leg, n, st.payload.plan)
    else
      leg.(attempts := leg.attempts[n := a.(plan := a.plan.(status := Failed),
        failureReasons := [PlannerFailureReason(SettlementFailure(st, "planner"))])])
  }

  lemma PlannerApplied(s: State, meta: Metadata, st: Settlement, args: Args)
    requires Open(s, args) && meta.PlannerRole? && (st.Completed? ==> FitsSchema(meta, st.payload))
    requires ValidationError(s, meta, st) == None
    ensures |s.legs| >= 1 && |Last(s.legs).attempts| >= 1
    ensures var leg, m := Last(s.legs), ApplySettlement(s, meta, st).state;
      && leg.id == meta.legId && Last(leg.attempts).id == meta.attemptId
      && Last(leg.attempts).plan.status == NotStarted && Last(leg.attempts).workItems == []
      && m.legs == s.legs[|s.legs| - 1 := PlannedLeg(leg, st)] && m.pursuit == s.pursuit
      && m.failures == s.failures + (if st.Completed? then [] else [SettlementFailure(st, "planner")])
  {
    hide AdoptPlan;
    hide PlannerSubmissionError;
    hide SettlementFailure;
    hide ValidationError;
    hide PlanFits;
    var at := PlannerTarget(s, meta, st, args);
    var leg := Last(s.legs);
    assert AttemptFits(leg, |leg.attempts| - 1);
    hide Open;
  }

  lemma PlannedLegIs(leg: Leg, st: Settlement)
    requires |leg.attempts| >= 1 && Last(leg.attempts).workItems == [] && (st.Completed? ==> st.payload.PlannerOutcome?)
    ensures var r := PlannedLeg(leg, st);
      && EarlierKept(leg, r)
      && (if st.Completed?
          then Carries(Last(r.attempts), st.payload.plan) && AllWaiting(Last(r.attempts)) &&
               GoalsFollow(leg, r, st.payload.plan)
          else PlanFailed(leg, r, SettlementFailure(st, "planner")))
  {
    if st.Completed? { AdoptedPlan(leg, st.payload.plan); }
    hide AdoptPlan;
    hide SettlementFailure;
    hide Carries;
    hide AllWaiting;
    hide GoalsFollow;
  }

  /** An accepted plan lands on the current attempt; a planner that ended otherwise fails it. */
  lemma PlannerEffect(s: State, meta: Metadata, st: Settlement, args: Args)
    requires Open(s, args) && meta.PlannerRole? && (st.Completed? ==> FitsSchema(meta, st.payload))
    requires ValidationError(s, meta, st) == None
    ensures var leg, m := Last(s.legs), ApplySettlement(s, meta, st).state;
      && leg.id == meta.legId && Last(leg.attempts).id == meta.attemptId
      && Last(leg.attempts).plan.status == NotStarted && Last(leg.attempts).workItems == []
      && |m.legs| == |s.legs| && m.legs == s.legs[|s.legs| - 1 := Last(m.legs)] && m.pursuit == s.pursuit
      && EarlierKept(leg, Last(m.legs))
      && (if st.Completed?
          then Carries(Last(Last(m.legs).attempts), st.payload.plan) && AllWaiting(Last(Last(m.legs).attempts)) &&
               GoalsFollow(leg, Last(m.legs), st.payload.plan) && m.failures == s.failures
          else PlanFailed(leg, Last(m.legs), SettlementFailure(st, "planner")) &&
               m.failures == s.failures + [SettlementFailure(st, "planner")])
  {
    hide ApplySettlement;
    hide ValidationError;
    hide Open;
    hide PlannedLeg;
    hide SettlementFailure;
    hide Carries;
    hide AllWaiting;
    hide GoalsFollow;
    hide PlanFailed;
    PlannerApplied(s, meta, st, args);
    PlannedLegIs(Last(s.legs), st);
    assert s.failures + [] == s.failures;
  }

  // ----- reconciling ------------------------------------------------------------------------

  predicate Untouched(a: Attempt) {
    a.plan.status == NotStarted && a.workItems == [] && a.status == Running
  }

  predicate QuietItem(a: WorkItem, b: WorkItem) {
    b == a || (a.status == NotStarted && b == a.(status := Blocked, summary := b.summary, outcome := b.outcome))
  }

  predicate QuietAttempt(a: Attempt, b: Attempt) {
    && b.id == a.id && b.plan == a.plan && |b.workItems| == |a.workItems|
    && forall k :: 0 <= k < |a.workItems| ==> QuietItem(a.workItems[k], b.workItems[k])
  }

  /** `b` is `a` with some waiting items blocked; plans and goals are the same, and what is
      added is empty. */
  ghost predicate QuietLeg(a: Leg, b: Leg) {
    && b.id == a.id && SameGoals(a, b)
    && |a.attempts| <= |b.attempts|
    && (forall j :: 0 <= j < |a.attempts| ==> QuietAttempt(a.attempts[j], b.attempts[j]))
    && (forall j :: |a.attempts| <= j < |b.attempts| ==> Untouched(b.attempts[j]))
  }

  ghost predicate QuietLegs(a: seq<Leg>, b: seq<Leg>) {
    && |a| <= |b|
    && (forall i :: 0 <= i < |a| ==> QuietLeg(a[i], b[i]))
    && (forall i, j :: |a| <= i && HasAttempt(b, i, j) ==> Untouched(AttemptOf(b, i, j)))
  }

  lemma BlocksOnlyIsQuiet(a: Leg, b: Leg, running: RunningNodes)
    requires BlocksOnly(a, b, running)
    ensures QuietLeg(a, b)
  {
    forall j | 0 <= j < |a.attempts| ensures QuietAttempt(a.attempts[j], b.attempts[j]) {
      forall k | 0 <= k < |a.attempts[j].workItems|
        ensures QuietItem(a.attempts[j].workItems[k], b.attempts[j].workItems[k])
      {
        assert InLeg(a, j, k) && Item(a, j, k) == a.attempts[j].workItems[k] &&
            Item(b, j, k) == b.attempts[j].workItems[k];
      }
    }
  }

  lemma QuietLegOn(a: Leg, b: Leg, c: Leg)
    requires QuietLeg(a, b) && QuietLeg(b, c) && |b.attempts| == |a.attempts|
    ensures QuietLeg(a, c)
  {
    forall j | 0 <= j < |a.attempts| ensures QuietAttempt(a.attempts[j], c.attempts[j]) {
      assert QuietAttempt(a.attempts[j], b.attempts[j]) && QuietAttempt(b.attempts[j], c.attempts[j]);
      forall k | 0 <= k < |a.attempts[j].workItems|
        ensures QuietItem(a.attempts[j].workItems[k], c.attempts[j].workItems[k])
      {
        assert QuietItem(a.attempts[j].workItems[k], b.attempts[j].workItems[k]);
        assert QuietItem(b.attempts[j].workItems[k], c.attempts[j].workItems[k]);
      }
    }
  }

  // ----- why an attempt failed ----------------------------------------------------------------

  predicate Bad(item: WorkItem) {
    item.status == Failed || item.status == Blocked
  }

  /** The dependency `d` of `item` failed or is blocked. */
  ghost predicate BadDependency(leg: Leg, item: WorkItem, d: string) {
    exists a, b :: InLeg(leg, a, b) && Matches(Item(leg, a, b), item.legGoalVersion, d) && Bad(Item(leg, a, b))
  }

  /** The recorded reason says what became of the item and, if it was blocked, by which of
      its dependencies. */
  ghost predicate Explains(leg: Leg, reason: FailureReason, item: WorkItem) {
    && reason.workItemId == Some(item.id) && reason.summary == item.summary && reason.outcome == item.outcome
    && (if item.status == Blocked then
          && reason.kind == BlockedByFailedDependency && reason.blockedBy != []
          && reason.message == Some("blocked by " + JoinIds(reason.blockedBy))
          && forall d :: d in reason.blockedBy <==> d in item.dependsOn && BadDependency(leg, item, d)
        else reason.kind == ItemFailed && reason.message == None && reason.blockedBy == [])
  }

  /** One reason for each failed or blocked item, in the items' order. */
  ghost predicate ReasonsAt(leg: Leg, reasons: seq<FailureReason>, items: seq<WorkItem>, ks: seq<int>) {
    && |ks| == |reasons|
    && (forall x, y :: 0 <= x < y < |ks| ==> ks[x] < ks[y])
    && (forall x :: 0 <= x < |ks| ==>
          0 <= ks[x] < |items| && Bad(items[ks[x]]) && Explains(leg, reasons[x], items[ks[x]]))
    && (forall k :: 0 <= k < |items| && Bad(items[k]) ==> k in ks)
  }

  /** A failed attempt tells why: its planner's end, or each of its failed or blocked items. */
  ghost predicate Explained(leg: Leg, a: Attempt) {
    if a.plan.status == Failed then
      exists text :: a.failureReasons == [FailureReason(None, PlannerFailed, Some(text), None, None, [])]
    else exists ks :: ReasonsAt(leg, a.failureReasons, a.workItems, ks)
  }

  lemma BlocksMeansBad(leg: Leg, item: WorkItem, d: string)
    requires Unique(leg)
    ensures DependencyBlocks(DependencyStatus(leg, item.legGoalVersion, d)) <==> BadDependency(leg, item, d)
  {
    if DependencyBlocks(DependencyStatus(leg, item.legGoalVersion, d)) {
      var a, b := LookupFound(leg, item.legGoalVersion, d);
    }
    if BadDependency(leg, item, d) {
      var a, b :| InLeg(leg, a, b) && Matches(Item(leg, a, b), item.legGoalVersion, d) && Bad(Item(leg, a, b));
      LookupAt(leg, a, b);
    }
  }

  lemma ReasonExplains(leg: Leg, item: WorkItem)
    requires Unique(leg) && Bad(item) && (item.status == Blocked ==> HasBadDependency(leg, item))
    ensures Explains(leg, ItemFailureReason(leg, item), item)
  {
    forall d ensures DependencyBlocks(DependencyStatus(leg, item.legGoalVersion, d)) <==> BadDependency(leg, item, d) {
      BlocksMeansBad(leg, item, d);
    }
  }

  function Shifted(ks: seq<int>): (r: seq<int>)
    ensures |r| == |ks| && forall x :: 0 <= x < |ks| ==> r[x] == ks[x] + 1
  {
    seq(|ks|, x requires 0 <= x < |ks| => ks[x] + 1)
  }

  lemma ShiftedCovers(items: seq<WorkItem>, ks: seq<int>, k: int)
    requires items != [] && 0 <= k < |items| && Bad(items[k])
    requires k > 0 && Bad(items[1..][k - 1]) ==> k - 1 in ks
    ensures k in [0] + Shifted(ks)
  {
    hide Bad;
    var all := [0] + Shifted(ks);
    if k > 0 {
      assert items[k] == items[1..][k - 1];
      var x :| 0 <= x < |ks| && ks[x] == k - 1;
      assert all[x + 1] == k;
    } else {
      assert all[0] == 0;
    }
  }

  lemma ShiftedExplains(leg: Leg, reason: FailureReason, reasons: seq<FailureReason>, items: seq<WorkItem>,
      ks: seq<int>, x: int)
    requires items != [] && |ks| == |reasons| && 0 <= x <= |ks|
    requires if x == 0 then Bad(items[0]) && Explains(leg, reason, items[0])
             else 0 <= ks[x - 1] < |items| - 1 && Bad(items[1..][ks[x - 1]]) &&
                  Explains(leg, reasons[x - 1], items[1..][ks[x - 1]])
    ensures var all := [0] + Shifted(ks);
      0 <= all[x] < |items| && Bad(items[all[x]]) && Explains(leg, ([reason] + reasons)[x], items[all[x]])
  {
    hide Bad;
    hide Explains;
    if x > 0 { assert items[ks[x - 1] + 1] == items[1..][ks[x - 1]]; }
  }

  lemma FrontReason(leg: Leg, reason: FailureReason, reasons: seq<FailureReason>, items: seq<WorkItem>, ks: seq<int>)
    requires items != [] && Bad(items[0]) && Explains(leg, reason, items[0])
    requires ReasonsAt(leg, reasons, items[1..], ks)
    ensures ReasonsAt(leg, [reason] + reasons, items, [0] + Shifted(ks))
  {
    hide Explains;
    hide Bad;
    var all := [0] + Shifted(ks);
    forall k | 0 <= k < |items| && Bad(items[k]) ensures k in all { ShiftedCovers(items, ks, k); }
    forall x | 0 <= x < |all|
      ensures 0 <= all[x] < |items| && Bad(items[all[x]]) && Explains(leg, ([reason] + reasons)[x], items[all[x]])
    {
      ShiftedExplains(leg, reason, reasons, items, ks, x);
    }
  }

  lemma NoFrontReason(leg: Leg, reasons: seq<FailureReason>, items: seq<WorkItem>, ks: seq<int>)
    requires items != [] && !Bad(items[0]) && ReasonsAt(leg, reasons, items[1..], ks)
    ensures ReasonsAt(leg, reasons, items, Shifted(ks))
  {
    hide Explains;
    forall k | 0 <= k < |items| && Bad(items[k]) ensures k in Shifted(ks) {
      assert items[k] == items[1..][k - 1];
      var x :| 0 <= x < |ks| && ks[x] == k - 1;
      assert Shifted(ks)[x] == k;
    }
  }

  lemma {:induction false} ReasonsExplain(leg: Leg, items: seq<WorkItem>) returns (ks: seq<int>)
    requires Unique(leg)
    requires forall k :: 0 <= k < |items| && items[k].status == Blocked ==> HasBadDependency(leg, items[k])
    ensures ReasonsAt(leg, ItemFailureReasons(leg, items), items, ks)
  {
    hide Explains;
    hide ItemFailureReason;
    hide HasBadDependency;
    if items == [] {
      ks := [];
    } else {
      var rest := ReasonsExplain(leg, items[1..]);
      hide ReasonsAt;
      if Bad(items[0]) {
        ReasonExplains(leg, items[0]);
        FrontReason(leg, ItemFailureReason(leg, items[0]), ItemFailureReasons(leg, items[1..]), items, rest);
        ks := [0] + Shifted(rest);
      } else {
        NoFrontReason(leg, ItemFailureReasons(leg, items[1..]), items, rest);
        ks := Shifted(rest);
      }
    }
  }

  /** What was explained stays explained: the items it speaks of have settled for good. */
  lemma ExplainedStays(a: Leg, b: Leg, j: nat, x: Attempt)
    requires LegShape(a) && Unique(b) && LegExtends(a, b) && j < |a.attempts|
    requires a.attempts[j].plan.status != NotStarted
    requires forall j2, k :: InLeg(a, j2, k) && j2 <= j ==> Item(a, j2, k).status != NotStarted
    requires a.attempts[j].failureReasons == x.failureReasons && Explained(a, a.attempts[j])
    requires x.plan == a.attempts[j].plan && x.workItems == a.attempts[j].workItems
    ensures Explained(b, x)
  {
    if x.plan.status != Failed {
      var ks :| ReasonsAt(a, x.failureReasons, x.workItems, ks);
      forall t | 0 <= t < |ks| ensures Explains(b, x.failureReasons[t], x.workItems[ks[t]]) {
        ReasonStays(a, b, j, ks[t], x.failureReasons[t]);
      }
      assert ReasonsAt(b, x.failureReasons, x.workItems, ks);
    }
  }

  lemma ReasonStays(a: Leg, b: Leg, j: nat, k: int, reason: FailureReason)
    requires LegShape(a) && Unique(b) && LegExtends(a, b) && InLeg(a, j, k)
    requires forall j2, k :: InLeg(a, j2, k) && j2 <= j ==> Item(a, j2, k).status != NotStarted
    requires Explains(a, reason, Item(a, j, k))
    ensures Explains(b, reason, Item(a, j, k))
  {
    var item := Item(a, j, k);
    forall d | d in item.dependsOn ensures BadDependency(a, item, d) <==> BadDependency(b, item, d) {
      assert ResolvesBefore(a, j, item.legGoalVersion, d);
      var j2, k2 :| InLeg(a, j2, k2) && j2 <= j && Matches(Item(a, j2, k2), item.legGoalVersion, d);
      assert AttemptExtends(a.attempts[j2], b.attempts[j2]);
      assert InLeg(b, j2, k2) && Item(b, j2, k2) == Item(a, j2, k2);
      OneMatch(a, item.legGoalVersion, d, j2, k2, item);
      OneMatch(b, item.legGoalVersion, d, j2, k2, item);
    }
  }

  lemma OneMatch(leg: Leg, version: nat, d: string, j: int, k: int, item: WorkItem)
    requires Unique(leg) && InLeg(leg, j, k) && Matches(Item(leg, j, k), version, d) && item.legGoalVersion == version
    ensures BadDependency(leg, item, d) <==> Bad(Item(leg, j, k))
  {
    if BadDependency(leg, item, d) {
      var a, b :| InLeg(leg, a, b) && Matches(Item(leg, a, b), version, d) && Bad(Item(leg, a, b));
      assert Item(leg, a, b).id == Item(leg, j, k).id;
    }
  }

  // ----- one reconcile --------------------------------------------------------------------------

  /** The leg opened after `won`: the queued goal, or the next predefined one. */
  predicate OpensNext(pursuit: Pursuit, won: Leg, next: Leg) {
    && next.sequence == won.sequence + 1 && next.maxAttempts == won.maxAttempts && next.legGoalVersion == 1
    && (if pursuit.mode == Dynamic then won.nextLegGoal == Some(next.legGoal) && next.nextLegGoal == None
        else GoalAt(pursuit.legGoals, won.sequence) == Some(next.legGoal) &&
             next.nextLegGoal == GoalAt(pursuit.legGoals, won.sequence + 1))
  }

  /** What a reconcile does to the current attempt and to the list of failures: nothing while
      the attempt stays open, no failure when it won, one more when it failed. */
  ghost predicate VerdictRecorded(m: State, r: State) {
    |m.legs| >= 1 && |r.legs| >= |m.legs| && |Last(m.legs).attempts| >= 1 &&
    var n, j := |m.legs| - 1, |Last(m.legs).attempts| - 1;
    j < |r.legs[n].attempts| &&
    var b := r.legs[n].attempts[j];
    match b.status
    case Running => r.failures == m.failures
    case Success => r.failures == m.failures && b.failureReasons == []
    case Failed =>
      && r.failures == m.failures + [FailureText(b.failureReasons)]
      && (if b.plan.status == Failed then b.failureReasons == m.legs[n].attempts[j].failureReasons
          else Explained(r.legs[n], b))
    case _ => false
  }

  /** A reconcile of the last leg, seen from outside. */
  ghost predicate ReconcileEffect(m: State, r: State) {
    && QuietLegs(m.legs, r.legs) && VerdictRecorded(m, r)
    && |r.legs| <= |m.legs| + 1
    && (|r.legs| > |m.legs| ==> OpensNext(m.pursuit, r.legs[|m.legs| - 1], r.legs[|m.legs|]))
  }

  lemma QuietLegRefl(a: Leg)
    ensures QuietLeg(a, a)
  {
  }

  lemma QuietLast(legs: seq<Leg>, leg: Leg)
    requires |legs| >= 1 && QuietLeg(Last(legs), leg)
    ensures QuietLegs(legs, legs[|legs| - 1 := leg])
  {
    hide QuietLeg;
    forall i | 0 <= i < |legs| ensures QuietLeg(legs[i], legs[|legs| - 1 := leg][i]) { QuietLegRefl(legs[i]); }
  }

  lemma CloseIsQuiet(a: Leg, leg: Leg, status: RunStatus, running: RunningNodes)
    requires BlocksOnly(a, leg, running) && |leg.attempts| > 0
    ensures QuietLeg(a, CloseAttempt(leg, status))
  {
    BlocksOnlyIsQuiet(a, leg, running);
    forall j | 0 <= j < |leg.attempts| ensures QuietAttempt(leg.attempts[j], CloseAttempt(leg, status).attempts[j]) {}
    QuietLegOn(a, leg, CloseAttempt(leg, status));
  }

  lemma SameItemsExplain(a: Leg, b: Leg, reasons: seq<FailureReason>, items: seq<WorkItem>, ks: seq<int>)
    requires SameItems(a.attempts, b.attempts) && ReasonsAt(a, reasons, items, ks)
    ensures ReasonsAt(b, reasons, items, ks)
  {
    forall item: WorkItem, d ensures BadDependency(a, item, d) <==> BadDependency(b, item, d) {
      SameBadDependency(a, b, item, d);
    }
    hide BadDependency;
    forall x | 0 <= x < |ks| ensures Explains(b, reasons[x], items[ks[x]]) {
      assert Explains(a, reasons[x], items[ks[x]]);
    }
  }

  lemma SameBadDependency(a: Leg, b: Leg, item: WorkItem, d: string)
    requires SameItems(a.attempts, b.attempts)
    ensures BadDependency(a, item, d) <==> BadDependency(b, item, d)
  {
    forall j, k ensures InLeg(a, j, k) <==> InLeg(b, j, k) {
      assert 0 <= j < |a.attempts| ==> b.attempts[j].workItems == a.attempts[j].workItems;
    }
    forall j, k | InLeg(a, j, k) ensures Item(a, j, k) == Item(b, j, k) {
      assert b.attempts[j].workItems == a.attempts[j].workItems;
    }
  }

  /** The reasons an attempt is closed with, for whatever the leg becomes around its items. */
  lemma ClosedExplains(leg: Leg, r: Leg)
    requires LegShape(leg) && Sound(leg) && SameItems(leg.attempts, r.attempts)
    requires Last(leg.attempts).plan.status == Success
    ensures var b := Last(CloseAttempt(leg, Failed).attempts);
      exists ks :: ReasonsAt(r, b.failureReasons, b.workItems, ks)
  {
    var j := |leg.attempts| - 1;
    var items := leg.attempts[j].workItems;
    forall k | 0 <= k < |items| && items[k].status == Blocked ensures HasBadDependency(leg, items[k]) {
      assert InLeg(leg, j, k) && SoundItem(leg, Item(leg, j, k));
    }
    var ks := ReasonsExplain(leg, items);
    SameItemsExplain(leg, r, ItemFailureReasons(leg, items), items, ks);
    var b := Last(CloseAttempt(leg, Failed).attempts);
    hide ReasonsAt;
    assert b.failureReasons == ItemFailureReasons(leg, items) && b.workItems == items;
    assert ReasonsAt(r, b.failureReasons, b.workItems, ks);
  }

  lemma OpenEffect(m: State, r: State, leg: Leg, running: RunningNodes, args: Args)
    requires Unreconciled(m, args) && BlocksOnly(Last(m.legs), leg, running)
    requires r.legs == m.legs[|m.legs| - 1 := leg] && r.failures == m.failures
    ensures ReconcileEffect(m, r)
  {
    BlocksOnlyIsQuiet(Last(m.legs), leg, running);
    QuietLast(m.legs, leg);
    hide QuietLeg;
    hide QuietLegs;
    hide LegShape;
    hide Sound;
  }

  lemma RetryEffect(m: State, r: State, leg: Leg, running: RunningNodes, args: Args)
    requires Unreconciled(m, args) && BlocksOnly(Last(m.legs), leg, running) && LegActive(leg)
    requires Last(leg.attempts).plan.status != NotStarted && |leg.attempts| < leg.maxAttempts
    requires r == AfterFailedAttempt(SetLeg(m, |m.legs| - 1, CloseAttempt(leg, Failed)), |m.legs| - 1)
    ensures ReconcileEffect(m, r)
  {
    hide VerdictRecorded;
    hide FailureText;
    assert |m.legs| >= 1 && LegShape(leg) && Sound(leg) by { hide LegShape; }
    assert |leg.attempts| >= 1;
    hide LegShape;
    hide Sound;
    hide PursuitShape;
    var n := |m.legs| - 1;
    assert |Last(m.legs).attempts| == |leg.attempts| &&
      Last(Last(m.legs).attempts).failureReasons == Last(leg.attempts).failureReasons;
    hide BlocksOnly;
    var closed := CloseAttempt(leg, Failed);
    var retry := closed.(attempts :=
      closed.attempts + [CreateAttempt(|leg.attempts| + 1, leg.legGoalVersion, m.minted, m.minted + 1)]);
    RetryState(m, r, leg);
    assert r.failures == m.failures + [FailureText(Last(closed.attempts).failureReasons)];
    hide AfterFailedAttempt;
    CloseKeepsShape(leg, Failed);
    CloseIsQuiet(m.legs[n], leg, Failed, running);
    assert QuietLeg(m.legs[n], retry);
    hide QuietLeg;
    hide QuietLegs;
    QuietLast(m.legs, retry);
    LastVerdict(m, r, leg, retry);
  }

  /** A failed verdict on the last attempt, recorded in `r`'s last leg. */
  lemma LastVerdict(m: State, r: State, leg: Leg, final: Leg)
    requires |m.legs| >= 1 && LegShape(leg) && Sound(leg) && Last(leg.attempts).plan.status != NotStarted
    requires |Last(m.legs).attempts| == |leg.attempts|
    requires Last(Last(m.legs).attempts).failureReasons == Last(leg.attempts).failureReasons
    requires r.legs == m.legs[|m.legs| - 1 := final]
    requires SameItems(leg.attempts, final.attempts)
    requires final.attempts[|leg.attempts| - 1] == Last(CloseAttempt(leg, Failed).attempts)
    requires r.failures == m.failures + [FailureText(Last(CloseAttempt(leg, Failed).attempts).failureReasons)]
    ensures VerdictRecorded(m, r)
  {
    assert AttemptFits(leg, |leg.attempts| - 1);
    if Last(leg.attempts).plan.status == Success { ClosedExplains(leg, final); }
    hide LegShape;
    hide Sound;
    hide ReasonsAt;
    hide FailureText;
  }

  lemma LoseEffect(m: State, r: State, leg: Leg, running: RunningNodes, args: Args)
    requires Unreconciled(m, args) && BlocksOnly(Last(m.legs), leg, running) && LegActive(leg)
    requires Last(leg.attempts).plan.status != NotStarted && |leg.attempts| >= leg.maxAttempts
    requires r == AfterFailedAttempt(SetLeg(m, |m.legs| - 1, CloseAttempt(leg, Failed)), |m.legs| - 1)
    ensures ReconcileEffect(m, r)
  {
    hide VerdictRecorded;
    hide FailureText;
    assert |m.legs| >= 1 && LegShape(leg) && Sound(leg) by { hide LegShape; }
    assert |leg.attempts| >= 1;
    hide LegShape;
    hide Sound;
    hide PursuitShape;
    var n := |m.legs| - 1;
    assert |Last(m.legs).attempts| == |leg.attempts| &&
      Last(Last(m.legs).attempts).failureReasons == Last(leg.attempts).failureReasons;
    hide BlocksOnly;
    var closed := CloseAttempt(leg, Failed);
    var lost := closed.(status := Failed);
    assert r.legs == m.legs[n := lost] &&
      r.failures == m.failures + [FailureText(Last(closed.attempts).failureReasons)];
    hide AfterFailedAttempt;
    CloseKeepsShape(leg, Failed);
    CloseIsQuiet(m.legs[n], leg, Failed, running);
    assert QuietLeg(m.legs[n], lost);
    hide QuietLeg;
    hide QuietLegs;
    QuietLast(m.legs, lost);
    LastVerdict(m, r, leg, lost);
  }

  lemma WinEffect(m: State, r: State, leg: Leg, running: RunningNodes, args: Args)
    requires Unreconciled(m, args) && BlocksOnly(Last(m.legs), leg, running) && LegActive(leg)
    requires Last(leg.attempts).plan.status == Success
    requires r == AfterSucceededAttempt(SetLeg(m, |m.legs| - 1, CloseAttempt(leg, Success)), |m.legs| - 1)
    ensures ReconcileEffect(m, r)
  {
    var n := |m.legs| - 1;
    var won := CloseAttempt(leg, Success).(status := Success);
    assert LegFollows(m.legs[n], args, n);
    CloseIsQuiet(m.legs[n], leg, Success, running);
    assert QuietLeg(m.legs[n], won);
    QuietLast(m.legs, won);
    hide LegShape;
    hide Sound;
    hide LegsShape;
    match NextLegInit(m.pursuit, won) {
      case None => assert r.legs == m.legs[n := won];
      case Some(init) => assert r.legs == m.legs[n := won] + [CreateLeg(init, m.minted)];
    }
  }

  lemma ReconcileOneEffect(m: State, running: RunningNodes, args: Args)
    requires Unreconciled(m, args) && RunningReady(Last(m.legs), running)
    ensures ReconcileEffect(m, ReconcileOne(m, |m.legs| - 1, running).state)
  {
    hide AfterFailedAttempt;
    hide AfterSucceededAttempt;
    hide CloseAttempt;
    hide ReconcileEffect;
    hide SpreadBlocks;
    var n := |m.legs| - 1;
    var leg := SpreadBlocks(m.legs[n], running);
    SpreadLeavesActive(m.legs[n], running);
    var s1 := SetLeg(m, n, leg);
    VerdictIsFinal(Last(leg.attempts), running);
    assert s1.legs[n] == leg && !IsEntityTerminal(Last(leg.attempts).status);
    var r := ReconcileOne(m, n, running).state;
    match AttemptVerdict(Last(leg.attempts), running) {
      case None =>
        OpenEffect(m, r, leg, running, args);
      case Some(status) =>
        assert SetLeg(s1, n, CloseAttempt(leg, status)) == SetLeg(m, n, CloseAttempt(leg, status));
        if status == Success { WinEffect(m, r, leg, running, args); }
        else if |leg.attempts| < leg.maxAttempts { RetryEffect(m, r, leg, running, args); }
        else { LoseEffect(m, r, leg, running, args); }
    }
  }

  /** Whatever runs, a reconcile blocks, closes and opens, and changes no plan, goal or
      settled item. */
  lemma ReconcileIsRecorded(m: State, running: RunningNodes, args: Args)
    requires Unreconciled(m, args) && RunningReady(Last(m.legs), running)
    ensures ReconcileEffect(m, Reconcile(m, running).state)
  {
    ReconcileLast(m, running);
    ReconcileOneEffect(m, running, args);
    hide ReconcileOne;
    hide QuietLegs;
    hide OpensNext;
  }
}
