/** How the pursuit state moves: applying a node's settlement, spreading blocks to a
    fixpoint, and closing attempts, legs and the pursuit. */
module PursuitProgress {
  import opened Text
  import opened DependencyGraph
  import opened PursuitState

  // ----- spreading blocks ------------------------------------------------------

  function JoinIds(ids: seq<string>): string {
    if ids == [] then ""
    else if |ids| == 1 then "work_item_" + ids[0]
    else "work_item_" + ids[0] + ", " + JoinIds(ids[1..])
  }

  function BlockedSummary(blockedBy: seq<string>): string {
    "blocked by " + JoinIds(blockedBy)
  }

  /** Positions of the items that have not started. */
  function Waiting(leg: Leg): set<(int, int)> {
    set j, k | 0 <= j < |leg.attempts| && 0 <= k < |leg.attempts[j].workItems| &&
               leg.attempts[j].workItems[k].status == NotStarted :: (j, k)
  }

  predicate SameLengths(a: Leg, b: Leg) {
    |a.attempts| == |b.attempts| &&
    forall j :: 0 <= j < |a.attempts| ==> |a.attempts[j].workItems| == |b.attempts[j].workItems|
  }

  /** `b` is `a`, or has strictly fewer waiting items at the same positions. */
  ghost predicate Shrinks(a: Leg, b: Leg) {
    SameLengths(a, b) && (b == a || Waiting(b) < Waiting(a))
  }

  predicate Blockable(leg: Leg, item: WorkItem, running: RunningNodes) {
    item.status == NotStarted && item.key !in running.workItems && HasBadDependency(leg, item)
  }

  function AsBlocked(leg: Leg, item: WorkItem): WorkItem {
    var text := BlockedSummary(Blockers(leg, item.legGoalVersion, item.dependsOn));
    item.(status := Blocked, summary := Some(text), outcome := Some(text))
  }

  lemma TakeFromWaiting(leg: Leg, j: int, k: int, item: WorkItem)
    requires InLeg(leg, j, k) && Item(leg, j, k).status == NotStarted && item.status != NotStarted
    ensures Waiting(SetItem(leg, j, k, item)) == Waiting(leg) - {(j, k)}
    ensures (j, k) in Waiting(leg)
  {
  }

  function BlockItem(leg: Leg, j: nat, k: nat, running: RunningNodes): (r: Leg)
    requires InLeg(leg, j, k)
    ensures Shrinks(leg, r)
  {
    var item := Item(leg, j, k);
    if Blockable(leg, item, running) then
      TakeFromWaiting(leg, j, k, AsBlocked(leg, item));
      SetItem(leg, j, k, AsBlocked(leg, item))
    else leg
  }

  function SweepItems(leg: Leg, j: nat, k: nat, running: RunningNodes): (r: Leg)
    requires j < |leg.attempts|
    ensures Shrinks(leg, r)
    decreases |leg.attempts[j].workItems| - k
  {
    if k >= |leg.attempts[j].workItems| then leg
    else SweepItems(BlockItem(leg, j, k, running), j, k + 1, running)
  }

  function SweepAttempts(leg: Leg, j: nat, running: RunningNodes): (r: Leg)
    ensures Shrinks(leg, r)
    decreases |leg.attempts| - j
  {
    if j >= |leg.attempts| then leg
    else SweepAttempts(SweepItems(leg, j, 0, running), j + 1, running)
  }

  /** Sweep over all items until a sweep changes nothing. */
  function SpreadBlocks(leg: Leg, running: RunningNodes): (r: Leg)
    ensures Shrinks(leg, r)
    ensures SweepAttempts(r, 0, running) == r
    decreases Waiting(leg)
  {
    var next := SweepAttempts(leg, 0, running);
    if next == leg then leg else SpreadBlocks(next, running)
  }

  // ----- closing attempts, legs and the pursuit ---------------------------------

  function ItemFailureReason(leg: Leg, item: WorkItem): FailureReason {
    if item.status == Blocked then
      var blockedBy := Blockers(leg, item.legGoalVersion, item.dependsOn);
      FailureReason(Some(item.id), BlockedByFailedDependency,
                    if |blockedBy| > 0 then Some(BlockedSummary(blockedBy)) else None,
                    item.summary, item.outcome, blockedBy)
    else FailureReason(Some(item.id), ItemFailed, None, item.summary, item.outcome, [])
  }

  function ItemFailureReasons(leg: Leg, items: seq<WorkItem>): seq<FailureReason> {
    if items == [] then []
    else if items[0].status == Failed || items[0].status == Blocked
    then [ItemFailureReason(leg, items[0])] + ItemFailureReasons(leg, items[1..])
    else ItemFailureReasons(leg, items[1..])
  }

  /** The status an attempt closes with now, if it closes. */
  function AttemptVerdict(attempt: Attempt, running: RunningNodes): Option<RunStatus> {
    var items := attempt.workItems;
    if attempt.plan.status == Failed then Some(Failed)
    else if attempt.plan.status == Success && |items| > 0 &&
            (forall k :: 0 <= k < |items| ==> EffectiveStatus(items[k], running) == Success)
    then Some(Success)
    else if attempt.plan.status == Success &&
            (exists k :: 0 <= k < |items| && (items[k].status == Failed || items[k].status == Blocked)) &&
            (forall k :: 0 <= k < |items| ==> IsItemTerminal(EffectiveStatus(items[k], running)))
    then Some(Failed)
    else None
  }

  function ClosePursuit(s: State, status: RunStatus): State {
    s.(pursuit := s.pursuit.(status := status), done := true,
       workflowStatus := if status == Success then Succeeded else Failure)
  }

  function NextLegInit(pursuit: Pursuit, leg: Leg): Option<LegInit> {
    if pursuit.mode == Dynamic then
      if leg.nextLegGoal.None? then None
      else Some(LegInit(leg.sequence + 1, leg.nextLegGoal.value, None, leg.maxAttempts))
    else
      match GoalAt(pursuit.legGoals, leg.sequence)
      case None => None
      case Some(goal) =>
        Some(LegInit(leg.sequence + 1, goal, GoalAt(pursuit.legGoals, leg.sequence + 1), leg.maxAttempts))
  }

  function CloseAttempt(leg: Leg, status: RunStatus): Leg
    requires |leg.attempts| > 0
  {
    var j := |leg.attempts| - 1;
    var attempt := leg.attempts[j];
    var reasons :=
      if attempt.plan.status == Failed then attempt.failureReasons
      else if status == Failed then ItemFailureReasons(leg, attempt.workItems)
      else [];
    leg.(attempts := leg.attempts[j := attempt.(status := status, failureReasons := reasons)])
  }

  function FailureText(reasons: seq<FailureReason>): string {
    if |reasons| > 0 && reasons[0].message.Some? then reasons[0].message.value else "attempt failed"
  }

  /** A state and whether the step that produced it changed anything. */
  datatype Applied = Applied(state: State, changed: bool)

  function SetLeg(s: State, i: nat, leg: Leg): State
    requires i < |s.legs|
  {
    s.(legs := s.legs[i := leg])
  }

  /** The leg's last attempt failed: retry while attempts are left, otherwise close. */
  function AfterFailedAttempt(s: State, i: nat): State
    requires i < |s.legs| && |s.legs[i].attempts| > 0
  {
    var leg := s.legs[i];
    var s1 := s.(failures := s.failures + [FailureText(leg.attempts[|leg.attempts| - 1].failureReasons)]);
    if |leg.attempts| < leg.maxAttempts then
      var retry := CreateAttempt(|leg.attempts| + 1, leg.legGoalVersion, s.minted, s.minted + 1);
      SetLeg(s1, i, leg.(attempts := leg.attempts + [retry])).(minted := s.minted + 2)
    else
      ClosePursuit(SetLeg(s1, i, leg.(status := Failed)), Failed)
  }

  /** The leg's last attempt succeeded: open the next leg, or close. */
  function AfterSucceededAttempt(s: State, i: nat): State
    requires i < |s.legs|
  {
    var leg := s.legs[i].(status := Success);
    var s1 := SetLeg(s, i, leg);
    match NextLegInit(s.pursuit, leg)
    case Some(init) => s1.(legs := s1.legs + [CreateLeg(init, s.minted)], minted := s.minted + 3)
    case None => ClosePursuit(s1, Success)
  }

  function ReconcileLeg(s: State, i: nat, running: RunningNodes): Applied
    requires i < |s.legs|
  {
    var leg := s.legs[i];
    if |leg.attempts| == 0 || IsEntityTerminal(leg.attempts[|leg.attempts| - 1].status) then Applied(s, false)
    else
      match AttemptVerdict(leg.attempts[|leg.attempts| - 1], running)
      case None => Applied(s, false)
      case Some(status) =>
        var closed := SetLeg(s, i, CloseAttempt(leg, status));
        if status == Failed then Applied(AfterFailedAttempt(closed, i), true)
        else Applied(AfterSucceededAttempt(closed, i), true)
  }

  function ReconcileOne(s: State, i: nat, running: RunningNodes): Applied
    requires i < |s.legs|
  {
    if s.legs[i].status != Running then Applied(s, false)
    else
      var leg := SpreadBlocks(s.legs[i], running);
      var r := ReconcileLeg(SetLeg(s, i, leg), i, running);
      Applied(r.state, r.changed || leg != s.legs[i])
  }

  /** A leg whose current attempt still waits for its plan. */
  predicate AwaitsPlan(leg: Leg) {
    |leg.attempts| > 0 &&
    var attempt := leg.attempts[|leg.attempts| - 1];
    attempt.status == Running && attempt.plan.status == NotStarted
  }

  /** Legs from `i` on that a reconcile may still close. */
  function Closable(legs: seq<Leg>, i: nat): set<int> {
    set t | i <= t < |legs| && !AwaitsPlan(legs[t])
  }

  /** Working on leg `i` leaves the other legs alone and opens at most one more. */
  ghost predicate TouchesOnly(before: seq<Leg>, after: seq<Leg>, i: nat) {
    && i < |before|
    && |before| <= |after| <= |before| + 1
    && (forall t :: 0 <= t < |before| && t != i ==> after[t] == before[t])
    && (|after| == |before| + 1 ==> !AwaitsPlan(before[i]) && AwaitsPlan(after[|before|]))
  }

  lemma ReconcileLegShape(s: State, i: nat, running: RunningNodes)
    requires i < |s.legs|
    ensures TouchesOnly(s.legs, ReconcileLeg(s, i, running).state.legs, i)
  {
  }

  lemma ReconcileOneShape(s: State, i: nat, running: RunningNodes)
    requires i < |s.legs|
    ensures TouchesOnly(s.legs, ReconcileOne(s, i, running).state.legs, i)
  {
    if s.legs[i].status == Running {
      var leg := SpreadBlocks(s.legs[i], running);
      SpreadKeepsPlans(s.legs[i], running);
      assert AwaitsPlan(leg) == AwaitsPlan(s.legs[i]);
      ReconcileLegShape(SetLeg(s, i, leg), i, running);
    }
  }

  lemma ClosableShrinks(before: seq<Leg>, after: seq<Leg>, i: nat)
    requires TouchesOnly(before, after, i)
    ensures Closable(after, i + 1) <= Closable(before, i)
    ensures |after| > |before| ==> Closable(after, i + 1) < Closable(before, i)
  {
    if |after| > |before| {
      assert i in Closable(before, i) && i !in Closable(after, i + 1);
    }
  }

  /** Spreading blocks changes items only. */
  ghost predicate SamePlans(a: Leg, b: Leg) {
    |a.attempts| == |b.attempts| && b == a.(attempts := b.attempts) &&
    forall j :: 0 <= j < |a.attempts| ==>
      b.attempts[j] == a.attempts[j].(workItems := b.attempts[j].workItems)
  }

  lemma SamePlansOn(a: Leg, b: Leg, c: Leg)
    ensures SamePlans(a, a) && (SamePlans(a, b) && SamePlans(b, c) ==> SamePlans(a, c))
  {
  }

  lemma BlockItemKeepsPlans(leg: Leg, j: nat, k: nat, running: RunningNodes)
    requires InLeg(leg, j, k)
    ensures SamePlans(leg, BlockItem(leg, j, k, running))
  {
  }

  lemma {:induction false} SweepItemsKeepsPlans(leg: Leg, j: nat, k: nat, running: RunningNodes)
    requires j < |leg.attempts|
    ensures SamePlans(leg, SweepItems(leg, j, k, running))
    decreases |leg.attempts[j].workItems| - k
  {
    hide SamePlans;
    if k < |leg.attempts[j].workItems| {
      var next := BlockItem(leg, j, k, running);
      BlockItemKeepsPlans(leg, j, k, running);
      SweepItemsKeepsPlans(next, j, k + 1, running);
      SamePlansOn(leg, next, SweepItems(next, j, k + 1, running));
    } else {
      SamePlansOn(leg, leg, leg);
    }
  }

  lemma {:induction false} SweepAttemptsKeepsPlans(leg: Leg, j: nat, running: RunningNodes)
    ensures SamePlans(leg, SweepAttempts(leg, j, running))
    decreases |leg.attempts| - j
  {
    hide SamePlans;
    if j < |leg.attempts| {
      var next := SweepItems(leg, j, 0, running);
      SweepItemsKeepsPlans(leg, j, 0, running);
      SweepAttemptsKeepsPlans(next, j + 1, running);
      SamePlansOn(leg, next, SweepAttempts(next, j + 1, running));
    } else {
      SamePlansOn(leg, leg, leg);
    }
  }

  lemma {:induction false} SpreadKeepsPlans(leg: Leg, running: RunningNodes)
    ensures SamePlans(leg, SpreadBlocks(leg, running))
    decreases Waiting(leg)
  {
    hide SamePlans;
    SweepAttemptsKeepsPlans(leg, 0, running);
    var next := SweepAttempts(leg, 0, running);
    if next != leg {
      SpreadKeepsPlans(next, running);
      SamePlansOn(leg, next, SpreadBlocks(next, running));
    }
  }

  /** The legs from `i` on, including those opened on the way. */
  function ReconcileFrom(s: State, i: nat, running: RunningNodes): (r: Applied)
    decreases Closable(s.legs, i), |s.legs| - i
  {
    if i >= |s.legs| then Applied(s, false)
    else
      ReconcileOneShape(s, i, running);
      ClosableShrinks(s.legs, ReconcileOne(s, i, running).state.legs, i);
      var one := ReconcileOne(s, i, running);
      var rest := ReconcileFrom(one.state, i + 1, running);
      Applied(rest.state, one.changed || rest.changed)
  }

  function Bump(s: State): State { s.(version := s.version + 1) }

  function Reconcile(s: State, running: RunningNodes): Applied {
    if s.done then Applied(s, false)
    else
      var r := ReconcileFrom(s, 0, running);
      if r.changed then Applied(Bump(r.state), true) else Applied(s, false)
  }

  // ----- applying settlements ---------------------------------------------------

  datatype Rejection =
    | NodeAlreadyFinished
    | InvalidPayload
    | WorkflowAlreadyDone
    | UnknownPlanner
    | PlannerAlreadyTerminal
    | UnknownWorker
    | WorkerAlreadyTerminal
    | UnfitPlan(error: SubmissionError)

  /** Why the pursuit refuses this settlement, if it does. */
  function ValidationError(s: State, meta: Metadata, st: Settlement): Option<Rejection>
    requires st.Completed? ==> FitsSchema(meta, st.payload)
  {
    if s.done then Some(WorkflowAlreadyDone)
    else
      match FindAttempt(s, meta)
      case None => Some(if meta.PlannerRole? then UnknownPlanner else UnknownWorker)
      case Some(at) =>
        var leg := s.legs[at.leg];
        var attempt := leg.attempts[at.attempt];
        match meta
        case PlannerRole(_, _, _, _) =>
          if IsEntityTerminal(attempt.plan.status) then Some(PlannerAlreadyTerminal)
          else if !st.Completed? then None
          else
            (match PlannerSubmissionError(s.pursuit.mode, leg, attempt.sequence, st.payload.plan)
             case None => None
             case Some(e) => Some(UnfitPlan(e)))
        case WorkerRole(_, _, id, key, _) =>
          var k := ItemIndex(attempt.workItems, id, key);
          if k == |attempt.workItems| then Some(UnknownWorker)
          else if IsItemTerminal(attempt.workItems[k].status) then Some(WorkerAlreadyTerminal)
          else None
  }

  predicate StartsWith(s: string, prefix: string) { prefix <= s }

  function PlannerFailureReason(message: string): FailureReason {
    FailureReason(None, if StartsWith(message, "context_script_error:") then ContextCompositionFailed
      else PlannerFailed,
                  Some(message), None, None, [])
  }

  function NewItem(leg: Leg, spec: ItemSpec): WorkItem {
    WorkItem(WorkItemKey(UuidText(leg.id), leg.legGoalVersion, spec.id), spec.id, NotStarted,
             spec.dependsOn, leg.legGoalVersion, None, None)
  }

  function NewItems(leg: Leg, specs: seq<ItemSpec>): (items: seq<WorkItem>)
    ensures |items| == |specs|
    ensures forall i :: 0 <= i < |specs| ==> items[i] == NewItem(leg, specs[i])
  {
    seq(|specs|, i requires 0 <= i < |specs| => NewItem(leg, specs[i]))
  }

  function MarkConsistent(attempts: seq<Attempt>, id: Uuid): (r: seq<Attempt>)
    ensures |r| == |attempts|
    ensures forall j :: 0 <= j < |attempts| ==> r[j] == attempts[j].(isConsistentWithLegGoal := attempts[j].id == id)
  {
    seq(|attempts|, j requires 0 <= j < |attempts| => attempts[j].(isConsistentWithLegGoal := attempts[j].id == id))
  }

  /** A plan that replaces the leg's goal starts a new goal version, which only the
      planning attempt follows; otherwise a plan may at most queue the next leg's goal. */
  function Refocus(leg: Leg, j: nat, p: PlannerPayload): Leg
    requires j < |leg.attempts|
  {
    if p.legGoal.Some? then
      var attempts := MarkConsistent(leg.attempts, leg.attempts[j].id);
      leg.(legGoalVersion := leg.legGoalVersion + 1,
           legGoal := p.legGoal.value,
           nextLegGoal := p.nextLegGoal,
           attempts := attempts[j := attempts[j].(legGoalVersion := leg.legGoalVersion + 1)])
    else if p.nextLegGoal.Some? then leg.(nextLegGoal := p.nextLegGoal)
    else leg
  }

  function AdoptPlan(leg: Leg, j: nat, p: PlannerPayload): Leg
    requires j < |leg.attempts|
  {
    var l := Refocus(leg, j, p);
    var attempt := l.attempts[j];
    var plan := attempt.plan.(status := Success, legGoalVersion := l.legGoalVersion, summary := Some(p.summary));
    l.(attempts := l.attempts[j := attempt.(plan := plan, workItems := attempt.workItems + NewItems(l, p.workItems))])
  }

  function ApplyPlanner(s: State, meta: Metadata, st: Settlement): Applied
    requires meta.PlannerRole? && (st.Completed? ==> FitsSchema(meta, st.payload))
  {
    match FindAttempt(s, meta)
    case None => Applied(s, false)
    case Some(at) =>
      var leg := s.legs[at.leg];
      var attempt := leg.attempts[at.attempt];
      if !st.Completed? then
        var reason := SettlementFailure(st, "planner");
        var failed := attempt.(plan := attempt.plan.(status := Failed),
          failureReasons := [PlannerFailureReason(reason)]);
        Applied(Bump(SetLeg(s, at.leg, leg.(attempts := leg.attempts[at.attempt := failed]))
                     .(failures := s.failures + [reason])), true)
      else
        Applied(Bump(SetLeg(s, at.leg, AdoptPlan(leg, at.attempt, st.payload.plan))), true)
  }

  function SettledItem(item: WorkItem, st: Settlement): WorkItem
    requires st.Completed? ==> st.payload.WorkerOutcome?
  {
    if st.Completed? then
      var w := st.payload.work;
      item.(status := if w.isPass then Success else Failed, summary := Some(w.summary), outcome := Some(w.outcome))
    else
      var reason := SettlementFailure(st, "worker");
      item.(status := Failed, summary := Some(reason), outcome := Some(reason))
  }

  function ApplyWorker(s: State, meta: Metadata, st: Settlement): Applied
    requires meta.WorkerRole? && (st.Completed? ==> FitsSchema(meta, st.payload))
  {
    match FindAttempt(s, meta)
    case None => Applied(s, false)
    case Some(at) =>
      var leg := s.legs[at.leg];
      var k := ItemIndex(leg.attempts[at.attempt].workItems, meta.workItemId, meta.workItemKey);
      if k == |leg.attempts[at.attempt].workItems| then Applied(s, false)
      else
        var s1 := SetLeg(s, at.leg, SetItem(leg, at.attempt, k, SettledItem(Item(leg, at.attempt, k), st)));
        Applied(Bump(if st.Completed? then s1
                     else s1.(failures := s.failures + [SettlementFailure(st, "worker")])), true)
  }

  function ApplySettlement(s: State, meta: Metadata, st: Settlement): Applied
    requires st.Completed? ==> FitsSchema(meta, st.payload)
  {
    if meta.PlannerRole? then ApplyPlanner(s, meta, st) else ApplyWorker(s, meta, st)
  }
}
