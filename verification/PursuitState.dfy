/** The pursuit's data and pure scheduling. */
module PursuitState {
  import opened Text
  import opened DependencyGraph

  // Lookups, readiness, dispatch and plan validation.

  /** A minted id stands for the number of the minting call that produced it. */
  type Uuid = nat

  datatype RunStatus = NotStarted | Running | Success | Failed | Blocked | Cancelled

  predicate IsEntityTerminal(s: RunStatus) {
    s == Success || s == Failed || s == Cancelled
  }

  predicate IsItemTerminal(s: RunStatus) {
    s == Success || s == Failed || s == Blocked || s == Cancelled
  }

  datatype WorkItem = WorkItem(
    key: string,
    id: string,
    status: RunStatus,
    dependsOn: seq<string>,
    legGoalVersion: nat,
    summary: Option<string>,
    outcome: Option<string>)

  datatype Plan = Plan(id: Uuid, status: RunStatus, legGoalVersion: nat, summary: Option<string>)

  datatype FailureKind = PlannerFailed | ContextCompositionFailed | ItemFailed | BlockedByFailedDependency

  datatype FailureReason = FailureReason(
    workItemId: Option<string>,
    kind: FailureKind,
    message: Option<string>,
    summary: Option<string>,
    outcome: Option<string>,
    blockedBy: seq<string>)

  datatype Attempt = Attempt(
    id: Uuid,
    sequence: nat,
    status: RunStatus,
    failureReasons: seq<FailureReason>,
    legGoalVersion: nat,
    isConsistentWithLegGoal: bool,
    plan: Plan,
    workItems: seq<WorkItem>)

  datatype Leg = Leg(
    id: Uuid,
    sequence: nat,
    maxAttempts: nat,
    status: RunStatus,
    legGoal: string,
    legGoalVersion: nat,
    nextLegGoal: Option<string>,
    attempts: seq<Attempt>)

  datatype LegGoalMode = Dynamic | Predefined

  datatype Pursuit = Pursuit(goal: string, mode: LegGoalMode, legGoals: seq<string>, status: RunStatus)

  datatype WorkflowStatus = Live | Succeeded | Failure | Deadlocked

  /** `minted` counts the ids handed out so far. */
  datatype State = State(
    version: nat,
    done: bool,
    workflowStatus: WorkflowStatus,
    pursuit: Pursuit,
    legs: seq<Leg>,
    failures: seq<string>,
    minted: nat)

  /** `legGoals` is present only when it is not empty; `maxAttempts` is positive. */
  datatype Args = Args(pursuitGoal: string, legGoals: seq<string>, maxAttempts: nat)

  // ----- creation -----------------------------------------------------------

  function CreateAttempt(sequence: nat, legGoalVersion: nat, id: Uuid, planId: Uuid): Attempt {
    Attempt(id, sequence, Running, [], legGoalVersion, true,
            Plan(planId, NotStarted, legGoalVersion, None), [])
  }

  datatype LegInit = LegInit(sequence: nat, legGoal: string, nextLegGoal: Option<string>, maxAttempts: nat)

  function CreateLeg(init: LegInit, minted: nat): Leg {
    Leg(minted, init.sequence, init.maxAttempts, Running, init.legGoal, 1, init.nextLegGoal,
        [CreateAttempt(1, 1, minted + 1, minted + 2)])
  }

  function GoalAt(goals: seq<string>, i: nat): Option<string> {
    if i < |goals| then Some(goals[i]) else None
  }

  function CreateInitialState(args: Args): State {
    var mode := if |args.legGoals| == 0 then Dynamic else Predefined;
    var first := if mode == Dynamic then args.pursuitGoal else args.legGoals[0];
    var next := if mode == Predefined then GoalAt(args.legGoals, 1) else None;
    State(0, false, Live, Pursuit(args.pursuitGoal, mode, args.legGoals, Running),
          [CreateLeg(LegInit(1, first, next, args.maxAttempts), 0)], [], 3)
  }

  // ----- item store of one leg ----------------------------------------------

  predicate InLeg(leg: Leg, j: int, k: int) {
    0 <= j < |leg.attempts| && 0 <= k < |leg.attempts[j].workItems|
  }

  function Item(leg: Leg, j: int, k: int): WorkItem
    requires InLeg(leg, j, k)
  {
    leg.attempts[j].workItems[k]
  }

  function SetItem(leg: Leg, j: int, k: int, item: WorkItem): Leg
    requires InLeg(leg, j, k)
  {
    var attempt := leg.attempts[j];
    leg.(attempts := leg.attempts[j := attempt.(workItems := attempt.workItems[k := item])])
  }

  predicate Matches(item: WorkItem, version: nat, id: string) {
    item.id == id && item.legGoalVersion == version
  }

  /** Index of the first matching item, or the length when there is none. */
  function FirstMatch(items: seq<WorkItem>, version: nat, id: string): (k: nat)
    ensures k <= |items|
    ensures k < |items| ==> Matches(items[k], version, id)
    ensures forall t :: 0 <= t < k ==> !Matches(items[t], version, id)
  {
    if items == [] || Matches(items[0], version, id) then 0
    else 1 + FirstMatch(items[1..], version, id)
  }

  datatype Position = Position(attempt: nat, item: nat)

  /** First matching item over all attempts in order. */
  function Locate(attempts: seq<Attempt>, version: nat, id: string): (at: Option<Position>)
    ensures at.Some? ==>
      at.value.attempt < |attempts| &&
      at.value.item < |attempts[at.value.attempt].workItems| &&
      Matches(attempts[at.value.attempt].workItems[at.value.item], version, id)
    ensures at.None? ==>
      forall j, k :: 0 <= j < |attempts| && 0 <= k < |attempts[j].workItems| ==>
        !Matches(attempts[j].workItems[k], version, id)
  {
    if attempts == [] then None
    else
      var k := FirstMatch(attempts[0].workItems, version, id);
      if k < |attempts[0].workItems| then Some(Position(0, k))
      else
        match Locate(attempts[1..], version, id)
        case None =>
          assert forall j, k' :: 0 <= j < |attempts| && 0 <= k' < |attempts[j].workItems| ==>
            !Matches(attempts[j].workItems[k'], version, id) by {
            forall j, k' | 0 <= j < |attempts| && 0 <= k' < |attempts[j].workItems|
              ensures !Matches(attempts[j].workItems[k'], version, id)
            {
              if j > 0 { assert attempts[j] == attempts[1..][j - 1]; }
            }
          }
          None
        case Some(p) => Some(Position(p.attempt + 1, p.item))
  }

  function DependencyStatus(leg: Leg, version: nat, id: string): Option<RunStatus> {
    match Locate(leg.attempts, version, id)
    case None => None
    case Some(p) => Some(Item(leg, p.attempt, p.item).status)
  }

  predicate DependencyBlocks(status: Option<RunStatus>) {
    status == Some(Failed) || status == Some(Blocked)
  }

  predicate DependenciesSucceeded(leg: Leg, item: WorkItem) {
    forall d :: d in item.dependsOn ==> DependencyStatus(leg, item.legGoalVersion, d) == Some(Success)
  }

  /** The dependencies among `deps` that failed or are blocked, in order. */
  function Blockers(leg: Leg, version: nat, deps: seq<string>): (r: seq<string>)
    ensures forall d :: d in r <==> d in deps && DependencyBlocks(DependencyStatus(leg, version, d))
  {
    if deps == [] then []
    else if DependencyBlocks(DependencyStatus(leg, version, deps[0]))
    then [deps[0]] + Blockers(leg, version, deps[1..])
    else Blockers(leg, version, deps[1..])
  }

  predicate HasBadDependency(leg: Leg, item: WorkItem) {
    Blockers(leg, item.legGoalVersion, item.dependsOn) != []
  }

  function UuidText(u: Uuid): string { Dec(u) }

  function WorkItemKey(legId: string, legGoalVersion: nat, itemId: string): string {
    legId + [':'] + (Dec(legGoalVersion) + [':'] + itemId)
  }

  /** Keys identify (leg, version, item), for leg ids written without a colon. */
  lemma WorkItemKeyInjective(l1: string, v1: nat, i1: string, l2: string, v2: nat, i2: string)
    requires ':' !in l1 && ':' !in l2
    ensures WorkItemKey(l1, v1, i1) == WorkItemKey(l2, v2, i2) <==> l1 == l2 && v1 == v2 && i1 == i2
  {
    if WorkItemKey(l1, v1, i1) == WorkItemKey(l2, v2, i2) {
      SplitAtSeparator(l1, l2, ':', Dec(v1) + [':'] + i1, Dec(v2) + [':'] + i2);
      SplitAtSeparator(Dec(v1), Dec(v2), ':', i1, i2);
      DecInjective(v1, v2);
    }
  }

  /** Without that condition two different items can share a key. */
  lemma WorkItemKeyCollidesWithColons()
    ensures WorkItemKey("a:1", 2, "x") == WorkItemKey("a", 1, "2:x")
  {
    assert Dec(1) == "1" && Dec(2) == "2";
    assert "a:1" + [':'] + (Dec(2) + [':'] + "x") == "a:1:2:x";
    assert "a" + [':'] + (Dec(1) + [':'] + "2:x") == "a:1:2:x";
  }

  // ----- runtime view and dispatch -------------------------------------------

  datatype Metadata =
    | PlannerRole(legId: Uuid, attemptId: Uuid, planId: Uuid, attempt: nat)
    | WorkerRole(legId: Uuid, attemptId: Uuid, workItemId: string, workItemKey: string, attempt: nat)

  datatype RunningNodes = RunningNodes(plans: set<Uuid>, workItems: set<string>)

  function EffectiveStatus(item: WorkItem, running: RunningNodes): RunStatus {
    if item.status == NotStarted && item.key in running.workItems then Running else item.status
  }

  predicate Ready(leg: Leg, item: WorkItem, running: RunningNodes) {
    item.status == NotStarted && item.key !in running.workItems && DependenciesSucceeded(leg, item)
  }

  function WorkerMeta(leg: Leg, attempt: Attempt, item: WorkItem): Metadata {
    WorkerRole(leg.id, attempt.id, item.id, item.key, attempt.sequence)
  }

  function PlannerMeta(leg: Leg, attempt: Attempt): Metadata {
    PlannerRole(leg.id, attempt.id, attempt.plan.id, attempt.sequence)
  }

  function WorkerDispatches(leg: Leg, attempt: Attempt, items: seq<WorkItem>,
      running: RunningNodes): (ds: seq<Metadata>)
    ensures forall d :: d in ds <==>
        exists k :: 0 <= k < |items| && Ready(leg, items[k], running) && d == WorkerMeta(leg, attempt, items[k])
  {
    if items == [] then []
    else
      var last := items[|items| - 1];
      var front := WorkerDispatches(leg, attempt, items[..|items| - 1], running);
      if Ready(leg, last, running) then front + [WorkerMeta(leg, attempt, last)] else front
  }

  function LegDispatches(leg: Leg, running: RunningNodes, bound: bool): seq<Metadata> {
    if leg.status != Running || |leg.attempts| == 0 then []
    else
      var attempt := leg.attempts[|leg.attempts| - 1];
      if attempt.status != Running then []
      else if attempt.plan.status == NotStarted then
        if attempt.plan.id in running.plans || !bound then [] else [PlannerMeta(leg, attempt)]
      else if attempt.plan.status != Success || !bound then []
      else WorkerDispatches(leg, attempt, attempt.workItems, running)
  }

  function AllDispatches(legs: seq<Leg>, running: RunningNodes, bound: bool): seq<Metadata> {
    if legs == [] then []
    else AllDispatches(legs[..|legs| - 1], running, bound) + LegDispatches(legs[|legs| - 1], running, bound)
  }

  /** Nodes to launch now; `bound` says that both role bindings are configured. */
  function Dispatches(s: State, running: RunningNodes, bound: bool): seq<Metadata> {
    if s.done then [] else AllDispatches(s.legs, running, bound)
  }

  // ----- settlements ----------------------------------------------------------

  datatype ItemSpec = ItemSpec(id: string, dependsOn: seq<string>)

  datatype PlannerPayload = PlannerPayload(
    summary: string,
    legGoal: Option<string>,
    nextLegGoal: Option<string>,
    workItems: seq<ItemSpec>)

  datatype WorkerPayload = WorkerPayload(summary: string, isPass: bool, outcome: string)

  /** `Malformed` is any payload that fits neither schema. */
  datatype Payload = PlannerOutcome(plan: PlannerPayload) | WorkerOutcome(work: WorkerPayload) | Malformed

  predicate NonEmpty(s: string) { |s| >= 1 }

  predicate PlannerSchema(p: PlannerPayload) {
    && NonEmpty(p.summary)
    && (p.legGoal.Some? ==> NonEmpty(p.legGoal.value))
    && (p.nextLegGoal.Some? ==> NonEmpty(p.nextLegGoal.value))
    && |p.workItems| >= 1
    && forall i :: 0 <= i < |p.workItems| ==>
         NonEmpty(p.workItems[i].id) && forall d :: d in p.workItems[i].dependsOn ==> NonEmpty(d)
  }

  predicate WorkerSchema(w: WorkerPayload) {
    NonEmpty(w.summary) && NonEmpty(w.outcome)
  }

  /** The outcome schema each role's node is launched with. */
  predicate FitsSchema(meta: Metadata, payload: Payload) {
    match meta
    case PlannerRole(_, _, _, _) => payload.PlannerOutcome? && PlannerSchema(payload.plan)
    case WorkerRole(_, _, _, _, _) => payload.WorkerOutcome? && WorkerSchema(payload.work)
  }

  datatype Settlement =
    | Completed(payload: Payload)
    | NodeRejected(reason: string)
    | NodeCancelled(cause: Option<string>)
    | NodeFailed(reason: string)

  function SettlementFailure(st: Settlement, role: string): string {
    match st
    case Completed(_) => role + " completed"
    case NodeCancelled(r) => role + " cancelled: " + (if r.Some? then r.value else "cancelled")
    case NodeRejected(r) => role + " rejected: " + r
    case NodeFailed(r) => role + " failed: " + r
  }

  function LegIndex(legs: seq<Leg>, id: Uuid): (i: nat)
    ensures i <= |legs|
    ensures i < |legs| ==> legs[i].id == id
    ensures forall t :: 0 <= t < i ==> legs[t].id != id
  {
    if legs == [] || legs[0].id == id then 0 else 1 + LegIndex(legs[1..], id)
  }

  function AttemptIndex(attempts: seq<Attempt>, id: Uuid): (j: nat)
    ensures j <= |attempts|
    ensures j < |attempts| ==> attempts[j].id == id
    ensures forall t :: 0 <= t < j ==> attempts[t].id != id
  {
    if attempts == [] || attempts[0].id == id then 0 else 1 + AttemptIndex(attempts[1..], id)
  }

  function ItemIndex(items: seq<WorkItem>, id: string, key: string): (k: nat)
    ensures k <= |items|
    ensures k < |items| ==> items[k].id == id && items[k].key == key
    ensures forall t :: 0 <= t < k ==> !(items[t].id == id && items[t].key == key)
  {
    if items == [] || (items[0].id == id && items[0].key == key) then 0
    else 1 + ItemIndex(items[1..], id, key)
  }

  datatype Place = Place(leg: nat, attempt: nat)

  function FindAttempt(s: State, meta: Metadata): (at: Option<Place>)
    ensures at.Some? ==> at.value.leg < |s.legs| && at.value.attempt < |s.legs[at.value.leg].attempts|
  {
    var i := LegIndex(s.legs, meta.legId);
    if i == |s.legs| then None
    else
      var j := AttemptIndex(s.legs[i].attempts, meta.attemptId);
      if j == |s.legs[i].attempts| then None else Some(Place(i, j))
  }

  // ----- plan validation -------------------------------------------------------

  datatype SubmissionError =
    | PredefinedGoalsLocked
    | DuplicateId(id: string)
    | DuplicateIdInVersion(id: string)
    | ReplacementDependsOnPrior
    | UnknownDependency(item: string, dependency: string)
    | FutureDependency(item: string, dependency: string)
    | SupersededDependency(item: string, dependency: string)
    | DependencyCycle

  function PayloadNodes(items: seq<ItemSpec>): (nodes: seq<Node>)
    ensures |nodes| == |items|
    ensures forall i :: 0 <= i < |items| ==> nodes[i] == Node(items[i].id, items[i].dependsOn)
  {
    seq(|items|, i requires 0 <= i < |items| => Node(items[i].id, items[i].dependsOn))
  }

  function SpecIds(items: seq<ItemSpec>): set<string> {
    set i | 0 <= i < |items| :: items[i].id
  }

  /** An item of this leg that carries `id` and belongs to the leg's current goal. */
  predicate CurrentEntry(leg: Leg, j: int, k: int, id: string)
    requires InLeg(leg, j, k)
  {
    leg.attempts[j].isConsistentWithLegGoal && Matches(Item(leg, j, k), leg.legGoalVersion, id)
  }

  predicate InCurrentVersion(leg: Leg, id: string) {
    exists j, k :: 0 <= j < |leg.attempts| && 0 <= k < |leg.attempts[j].workItems| && CurrentEntry(leg, j, k, id)
  }

  /** As above, in an attempt before the one with sequence number `sequence`. */
  predicate EarlierInCurrentVersion(leg: Leg, sequence: nat, id: string) {
    exists j, k :: 0 <= j < |leg.attempts| && 0 <= k < |leg.attempts[j].workItems| &&
      leg.attempts[j].sequence < sequence && CurrentEntry(leg, j, k, id)
  }

  function FirstDuplicate(items: seq<ItemSpec>, n: nat): (e: Option<SubmissionError>)
    requires n <= |items|
    ensures e.None? <==> forall a, b :: 0 <= a < b < n ==> items[a].id != items[b].id
  {
    if n == 0 then None
    else
      match FirstDuplicate(items, n - 1)
      case Some(err) => Some(err)
      case None => if items[n - 1].id in SpecIds(items[..n - 1]) then Some(DuplicateId(items[n - 1].id)) else None
  }

  function FirstClash(leg: Leg, items: seq<ItemSpec>): (e: Option<SubmissionError>)
    ensures e.None? <==> forall i :: 0 <= i < |items| ==> !InCurrentVersion(leg, items[i].id)
  {
    if items == [] then None
    else if InCurrentVersion(leg, items[0].id) then Some(DuplicateIdInVersion(items[0].id))
    else FirstClash(leg, items[1..])
  }

  /** Sequence number of the attempt holding the first item with this id, of any version. */
  function FirstHolder(attempts: seq<Attempt>, id: string): (sequence: Option<nat>)
    ensures sequence.None? <==>
      forall j, k :: 0 <= j < |attempts| && 0 <= k < |attempts[j].workItems| ==> attempts[j].workItems[k].id != id
  {
    if attempts == [] then None
    else if exists k :: 0 <= k < |attempts[0].workItems| && attempts[0].workItems[k].id == id
    then Some(attempts[0].sequence)
    else
      assert forall j, k :: 0 < j < |attempts| && 0 <= k < |attempts[j].workItems| ==>
        attempts[j].workItems[k] == attempts[1..][j - 1].workItems[k];
      assert forall j, k :: 0 <= j < |attempts[1..]| && 0 <= k < |attempts[1..][j].workItems| ==>
        attempts[1..][j].workItems[k] == attempts[j + 1].workItems[k];
      FirstHolder(attempts[1..], id)
  }

  function DependencyError(leg: Leg, sequence: nat, refocus: bool, ids: set<string>, item: string,
      d: string): (e: Option<SubmissionError>)
    ensures e.None? <==> d in ids || (!refocus && EarlierInCurrentVersion(leg, sequence, d))
  {
    if d in ids then None
    else if refocus then Some(ReplacementDependsOnPrior)
    else
      var holder := FirstHolder(leg.attempts, d);
      if holder.None? then Some(UnknownDependency(item, d))
      else if EarlierInCurrentVersion(leg, sequence, d) then None
      else if holder.value >= sequence then Some(FutureDependency(item, d))
      else Some(SupersededDependency(item, d))
  }

  function FirstBadDependency(leg: Leg, sequence: nat, refocus: bool, ids: set<string>, item: string,
      deps: seq<string>): (e: Option<SubmissionError>)
    ensures e.None? <==> forall d :: d in deps ==> d in ids || (!refocus && EarlierInCurrentVersion(leg, sequence, d))
  {
    if deps == [] then None
    else
      var e := DependencyError(leg, sequence, refocus, ids, item, deps[0]);
      if e.Some? then e else FirstBadDependency(leg, sequence, refocus, ids, item, deps[1..])
  }

  function FirstBadItem(leg: Leg, sequence: nat, refocus: bool, ids: set<string>,
      items: seq<ItemSpec>): (e: Option<SubmissionError>)
    ensures e.None? <==> forall i, d :: 0 <= i < |items| && d in items[i].dependsOn ==>
      d in ids || (!refocus && EarlierInCurrentVersion(leg, sequence, d))
  {
    if items == [] then None
    else
      var e := FirstBadDependency(leg, sequence, refocus, ids, items[0].id, items[0].dependsOn);
      if e.Some? then e else FirstBadItem(leg, sequence, refocus, ids, items[1..])
  }

  function PlannerSubmissionError(mode: LegGoalMode, leg: Leg, sequence: nat,
      p: PlannerPayload): Option<SubmissionError> {
    if mode == Predefined && (p.legGoal.Some? || p.nextLegGoal.Some?) then Some(PredefinedGoalsLocked)
    else
      var dup := FirstDuplicate(p.workItems, |p.workItems|);
      if dup.Some? then dup
      else
        var clash := if p.legGoal.None? then FirstClash(leg, p.workItems) else None;
        if clash.Some? then clash
        else
          var bad := FirstBadItem(leg, sequence, p.legGoal.Some?, SpecIds(p.workItems), p.workItems);
          if bad.Some? then bad
          else if Search(PayloadNodes(p.workItems)).cycle then Some(DependencyCycle)
          else None
  }

  /** A plan is fit for an attempt when its ids are new and distinct, every dependency is
      part of the plan or of earlier work under the current goal, and the plan's own
      dependencies are acyclic. A replaced goal starts from nothing. */
  ghost predicate PlanFits(mode: LegGoalMode, leg: Leg, sequence: nat, p: PlannerPayload) {
    && (mode == Predefined ==> p.legGoal.None? && p.nextLegGoal.None?)
    && (forall a, b :: 0 <= a < b < |p.workItems| ==> p.workItems[a].id != p.workItems[b].id)
    && (p.legGoal.None? ==> forall i :: 0 <= i < |p.workItems| ==> !InCurrentVersion(leg, p.workItems[i].id))
    && (forall i, d :: 0 <= i < |p.workItems| && d in p.workItems[i].dependsOn ==>
          d in SpecIds(p.workItems) || (p.legGoal.None? && EarlierInCurrentVersion(leg, sequence, d)))
    && !HasCycle(GraphOf(PayloadNodes(p.workItems)))
  }

  lemma PlanAcceptedExactlyWhenFit(mode: LegGoalMode, leg: Leg, sequence: nat, p: PlannerPayload)
    ensures PlannerSubmissionError(mode, leg, sequence, p).None? <==> PlanFits(mode, leg, sequence, p)
  {
    SearchIsExact(PayloadNodes(p.workItems));
  }
}
