/** The main results about pursuit runs. */
module PursuitTheorems {
  import opened Text
  import opened DependencyGraph
  import opened PursuitState
  import opened PursuitProgress
  import opened PursuitInvariant
  import opened PursuitSteps
  import opened PursuitClosing
  import opened PursuitReconcile
  import opened PursuitApply
  import opened WorkflowRun
  import opened WorkflowSafety
  import opened WorkflowInvariant

  // `Exec(args, bound, ops)` ranges over every reachable run: `ops` is an arbitrary sequence
  // of submissions, reports and interrupts.

  // ----- liveness of the schedule -----------------------------------------------------

  /** With both roles bound, a run never reports a deadlock, and until it is finished some
      node is running and nothing that is ready waits for a launch. */
  lemma NeverDeadlocks(args: Args, ops: seq<Op>)
    requires ValidArgs(args)
    ensures var run := Exec(args, true, ops);
      && run.state.workflowStatus != Deadlocked
      && run.finished != Some(DeadlockOutcome)
      && WorkflowDeadlocked !in run.timeline
      && (run.finished.None? ==> AnyRunning(run.nodes) && Dispatches(run.state, RunningOf(run.nodes), true) == [])
  {
    hide Exec;
    ExecKeepsInv(args, ops);
  }

  lemma {:induction false} UnboundStaysDeadlocked(args: Args, ops: seq<Op>)
    ensures Exec(args, false, ops) == StartRun(args, false)
    ensures Exec(args, false, ops).finished == Some(DeadlockOutcome)
  {
    ExecUnfolds(args, false, ops);
    hide RunningOf;
    if ops == [] {
      var s := CreateInitialState(args);
      assert AllDispatches(s.legs, RunningOf([]), false) == AllDispatches(s.legs[..0], RunningOf([]), false) + [];
    } else {
      UnboundStaysDeadlocked(args, ops[..|ops| - 1]);
    }
  }

  /** A run ends in deadlock exactly when a role has no node to run it. */
  lemma DeadlocksExactlyWhenUnbound(args: Args, bound: bool, ops: seq<Op>)
    requires ValidArgs(args)
    ensures Exec(args, bound, ops).finished == Some(DeadlockOutcome) <==> !bound
  {
    if bound { NeverDeadlocks(args, ops); } else { UnboundStaysDeadlocked(args, ops); }
  }

  // ----- dependency discipline -----------------------------------------------------------

  /** Every worker ever launched had its dependencies succeeded, and they still are. */
  lemma WorkersRunAfterDependencies(args: Args, ops: seq<Op>, e: nat)
    requires ValidArgs(args) && e < |Exec(args, true, ops).nodes|
    requires Exec(args, true, ops).nodes[e].meta.WorkerRole?
    ensures var run := Exec(args, true, ops);
      exists i, j, k :: 0 <= i < |run.state.legs| && InLeg(run.state.legs[i], j, k) &&
        LaunchedFor(run.state.legs[i], Item(run.state.legs[i], j, k), run.nodes[e].meta)
  {
    hide Exec;
    ExecKeepsInv(args, ops);
    assert LaunchedReady(Exec(args, true, ops).state, Exec(args, true, ops).nodes[e].meta);
  }

  /** What an item settled to, it keeps in every later state. */
  lemma SettledItemsStay(args: Args, ops: seq<Op>, more: seq<Op>, i: nat, j: nat, k: nat)
    requires ValidArgs(args)
    requires i < |Exec(args, true, ops).state.legs| && InLeg(Exec(args, true, ops).state.legs[i], j, k)
    requires Item(Exec(args, true, ops).state.legs[i], j, k).status != NotStarted
    ensures var later := Exec(args, true, ops + more).state;
      i < |later.legs| && InLeg(later.legs[i], j, k) &&
      Item(later.legs[i], j, k) == Item(Exec(args, true, ops).state.legs[i], j, k)
  {
    hide Exec;
    ExecExtends(args, ops, more);
    var a, b := Exec(args, true, ops).state, Exec(args, true, ops + more).state;
    assert LegExtends(a.legs[i], b.legs[i]);
    assert AttemptExtends(a.legs[i].attempts[j], b.legs[i].attempts[j]);
    assert ItemExtends(Item(a.legs[i], j, k), Item(b.legs[i], j, k));
  }

  /** One step along a dependency: the first item depends on the second. */
  ghost predicate DependsOn(leg: Leg, from: (int, int), to: (int, int)) {
    && InLeg(leg, from.0, from.1) && InLeg(leg, to.0, to.1)
    && Item(leg, to.0, to.1).id in Item(leg, from.0, from.1).dependsOn
    && Item(leg, to.0, to.1).legGoalVersion == Item(leg, from.0, from.1).legGoalVersion
  }

  ghost predicate DependencyPath(leg: Leg, p: seq<(int, int)>) {
    |p| >= 2 && forall i :: 0 <= i < |p| - 1 ==> DependsOn(leg, p[i], p[i + 1])
  }

  ghost predicate LeadsToFailure(leg: Leg, p: seq<(int, int)>) {
    DependencyPath(leg, p) && DependsOn(leg, p[|p| - 2], p[|p| - 1]) &&
    Item(leg, p[|p| - 1].0, p[|p| - 1].1).status == Failed
  }

  /** A path of dependencies leads from the item to one that failed. */
  ghost predicate ReachesFailure(leg: Leg, j: int, k: int) {
    exists p :: LeadsToFailure(leg, p) && p[0] == (j, k)
  }

  lemma {:induction false} PathBlocks(leg: Leg, p: seq<(int, int)>)
    requires LegShape(leg) && Sound(leg) && Spread(leg) && LeadsToFailure(leg, p)
    ensures InLeg(leg, p[0].0, p[0].1) && Item(leg, p[0].0, p[0].1).status == Blocked
    decreases |p|
  {
    assert DependsOn(leg, p[0], p[1]);
    var item, next := Item(leg, p[0].0, p[0].1), Item(leg, p[1].0, p[1].1);
    if |p| > 2 {
      var rest := p[1..];
      forall i | 0 <= i < |rest| - 1 ensures DependsOn(leg, rest[i], rest[i + 1]) {
        assert DependsOn(leg, p[i + 1], p[i + 2]);
      }
      PathBlocks(leg, rest);
    }
    LookupAt(leg, p[1].0, p[1].1);
    assert DependencyBlocks(DependencyStatus(leg, item.legGoalVersion, next.id));
    BadDependencyWitness(leg, item);
    assert SoundItem(leg, item);
    assert !DependenciesSucceeded(leg, item);
    assert AttemptFits(leg, p[0].0) && ItemFits(leg, leg.attempts[p[0].0], item);
  }

  lemma BadDependencyStep(leg: Leg, j: int, k: int, order: seq<string>, q: nat) returns (a: int, b: int)
    requires LegShape(leg) && InLeg(leg, j, k) && HasBadDependency(leg, Item(leg, j, k))
    requires Topological(GraphOf(ItemNodes(leg.attempts[j].workItems)), order)
    requires q < |order| && Item(leg, j, k).id == order[q]
    ensures DependsOn(leg, (j, k), (a, b)) && Item(leg, a, b).status in {Failed, Blocked}
    ensures a < j || (a == j && Item(leg, a, b).id in order[..q])
  {
    var item := Item(leg, j, k);
    BadDependencyWitness(leg, item);
    var d :| d in item.dependsOn && DependencyBlocks(DependencyStatus(leg, item.legGoalVersion, d));
    a, b := LookupFound(leg, item.legGoalVersion, d);
    assert ResolvesBefore(leg, j, item.legGoalVersion, d);
    var j2, k2 :| InLeg(leg, j2, k2) && j2 <= j && Matches(Item(leg, j2, k2), item.legGoalVersion, d);
    assert Item(leg, a, b).id == Item(leg, j2, k2).id;
    if a == j { DependencyComesFirst(leg, j, order, q, k, d, b); }
  }

  lemma PlanOrder(leg: Leg, j: int, k: int) returns (order: seq<string>, q: nat)
    requires LegShape(leg) && InLeg(leg, j, k)
    ensures Topological(GraphOf(ItemNodes(leg.attempts[j].workItems)), order)
    ensures q < |order| && Item(leg, j, k).id == order[q]
  {
    assert AttemptFits(leg, j);
    var nodes := ItemNodes(leg.attempts[j].workItems);
    order :| Topological(GraphOf(nodes), order);
    assert nodes[k].id in GraphOf(nodes);
    q :| 0 <= q < |order| && order[q] == nodes[k].id;
  }

  lemma BlockedHasBadDependency(leg: Leg, j: int, k: int)
    requires Sound(leg) && InLeg(leg, j, k) && Item(leg, j, k).status == Blocked
    ensures HasBadDependency(leg, Item(leg, j, k))
  {
    assert SoundItem(leg, Item(leg, j, k));
  }

  lemma SingleStep(leg: Leg, x: (int, int), y: (int, int))
    requires DependsOn(leg, x, y) && Item(leg, y.0, y.1).status == Failed
    ensures LeadsToFailure(leg, [x, y])
  {
  }

  lemma OneStepMore(leg: Leg, x: (int, int), rest: seq<(int, int)>)
    requires LeadsToFailure(leg, rest) && DependsOn(leg, x, rest[0])
    ensures LeadsToFailure(leg, [x] + rest)
  {
    var p := [x] + rest;
    forall i | 0 <= i < |p| - 1 ensures DependsOn(leg, p[i], p[i + 1]) {
      if i > 0 { assert DependsOn(leg, rest[i - 1], rest[i]); }
    }
  }

  lemma {:induction false} BlockedHasPath(leg: Leg, j: int, k: int, order: seq<string>,
      q: nat) returns (p: seq<(int, int)>)
    requires LegShape(leg) && Sound(leg) && InLeg(leg, j, k) && Item(leg, j, k).status == Blocked
    requires Topological(GraphOf(ItemNodes(leg.attempts[j].workItems)), order)
    requires q < |order| && Item(leg, j, k).id == order[q]
    ensures LeadsToFailure(leg, p) && p[0] == (j, k)
    decreases j, q
  {
    hide LegShape;
    hide Sound;
    hide HasBadDependency;
    hide DependencyPath;
    BlockedHasBadDependency(leg, j, k);
    var a, b := BadDependencyStep(leg, j, k, order, q);
    if Item(leg, a, b).status == Failed {
      p := [(j, k), (a, b)];
      SingleStep(leg, (j, k), (a, b));
    } else {
      var rest;
      if a == j {
        var q2 :| 0 <= q2 < q && order[..q][q2] == Item(leg, a, b).id;
        rest := BlockedHasPath(leg, a, b, order, q2);
      } else {
        var order2, q2 := PlanOrder(leg, a, b);
        rest := BlockedHasPath(leg, a, b, order2, q2);
      }
      p := [(j, k)] + rest;
      OneStepMore(leg, (j, k), rest);
    }
  }

  lemma ClosedLegIsSpread(leg: Leg)
    requires LegWon(leg) || LegLost(leg)
    ensures Spread(leg)
  {
    forall j, k | InLeg(leg, j, k) ensures Item(leg, j, k).status != NotStarted {
      if j < |leg.attempts| - 1 { assert Spent(leg.attempts[j]); }
      assert leg.attempts[j].workItems[k] == Item(leg, j, k);
    }
  }

  lemma ReachableLeg(args: Args, ops: seq<Op>, i: nat)
    requires ValidArgs(args) && i < |Exec(args, true, ops).state.legs|
    ensures var leg := Exec(args, true, ops).state.legs[i]; LegShape(leg) && Sound(leg) && Spread(leg)
  {
    hide Exec;
    ExecKeepsInv(args, ops);
    var s := Exec(args, true, ops).state;
    var leg := s.legs[i];
    if LegWon(leg) || LegLost(leg) { ClosedLegIsSpread(leg); }
    assert i < |s.legs| - 1 ==> LegWon(s.legs[i]);
  }

  /** In every reachable state an item is blocked exactly when a path of dependencies leads
      from it to a failed item. */
  lemma BlockedExactlyBelowFailures(args: Args, ops: seq<Op>, i: nat, j: nat, k: nat)
    requires ValidArgs(args)
    requires i < |Exec(args, true, ops).state.legs| && InLeg(Exec(args, true, ops).state.legs[i], j, k)
    ensures var leg := Exec(args, true, ops).state.legs[i];
      Item(leg, j, k).status == Blocked <==> ReachesFailure(leg, j, k)
  {
    hide Exec;
    var leg := Exec(args, true, ops).state.legs[i];
    ReachableLeg(args, ops, i);
    if Item(leg, j, k).status == Blocked {
      var order, q := PlanOrder(leg, j, k);
      var p := BlockedHasPath(leg, j, k, order, q);
    }
    if ReachesFailure(leg, j, k) {
      var p :| LeadsToFailure(leg, p) && p[0] == (j, k);
      PathBlocks(leg, p);
    }
  }

  // ----- reconciling twice ------------------------------------------------------------------

  lemma {:induction false} NothingToSweepItems(leg: Leg, j: nat, k: nat, running: RunningNodes)
    requires Spread(leg) && j < |leg.attempts|
    ensures SweepItems(leg, j, k, running) == leg
    decreases |leg.attempts[j].workItems| - k
  {
    if k < |leg.attempts[j].workItems| {
      assert !Blockable(leg, Item(leg, j, k), running);
      NothingToSweepItems(leg, j, k + 1, running);
    }
  }

  lemma {:induction false} NothingToSweep(leg: Leg, j: nat, running: RunningNodes)
    requires Spread(leg)
    ensures SweepAttempts(leg, j, running) == leg
    decreases |leg.attempts| - j
  {
    if j < |leg.attempts| {
      NothingToSweepItems(leg, j, 0, running);
      NothingToSweep(leg, j + 1, running);
    }
  }

  lemma SettledLegHasNoVerdict(leg: Leg, running: RunningNodes)
    requires LegSettled(leg)
    ensures AttemptVerdict(Last(leg.attempts), running) == None
  {
    var attempt := Last(leg.attempts);
    assert AttemptFits(leg, |leg.attempts| - 1);
    if attempt.plan.status == Success {
      var k :| 0 <= k < |attempt.workItems| && attempt.workItems[k].status == NotStarted;
      assert EffectiveStatus(attempt.workItems[k], running) in {NotStarted, Running};
    }
  }

  /** An open pursuit is a fixpoint: reconciling it again changes nothing, whatever runs. */
  lemma OpenIsReconciled(s: State, running: RunningNodes, args: Args)
    requires Open(s, args)
    ensures Reconcile(s, running) == Applied(s, false)
  {
    hide SweepAttempts;
    var n := |s.legs| - 1;
    NothingToSweep(s.legs[n], 0, running);
    SettledLegHasNoVerdict(s.legs[n], running);
    assert SetLeg(s, n, s.legs[n]) == s;
    ReconcileLast(s, running);
    hide LegSettled;
    hide PursuitShape;
    hide LegShape;
    hide AttemptVerdict;
    hide LegWon;
  }

  lemma ReconcileIsIdempotent(m: State, running: RunningNodes, running': RunningNodes, args: Args)
    requires Unreconciled(m, args) && RunningReady(Last(m.legs), running)
    ensures var r := Reconcile(m, running).state; Reconcile(r, running') == Applied(r, false)
  {
    ReconcileSettles(m, running, args);
    var r := Reconcile(m, running).state;
    if !r.done { OpenIsReconciled(r, running', args); }
  }

  // ----- termination ---------------------------------------------------------------------------

  /** The run after the first `t` operations of an endless sequence. */
  function RunAt(args: Args, ops: nat -> Op, t: nat): Run {
    Exec(args, true, seq(t, i requires 0 <= i < t => ops(i)))
  }

  lemma RunAtNext(args: Args, ops: nat -> Op, t: nat)
    ensures RunAt(args, ops, t + 1) == Step(RunAt(args, ops, t), ops(t), true)
  {
    hide Step;
    var front := seq(t, i requires 0 <= i < t => ops(i));
    assert seq(t + 1, i requires 0 <= i < t + 1 => ops(i)) == front + [ops(t)];
    ExecOneMore(args, true, front, ops(t));
  }

  /** From time `u` on no settlement reaches the pursuit. */
  ghost predicate QuietFrom(args: Args, ops: nat -> Op, u: nat) {
    forall v: nat :: v >= u ==> RunAt(args, ops, v).applied == RunAt(args, ops, u).applied
  }

  lemma RunAtKeepsInv(args: Args, ops: nat -> Op, t: nat)
    requires ValidArgs(args)
    ensures RunInv(RunAt(args, ops, t), args)
  {
    hide RunInv;
    hide Exec;
    ExecKeepsInv(args, seq(t, i requires 0 <= i < t => ops(i)));
  }

  lemma FinishedRunRefuses(a: Run, op: Op, args: Args)
    requires RunInv(a, args) && a.finished.Some?
    ensures Step(a, op, true) == a
  {
    StepKeepsInv(a, op, args);
  }

  lemma {:induction false} FinishedIsQuiet(args: Args, ops: nat -> Op, u: nat, v: nat)
    requires ValidArgs(args) && u <= v && RunAt(args, ops, u).finished.Some?
    ensures RunAt(args, ops, v) == RunAt(args, ops, u)
    decreases v - u
  {
    hide RunAt;
    hide RunInv;
    hide Step;
    if u < v {
      FinishedIsQuiet(args, ops, u, v - 1);
      RunAtKeepsInv(args, ops, v - 1);
      RunAtNext(args, ops, v - 1);
      FinishedRunRefuses(RunAt(args, ops, v - 1), ops(v - 1), args);
    }
  }

  /** An operation either settles one more node, or leaves the pursuit as it is, or ends
      the run. */
  lemma SettlesOrStays(a: Run, op: Op, args: Args)
    requires RunInv(a, args)
    ensures var b := Step(a, op, true);
      || (|b.applied| == |a.applied| + 1 && Descends(a.state, b.state))
      || (b.applied == a.applied && (b.state == a.state || b.finished.Some?))
  {
    hide RunInv;
    hide RunExtends;
    hide Descends;
    hide SubmitCompletion;
    hide ReportSettlement;
    hide InterruptRun;
    match op {
      case Submit(e, payload) => if e < |a.nodes| { SubmitKeepsInv(a, e, payload, args); }
      case Report(e, st) => if e < |a.nodes| { ReportKeepsInv(a, e, st, args); }
      case Interrupt(reason) => InterruptKeepsInv(a, reason, args);
    }
  }

  /** Legs still to be worked on with predefined goals, the current one included. */
  function LegsLeft(s: State, args: Args): nat {
    if s.done || |args.legGoals| < |s.legs| then 0 else |args.legGoals| - |s.legs| + 1
  }

  function AttemptsLeft(s: State, args: Args): nat {
    if |s.legs| == 0 || args.maxAttempts < |s.legs[|s.legs| - 1].attempts| then 0
    else args.maxAttempts - |s.legs[|s.legs| - 1].attempts|
  }

  function PlanPending(s: State): nat {
    if |s.legs| == 0 then 0 else Pending(s.legs[|s.legs| - 1])
  }

  function WaitingCount(s: State): nat {
    if |s.legs| == 0 then 0 else |Waiting(s.legs[|s.legs| - 1])|
  }

  /** (attempts left, plan pending, items waiting) drops in lexicographic order. */
  ghost predicate LegShrinks(a: State, b: State, args: Args) {
    || AttemptsLeft(b, args) < AttemptsLeft(a, args)
    || (AttemptsLeft(b, args) == AttemptsLeft(a, args) && PlanPending(b) < PlanPending(a))
    || (AttemptsLeft(b, args) == AttemptsLeft(a, args) && PlanPending(b) == PlanPending(a) &&
      WaitingCount(b) < WaitingCount(a))
  }

  ghost predicate MeasureDrops(a: State, b: State, args: Args) {
    && (b.done || |b.legs| == |a.legs| + 1 || LegShrinks(a, b, args))
    && (ModeOf(args) == Predefined ==>
          LegsLeft(b, args) < LegsLeft(a, args) || (LegsLeft(b, args) == LegsLeft(a, args) && LegShrinks(a, b, args)))
  }

  lemma DescentDrops(a: Run, b: Run, args: Args)
    requires RunInv(a, args) && RunInv(b, args) && a.finished.None? && Descends(a.state, b.state)
    ensures MeasureDrops(a.state, b.state, args)
  {
    assert LegFollows(Last(a.state.legs), args, |a.state.legs| - 1);
    assert LegFollows(Last(b.state.legs), args, |b.state.legs| - 1);
  }

  /** Whichever node settles: (legs left, attempts left, plan pending, items waiting) drops in
      lexicographic order when the goals are predefined; in either mode the last three drop,
      unless the settlement opens another leg or closes the pursuit. */
  lemma SettlementLowersMeasure(args: Args, ops: seq<Op>, op: Op)
    requires ValidArgs(args)
    requires Exec(args, true, ops + [op]).applied != Exec(args, true, ops).applied
    ensures MeasureDrops(Exec(args, true, ops).state, Exec(args, true, ops + [op]).state, args)
  {
    ExecOneMore(args, true, ops, op);
    hide Exec;
    hide Step;
    ExecKeepsInv(args, ops);
    StepLowersMeasure(Exec(args, true, ops), op, args);
  }

  lemma StepLowersMeasure(a: Run, op: Op, args: Args)
    requires RunInv(a, args) && Step(a, op, true).applied != a.applied
    ensures MeasureDrops(a.state, Step(a, op, true).state, args)
  {
    hide RunInv;
    hide Step;
    hide Descends;
    hide MeasureDrops;
    SettlesOrStays(a, op, args);
    StepKeepsInv(a, op, args);
    if a.finished.Some? { FinishedRunRefuses(a, op, args); }
    DescentDrops(a, Step(a, op, true), args);
  }

  /** The first settlement at or after `t` meets the pursuit as it was at `t`. */
  lemma {:induction false} FirstSettlement(args: Args, ops: nat -> Op, t: nat, v: nat) returns (w: nat)
    requires ValidArgs(args) && t <= v && RunAt(args, ops, v).applied != RunAt(args, ops, t).applied
    ensures t <= w && RunAt(args, ops, w).state == RunAt(args, ops, t).state
    ensures MeasureDrops(RunAt(args, ops, w).state, RunAt(args, ops, w + 1).state, args)
    decreases v - t
  {
    hide RunAt;
    hide RunInv;
    hide Step;
    hide Descends;
    hide MeasureDrops;
    var a, b := RunAt(args, ops, t), RunAt(args, ops, t + 1);
    RunAtNext(args, ops, t);
    RunAtKeepsInv(args, ops, t);
    SettlesOrStays(a, ops(t), args);
    if |b.applied| == |a.applied| + 1 {
      w := t;
      StepLowersMeasure(a, ops(t), args);
    } else if b.finished.Some? {
      FinishedIsQuiet(args, ops, t + 1, v);
      assert false;
    } else {
      w := FirstSettlement(args, ops, t + 1, v);
    }
  }

  lemma DoneIsFinished(run: Run, args: Args)
    requires RunInv(run, args)
    ensures run.state.done <==> run.finished.Some?
  {
  }

  /** Whatever happens from time `t` on, either the settlements stop or another leg opens:
      no leg takes settlements for ever. */
  lemma {:induction false} LegEnds(args: Args, ops: nat -> Op, t: nat) returns (u: nat)
    requires ValidArgs(args)
    ensures u >= t
    ensures QuietFrom(args, ops, u) || |RunAt(args, ops, u).state.legs| == |RunAt(args, ops, t).state.legs| + 1
    decreases AttemptsLeft(RunAt(args, ops, t).state, args), PlanPending(RunAt(args, ops, t).state),
      WaitingCount(RunAt(args, ops, t).state)
  {
    hide RunInv;
    hide RunAt;
    if QuietFrom(args, ops, t) {
      u := t;
    } else {
      var v: nat :| v >= t && RunAt(args, ops, v).applied != RunAt(args, ops, t).applied;
      var w := FirstSettlement(args, ops, t, v);
      u := w + 1;
      var a, b := RunAt(args, ops, w), RunAt(args, ops, u);
      RunAtKeepsInv(args, ops, u);
      DoneIsFinished(b, args);
      if b.finished.Some? {
        forall x: nat | x >= u ensures RunAt(args, ops, x).applied == b.applied { FinishedIsQuiet(args, ops, u, x); }
      } else if |b.state.legs| != |a.state.legs| + 1 {
        SameLeg(args, ops, w);
        u := LegEnds(args, ops, u);
      }
    }
  }

  /** A step that neither closes the pursuit nor opens a leg keeps the number of legs. */
  lemma SameLeg(args: Args, ops: nat -> Op, w: nat)
    requires ValidArgs(args)
    ensures var a, b := RunAt(args, ops, w), RunAt(args, ops, w + 1);
      b.finished.None? && |b.state.legs| != |a.state.legs| + 1 ==> |b.state.legs| == |a.state.legs|
  {
    hide RunAt;
    hide RunInv;
    hide Step;
    var a, b := RunAt(args, ops, w), RunAt(args, ops, w + 1);
    RunAtNext(args, ops, w);
    RunAtKeepsInv(args, ops, w);
    RunAtKeepsInv(args, ops, w + 1);
    DoneIsFinished(b, args);
    SettlesOrStays(a, ops(w), args);
  }

  /** With predefined goals every run, however it is driven, takes finitely many settlements. */
  lemma {:induction false} SettlementsEnd(args: Args, ops: nat -> Op, t: nat) returns (u: nat)
    requires ValidArgs(args) && ModeOf(args) == Predefined
    ensures u >= t && QuietFrom(args, ops, u)
    decreases LegsLeft(RunAt(args, ops, t).state, args), AttemptsLeft(RunAt(args, ops, t).state, args),
              PlanPending(RunAt(args, ops, t).state), WaitingCount(RunAt(args, ops, t).state)
  {
    hide RunAt;
    if QuietFrom(args, ops, t) {
      u := t;
    } else {
      var v: nat :| v >= t && RunAt(args, ops, v).applied != RunAt(args, ops, t).applied;
      var w := FirstSettlement(args, ops, t, v);
      u := SettlementsEnd(args, ops, w + 1);
    }
  }

  // ----- what an outcome means --------------------------------------------------------------------

  lemma WonMeans(s: State, args: Args)
    requires Won(s, args)
    ensures forall i :: 0 <= i < |s.legs| ==> LegWon(s.legs[i])
    ensures ModeOf(args) == Predefined ==> |s.legs| == |args.legGoals| && forall i :: 0 <= i < |s.legs| ==>
        s.legs[i].legGoal == args.legGoals[i]
    ensures ModeOf(args) == Dynamic ==> Last(s.legs).nextLegGoal == None
  {
    assert LegFollows(Last(s.legs), args, |s.legs| - 1);
    forall i | 0 <= i < |s.legs| ensures LegWon(s.legs[i]) && LegFollows(s.legs[i], args, i) {
      assert i < |s.legs| - 1 ==> LegWon(s.legs[i]);
    }
  }

  /** A successful run won every leg; with predefined goals it worked through exactly those
      goals, in order. */
  lemma SuccessMeansAllLegsWon(args: Args, ops: seq<Op>)
    requires ValidArgs(args)
    requires Exec(args, true, ops).finished.Some? && Exec(args, true, ops).finished.value.SuccessOutcome?
    ensures var s := Exec(args, true, ops).state;
      && |s.legs| >= 1
      && s.pursuit.status == Success
      && (forall i :: 0 <= i < |s.legs| ==> LegWon(s.legs[i]))
      && (ModeOf(args) == Predefined ==> |s.legs| == |args.legGoals| && forall i :: 0 <= i < |s.legs| ==>
        s.legs[i].legGoal == args.legGoals[i])
      && (ModeOf(args) == Dynamic ==> Last(s.legs).nextLegGoal == None)
  {
    hide Exec;
    ExecKeepsInv(args, ops);
    WonMeans(Exec(args, true, ops).state, args);
  }

  /** A failed pursuit won its earlier legs and spent the whole attempt budget of its last
      one: every attempt there failed. */
  lemma FailureMeansBudgetSpent(args: Args, ops: seq<Op>)
    requires ValidArgs(args) && Exec(args, true, ops).state.pursuit.status == Failed
    ensures var s := Exec(args, true, ops).state;
      && Exec(args, true, ops).finished == Some(FailureOutcome(s.failures))
      && |s.legs| >= 1
      && (forall i :: 0 <= i < |s.legs| - 1 ==> LegWon(s.legs[i]))
      && |Last(s.legs).attempts| == args.maxAttempts
      && (forall j :: 0 <= j < |Last(s.legs).attempts| ==> Spent(Last(s.legs).attempts[j]))
  {
    hide Exec;
    ExecKeepsInv(args, ops);
    var s := Exec(args, true, ops).state;
    assert LegFollows(Last(s.legs), args, |s.legs| - 1);
    var leg := Last(s.legs);
    forall j | 0 <= j < |leg.attempts| ensures Spent(leg.attempts[j]) {
      assert j < |leg.attempts| - 1 ==> Spent(leg.attempts[j]);
    }
  }

  // ----- exactly-once application ---------------------------------------------------------------------

  /** Each entry's settlement reaches the pursuit at most once; a completed entry's did,
      and its accepted payload is fixed. */
  lemma AppliedAtMostOnce(args: Args, ops: seq<Op>, more: seq<Op>, e: nat)
    requires ValidArgs(args) && e < |Exec(args, true, ops).nodes|
    ensures var a, b := Exec(args, true, ops), Exec(args, true, ops + more);
      && a.applied <= b.applied
      && (forall x, y :: 0 <= x < y < |b.applied| ==> b.applied[x] != b.applied[y])
      && (a.nodes[e].status != EntryRunning ==> e < |b.nodes| && b.nodes[e] == a.nodes[e])
      && (a.nodes[e].status == EntryCompleted ==> e in a.applied && a.nodes[e].accepted.Some?)
  {
    hide Exec;
    ExecKeepsInv(args, ops);
    ExecKeepsInv(args, ops + more);
    ExecExtends(args, ops, more);
  }

  lemma StepAppliesOne(a: Run, op: Op, args: Args)
    requires RunInv(a, args)
    ensures var b := Step(a, op, true);
      b.state.legs == a.state.legs || exists e :: 0 <= e < |a.nodes| && b.applied == a.applied + [e]
  {
    hide RunInv;
    hide RunExtends;
    hide Descends;
    hide SubmitCompletion;
    hide ReportSettlement;
    match op {
      case Submit(e, payload) => if e < |a.nodes| { SubmitKeepsInv(a, e, payload, args); }
      case Report(e, st) => if e < |a.nodes| { ReportKeepsInv(a, e, st, args); }
      case Interrupt(reason) =>
    }
  }

  lemma NewlyApplied(b: Run, before: seq<nat>, e: nat)
    requires LogOk(b) && b.applied == before + [e]
    ensures e !in before
  {
    assert b.applied[|before|] == e;
    forall x | 0 <= x < |before| ensures before[x] != e { assert b.applied[x] == before[x]; }
  }

  /** The pursuit's legs change only in a step that applies one entry's settlement, one that
      was never applied before. */
  lemma LegsChangeOnlyByApplication(args: Args, ops: seq<Op>, op: Op)
    requires ValidArgs(args)
    ensures var a, b := Exec(args, true, ops), Exec(args, true, ops + [op]);
      b.state.legs == a.state.legs || exists e :: 0 <= e < |a.nodes| && e !in a.applied && b.applied == a.applied + [e]
  {
    ExecOneMore(args, true, ops, op);
    hide Exec;
    hide Step;
    hide LogOk;
    hide RunLive;
    hide RunOver;
    ExecKeepsInv(args, ops);
    var a := Exec(args, true, ops);
    StepAppliesOne(a, op, args);
    StepKeepsInv(a, op, args);
    var b := Step(a, op, true);
    if b.state.legs != a.state.legs {
      var e :| 0 <= e < |a.nodes| && b.applied == a.applied + [e];
      NewlyApplied(b, a.applied, e);
    }
  }

  /** Once finished, a run never changes again: no entry, no state, no second finish. */
  lemma FinishedRunIsFinal(args: Args, ops: seq<Op>, more: seq<Op>)
    requires ValidArgs(args) && Exec(args, true, ops).finished.Some?
    ensures Exec(args, true, ops + more) == Exec(args, true, ops)
    ensures NoneRunning(Exec(args, true, ops).nodes)
    ensures forall t :: 0 <= t < |Exec(args, true, ops).timeline| - 1 ==>
        Exec(args, true, ops).timeline[t] != WorkflowFinished
  {
    hide Exec;
    ExecKeepsInv(args, ops);
    ExecExtends(args, ops, more);
  }

  /** How an agent node settles after its run completed with `outcome`: it submits the
      outcome again, although the run's own submission may already have been accepted. */
  datatype NodeSettlement = NodeDone(payload: Payload) | NodeRefused(reason: Rejection)

  function SettleAgentNode(run: Run, e: nat, outcome: Payload): NodeSettlement
    requires e < |run.nodes|
  {
    match SubmitRefusal(run, e, outcome)
    case None => NodeDone(outcome)
    case Some(NodeAlreadyFinished) => NodeDone(outcome)
    case Some(reason) => NodeRefused(reason)
  }

  /** Submitting twice is harmless: after an accepted submission, and whatever happens in
      between, the second one changes nothing and still settles the node as done. */
  lemma SecondSubmissionIsHarmless(args: Args, ops: seq<Op>, e: nat, payload: Payload, between: seq<Op>)
    requires ValidArgs(args) && e < |Exec(args, true, ops).nodes|
    requires SubmitRefusal(Exec(args, true, ops), e, payload).None?
    ensures var first := ops + [Submit(e, payload)];
      var later := Exec(args, true, first + between);
      && e < |later.nodes| && later.nodes[e].accepted == Some(payload)
      && SettleAgentNode(later, e, payload) == NodeDone(payload)
      && Step(later, Submit(e, payload), true) == later
  {
    hide Exec;
    var first := ops + [Submit(e, payload)];
    ExecOneMore(args, true, ops, Submit(e, payload));
    ExecKeepsInv(args, ops);
    AcceptedEntryEnds(Exec(args, true, ops), e, payload, args);
    ExecExtends(args, first, between);
    EndedEntryRefuses(Exec(args, true, first), Exec(args, true, first + between), e, payload);
  }

  /** Nor does it matter what the node reports after its submission was accepted: even a
      cancelled agent run leaves the accepted payload applied and the run as it is. */
  lemma LateReportIsIgnored(args: Args, ops: seq<Op>, e: nat, payload: Payload, between: seq<Op>, st: Settlement)
    requires ValidArgs(args) && e < |Exec(args, true, ops).nodes|
    requires SubmitRefusal(Exec(args, true, ops), e, payload).None?
    ensures var later := Exec(args, true, ops + [Submit(e, payload)] + between);
      && e in later.applied && e < |later.nodes| && later.nodes[e].accepted == Some(payload)
      && Step(later, Report(e, st), true) == later
  {
    hide Exec;
    var first := ops + [Submit(e, payload)];
    SecondSubmissionIsHarmless(args, ops, e, payload, between);
    ExecKeepsInv(args, first + between);
    ExecKeepsInv(args, ops);
    ExecOneMore(args, true, ops, Submit(e, payload));
    AcceptedEntryEnds(Exec(args, true, ops), e, payload, args);
    ExecExtends(args, first, between);
    EndedEntryIgnoresReports(Exec(args, true, first), Exec(args, true, first + between), e, st, args);
  }

  /** The payload submitted for entry `e` has reached the pursuit. */
  predicate PayloadApplied(run: Run, e: nat) {
    e in run.applied && e < |run.nodes| && run.nodes[e].accepted.Some?
  }

  /** When a node settles as done its entry has ended for good, and a payload of it reached
      the pursuit if and only if the entry is completed. If it is not, the entry had ended
      before without an accepted submission, and nothing it submitted is ever applied. */
  lemma DoneNodeAppliedExactly(args: Args, ops: seq<Op>, e: nat, outcome: Payload, more: seq<Op>)
    requires ValidArgs(args) && e < |Exec(args, true, ops).nodes|
    requires SettleAgentNode(Exec(args, true, ops), e, outcome).NodeDone?
    ensures var before, after := Exec(args, true, ops), Exec(args, true, ops + [Submit(e, outcome)]);
      var later := Exec(args, true, ops + [Submit(e, outcome)] + more);
      && e < |after.nodes| && e < |later.nodes|
      && after.nodes[e].status != EntryRunning && later.nodes[e] == after.nodes[e]
      && (PayloadApplied(later, e) <==> after.nodes[e].status == EntryCompleted)
      && (after.nodes[e].status != EntryCompleted ==>
            before.nodes[e].status != EntryRunning && after.nodes[e] == before.nodes[e])
  {
    hide Exec;
    var first := ops + [Submit(e, outcome)];
    ExecOneMore(args, true, ops, Submit(e, outcome));
    ExecKeepsInv(args, ops);
    ExecKeepsInv(args, first);
    ExecKeepsInv(args, first + more);
    ExecExtends(args, first, more);
    var before, later := Exec(args, true, ops), Exec(args, true, first + more);
    if SubmitRefusal(before, e, outcome).None? { AcceptedEntryEnds(before, e, outcome, args); }
    else { EndedEntryKeeps(before, e, outcome); }
    LoggedEntry(later, e, args);
    hide RunInv;
    hide Step;
  }

  lemma EndedEntryKeeps(a: Run, e: nat, payload: Payload)
    requires e < |a.nodes| && SubmitRefusal(a, e, payload) == Some(NodeAlreadyFinished)
    ensures a.nodes[e].status != EntryRunning && Step(a, Submit(e, payload), true) == a
  {
    hide ApplyValidated;
    hide ValidationError;
    AlreadyFinishedHasEnded(a, e, payload);
  }

  lemma AlreadyFinishedHasEnded(a: Run, e: nat, payload: Payload)
    requires e < |a.nodes| && SubmitRefusal(a, e, payload) == Some(NodeAlreadyFinished)
    ensures a.nodes[e].status != EntryRunning
  {
  }

  lemma LoggedEntry(run: Run, e: nat, args: Args)
    requires RunInv(run, args) && e < |run.nodes|
    ensures run.nodes[e].status == EntryCompleted <==> run.nodes[e].accepted.Some?
    ensures run.nodes[e].status == EntryCompleted ==> e in run.applied
  {
    hide RunLive;
    hide RunOver;
  }

  /** Every node that an interrupt of the run cut off settles as done once its agent run
      completes, although its payload never reaches the pursuit. */
  lemma CutOffNodeSettlesAsDone(args: Args, ops: seq<Op>, e: nat, reason: string, outcome: Payload, more: seq<Op>)
    requires ValidArgs(args) && e < |Exec(args, true, ops).nodes|
    requires Exec(args, true, ops).nodes[e].status == EntryRunning
    ensures var later := Exec(args, true, ops + [Interrupt(reason)] + more);
      && e < |later.nodes| && SettleAgentNode(later, e, outcome) == NodeDone(outcome) && !PayloadApplied(later, e)
  {
    hide Exec;
    var cut := ops + [Interrupt(reason)];
    ExecOneMore(args, true, ops, Interrupt(reason));
    ExecKeepsInv(args, ops);
    InterruptKeepsInv(Exec(args, true, ops), reason, args);
    FinishedRunIsFinal(args, cut, more);
    CutOffEntry(Exec(args, true, ops), e, reason, args);
  }

  lemma CutOffEntry(run: Run, e: nat, reason: string, args: Args)
    requires RunInv(run, args) && e < |run.nodes| && run.nodes[e].status == EntryRunning
    ensures var cut := Step(run, Interrupt(reason), true);
      |cut.nodes| == |run.nodes| && cut.nodes[e].status == EntryCancelled && cut.nodes[e].accepted.None?
  {
  }

  lemma EndedEntryIgnoresReports(a: Run, b: Run, e: nat, st: Settlement, args: Args)
    requires RunExtends(a, b) && RunInv(b, args) && e < |a.nodes| && a.nodes[e].status == EntryCompleted
    ensures e < |b.nodes| && e in b.applied && Step(b, Report(e, st), true) == b
  {
    hide RunLive;
    hide RunOver;
  }

  lemma EndedEntryRefuses(a: Run, b: Run, e: nat, payload: Payload)
    requires RunExtends(a, b) && e < |a.nodes| && a.nodes[e].status == EntryCompleted
    ensures e < |b.nodes| && b.nodes[e] == a.nodes[e]
    ensures SettleAgentNode(b, e, payload) == NodeDone(payload)
    ensures Step(b, Submit(e, payload), true) == b
  {
  }

  lemma DispatchKeepsEntry(run: Run, e: nat)
    requires e < |run.nodes|
    ensures e < |FinishOrDispatch(run, true).nodes| && FinishOrDispatch(run, true).nodes[e] == run.nodes[e]
  {
  }

  lemma AcceptedEntryEnds(a: Run, e: nat, payload: Payload, args: Args)
    requires RunInv(a, args) && e < |a.nodes| && SubmitRefusal(a, e, payload).None?
    ensures var b := SubmitCompletion(a, e, payload, true);
      && e < |b.nodes| && b.nodes[e] == a.nodes[e].(status := EntryCompleted, accepted := Some(payload))
      && Step(a, Submit(e, payload), true) == b
  {
    hide FinishOrDispatch;
    hide Evaluate;
    hide RunInv;
    hide ValidationError;
    var entry := a.nodes[e].(status := EntryCompleted, accepted := Some(payload));
    var marked := Emit(a, OutcomeReceived).(nodes := a.nodes[e := entry]);
    EvaluateShape(marked, e, Completed(payload));
    DispatchKeepsEntry(Evaluate(marked, e, Completed(payload)), e);
  }

  // ----- in-flight uniqueness and identities -------------------------------------------------------------

  /** No plan and no work item is ever worked on by two running nodes. */
  lemma InFlightIsUnique(args: Args, ops: seq<Op>, e: nat, e2: nat)
    requires ValidArgs(args) && e < e2 < |Exec(args, true, ops).nodes|
    requires Exec(args, true, ops).nodes[e].status == EntryRunning &&
        Exec(args, true, ops).nodes[e2].status == EntryRunning
    ensures !SameTarget(Exec(args, true, ops).nodes[e].meta, Exec(args, true, ops).nodes[e2].meta)
  {
    hide Exec;
    ExecKeepsInv(args, ops);
  }

  /** A work item's key names it across all legs, attempts and goal versions of a run. */
  lemma KeysIdentifyItems(args: Args, ops: seq<Op>, i: nat, j: nat, k: nat, i2: nat, j2: nat, k2: nat)
    requires ValidArgs(args)
    requires i < |Exec(args, true, ops).state.legs| && InLeg(Exec(args, true, ops).state.legs[i], j, k)
    requires i2 < |Exec(args, true, ops).state.legs| && InLeg(Exec(args, true, ops).state.legs[i2], j2, k2)
    ensures var legs := Exec(args, true, ops).state.legs;
      Item(legs[i], j, k).key == Item(legs[i2], j2, k2).key <==> (i, j, k) == (i2, j2, k2)
  {
    hide Exec;
    var legs := Exec(args, true, ops).state.legs;
    ExecKeepsInv(args, ops);
    ReachableLeg(args, ops, i);
    ReachableLeg(args, ops, i2);
    if Item(legs[i], j, k).key == Item(legs[i2], j2, k2).key {
      var a, b := Item(legs[i], j, k), Item(legs[i2], j2, k2);
      assert AttemptFits(legs[i], j) && ItemFits(legs[i], legs[i].attempts[j], a);
      assert AttemptFits(legs[i2], j2) && ItemFits(legs[i2], legs[i2].attempts[j2], b);
      WorkItemKeyInjective(UuidText(legs[i].id), a.legGoalVersion, a.id, UuidText(legs[i2].id), b.legGoalVersion, b.id);
      DecInjective(legs[i].id, legs[i2].id);
      if i == i2 { KeysUnique(legs[i], j, k, j2, k2); }
    }
  }

  /** Refocusing is safe: an attempt is marked consistent exactly when it follows the leg's
      current goal version, every dependency resolves, and the lookup finds the one item of
      that version carrying the id. */
  lemma VersionsStayConsistent(args: Args, ops: seq<Op>, i: nat, j: nat, k: nat, d: string)
    requires ValidArgs(args)
    requires i < |Exec(args, true, ops).state.legs| && InLeg(Exec(args, true, ops).state.legs[i], j, k)
    requires d in Item(Exec(args, true, ops).state.legs[i], j, k).dependsOn
    ensures var leg := Exec(args, true, ops).state.legs[i];
      && (leg.attempts[j].isConsistentWithLegGoal <==> leg.attempts[j].legGoalVersion == leg.legGoalVersion)
      && Item(leg, j, k).legGoalVersion == leg.attempts[j].legGoalVersion
      && (exists j2, k2 ::
           InLeg(leg, j2, k2) && j2 <= j && Matches(Item(leg, j2, k2), Item(leg, j, k).legGoalVersion, d))
      && (forall j2, k2 :: InLeg(leg, j2, k2) && Matches(Item(leg, j2, k2), Item(leg, j, k).legGoalVersion, d) ==>
            DependencyStatus(leg, Item(leg, j, k).legGoalVersion, d) == Some(Item(leg, j2, k2).status))
  {
    hide Exec;
    ReachableLeg(args, ops, i);
    var leg := Exec(args, true, ops).state.legs[i];
    assert AttemptFits(leg, j) && ItemFits(leg, leg.attempts[j], Item(leg, j, k));
    var v := Item(leg, j, k).legGoalVersion;
    assert ResolvesBefore(leg, j, v, d);
    forall j2, k2 | InLeg(leg, j2, k2) && Matches(Item(leg, j2, k2), v, d)
      ensures DependencyStatus(leg, v, d) == Some(Item(leg, j2, k2).status)
    {
      LookupAt(leg, j2, k2);
    }
  }

  /** The planner's failure text never carries the context-script marker, so a planner
      failure is always recorded as such: the other kind is never chosen. */
  lemma PlannerFailureKindIsFixed(st: Settlement)
    ensures PlannerFailureReason(SettlementFailure(st, "planner")).kind == PlannerFailed
  {
    var m := SettlementFailure(st, "planner");
    assert m[0] == 'p';
    assert "context_script_error:"[0] == 'c';
  }
}
