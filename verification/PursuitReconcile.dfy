/** Reconciling settles a pursuit. */
module PursuitReconcile {
  import opened Text
  import opened DependencyGraph
  import opened PursuitState
  import opened PursuitProgress
  import opened PursuitInvariant
  import opened PursuitSteps
  import opened PursuitClosing

  // It turns any state between steps into a settled one, extends what was there, and never
  // moves the pursuit away from its end.

  // ----- history only grows ---------------------------------------------------------

  /** A settled item never changes again; a waiting one may settle. */
  ghost predicate ItemExtends(a: WorkItem, b: WorkItem) {
    if a.status == NotStarted then StatusOnly(a, b) else b == a
  }

  ghost predicate AttemptExtends(a: Attempt, b: Attempt) {
    && b.id == a.id && b.sequence == a.sequence && b.plan.id == a.plan.id
    && (a.plan.status != NotStarted ==> b.plan == a.plan && |b.workItems| == |a.workItems|)
    && (a.status != Running ==> b.status == a.status && b.failureReasons == a.failureReasons)
    && |a.workItems| <= |b.workItems|
    && forall k :: 0 <= k < |a.workItems| ==> ItemExtends(a.workItems[k], b.workItems[k])
  }

  ghost predicate LegExtends(a: Leg, b: Leg) {
    && b.id == a.id && b.sequence == a.sequence && b.maxAttempts == a.maxAttempts
    && |a.attempts| <= |b.attempts|
    && forall j :: 0 <= j < |a.attempts| ==> AttemptExtends(a.attempts[j], b.attempts[j])
  }

  ghost predicate LegsExtend(a: seq<Leg>, b: seq<Leg>) {
    && |a| <= |b|
    && forall i :: 0 <= i < |a| ==> LegExtends(a[i], b[i])
  }

  lemma LegExtendsTransitive(a: Leg, b: Leg, c: Leg)
    requires LegExtends(a, b) && LegExtends(b, c)
    ensures LegExtends(a, c)
  {
    forall j | 0 <= j < |a.attempts| ensures AttemptExtends(a.attempts[j], c.attempts[j]) {
      assert AttemptExtends(a.attempts[j], b.attempts[j]) && AttemptExtends(b.attempts[j], c.attempts[j]);
    }
  }

  lemma LegsExtendTransitive(a: seq<Leg>, b: seq<Leg>, c: seq<Leg>)
    requires LegsExtend(a, b) && LegsExtend(b, c)
    ensures LegsExtend(a, c)
  {
    forall i | 0 <= i < |a| ensures LegExtends(a[i], c[i]) {
      LegExtendsTransitive(a[i], b[i], c[i]);
    }
  }

  lemma BlocksOnlyExtends(a: Leg, b: Leg, running: RunningNodes)
    requires BlocksOnly(a, b, running)
    ensures LegExtends(a, b)
  {
    forall j | 0 <= j < |a.attempts| ensures AttemptExtends(a.attempts[j], b.attempts[j]) {
      forall k | 0 <= k < |a.attempts[j].workItems|
        ensures ItemExtends(a.attempts[j].workItems[k], b.attempts[j].workItems[k])
      {
        assert InLeg(a, j, k) && Item(a, j, k) == a.attempts[j].workItems[k] &&
            Item(b, j, k) == b.attempts[j].workItems[k];
      }
    }
  }

  lemma CloseExtends(leg: Leg, status: RunStatus)
    requires |leg.attempts| > 0 && Last(leg.attempts).status == Running
    ensures LegExtends(leg, CloseAttempt(leg, status))
  {
  }

  /** Successes are permanent, so met dependencies stay met. */
  lemma ExtendsKeepsReliance(a: Leg, b: Leg, item: WorkItem)
    requires LegExtends(a, b) && Unique(b) && DependenciesSucceeded(a, item)
    ensures DependenciesSucceeded(b, item)
  {
    forall d | d in item.dependsOn ensures DependencyStatus(b, item.legGoalVersion, d) == Some(Success) {
      var j, k := LookupFound(a, item.legGoalVersion, d);
      assert AttemptExtends(a.attempts[j], b.attempts[j]);
      assert InLeg(b, j, k) && Item(b, j, k) == Item(a, j, k);
      LookupAt(b, j, k);
    }
  }

  // ----- replacing the last leg --------------------------------------------------------

  /** `b` may stand in for `a` as the last leg: same identity, at most one new attempt
      with newly minted ids. */
  ghost predicate Succeeds(a: Leg, b: Leg, minted: nat, minted': nat, mode: LegGoalMode) {
    && LegExtends(a, b)
    && (mode == Predefined ==> b.legGoal == a.legGoal && b.nextLegGoal == a.nextLegGoal)
    && |b.attempts| <= |a.attempts| + 1
    && minted <= minted'
    && (|b.attempts| > |a.attempts| ==>
          var x := b.attempts[|a.attempts|]; minted <= x.id < minted' && minted <= x.plan.id < minted')
  }

  lemma ReplaceLastKeepsIds(legs: seq<Leg>, leg: Leg, minted: nat, minted': nat, mode: LegGoalMode)
    requires |legs| >= 1 && IdsFresh(legs, minted)
    requires Succeeds(Last(legs), leg, minted, minted', mode)
    ensures IdsFresh(legs[|legs| - 1 := leg], minted')
  {
    var r := legs[|legs| - 1 := leg];
    var n := |legs| - 1;
    forall i, j | HasAttempt(r, i, j)
      ensures if HasAttempt(legs, i, j)
              then AttemptOf(r, i, j).id == AttemptOf(legs, i, j).id &&
                AttemptOf(r, i, j).plan.id == AttemptOf(legs, i, j).plan.id
              else i == n && j == |legs[n].attempts| &&
                   minted <= AttemptOf(r, i, j).id < minted' && minted <= AttemptOf(r, i, j).plan.id < minted'
    {
      if i == n && j < |legs[n].attempts| {
        assert AttemptExtends(legs[n].attempts[j], leg.attempts[j]);
      }
    }
  }

  lemma ReplaceLastKeepsShape(legs: seq<Leg>, leg: Leg, minted: nat, minted': nat, args: Args)
    requires LegsShape(legs, minted, args)
    requires Succeeds(Last(legs), leg, minted, minted', ModeOf(args))
    ensures LegsShape(legs[|legs| - 1 := leg], minted', args)
    ensures LegsExtend(legs, legs[|legs| - 1 := leg])
  {
    var n := |legs| - 1;
    ReplaceLastKeepsIds(legs, leg, minted, minted', ModeOf(args));
    assert LegFollows(legs[n], args, n);
    forall i | 0 <= i < |legs| ensures LegExtends(legs[i], legs[n := leg][i]) {
      if i < n { LegExtendsReflexive(legs[i]); }
    }
  }

  lemma LegExtendsReflexive(leg: Leg)
    ensures LegExtends(leg, leg)
  {
  }

  lemma AppendLegKeepsIds(legs: seq<Leg>, init: LegInit, minted: nat)
    requires IdsFresh(legs, minted)
    ensures IdsFresh(legs + [CreateLeg(init, minted)], minted + 3)
  {
    var r := legs + [CreateLeg(init, minted)];
    forall i, j | HasAttempt(r, i, j)
      ensures if i < |legs| then HasAttempt(legs, i, j) && AttemptOf(r, i, j) == AttemptOf(legs, i, j)
              else j == 0 && AttemptOf(r, i, j).id == minted + 1 && AttemptOf(r, i, j).plan.id == minted + 2
    {
    }
  }

  lemma AppendLegKeepsShape(legs: seq<Leg>, init: LegInit, minted: nat, args: Args)
    requires LegsShape(legs, minted, args) && LegWon(Last(legs))
    requires init.sequence == |legs| + 1 && init.maxAttempts == args.maxAttempts
    requires ModeOf(args) == Predefined ==> |legs| < |args.legGoals| && init.legGoal == args.legGoals[|legs|]
    requires ModeOf(args) == Predefined ==> init.nextLegGoal == GoalAt(args.legGoals, |legs| + 1)
    ensures LegsShape(legs + [CreateLeg(init, minted)], minted + 3, args)
    ensures LegsExtend(legs, legs + [CreateLeg(init, minted)])
  {
    AppendLegKeepsIds(legs, init, minted);
  }

  // ----- the measure ---------------------------------------------------------------------

  /** 1 while the leg's current attempt waits for its plan. */
  function Pending(leg: Leg): nat {
    if |leg.attempts| > 0 && leg.attempts[|leg.attempts| - 1].plan.status == NotStarted then 1 else 0
  }

  /** The leg used up an attempt, a plan or a waiting item. */
  ghost predicate LegDescends(a: Leg, b: Leg) {
    || |b.attempts| > |a.attempts|
    || (|b.attempts| == |a.attempts| && Pending(b) < Pending(a))
    || (|b.attempts| == |a.attempts| && Pending(b) == Pending(a) && |Waiting(b)| < |Waiting(a)|)
  }

  ghost predicate LegKeepsLevel(a: Leg, b: Leg) {
    || |b.attempts| > |a.attempts|
    || (|b.attempts| == |a.attempts| && Pending(b) == Pending(a) && |Waiting(b)| <= |Waiting(a)|)
  }

  lemma SmallerSet<T>(a: set<T>, b: set<T>)
    requires a < b
    ensures |a| < |b|
  {
    var x :| x in b && x !in a;
    SubsetSize(a, b - {x});
  }

  lemma {:induction false} SubsetSize<T>(a: set<T>, b: set<T>)
    requires a <= b
    ensures |a| <= |b|
    decreases |a|
  {
    if a != {} {
      var x :| x in a;
      SubsetSize(a - {x}, b - {x});
    }
  }

  lemma SpreadKeepsLevel(leg: Leg, running: RunningNodes)
    ensures LegKeepsLevel(leg, SpreadBlocks(leg, running))
  {
    hide SpreadBlocks;
    hide Waiting;
    var r := SpreadBlocks(leg, running);
    SpreadKeepsPlans(leg, running);
    SubsetSize(Waiting(r), Waiting(leg));
  }

  // ----- one reconcile ---------------------------------------------------------------------

  /** What a reconcile does to the pursuit `m`, whose last leg is still active. */
  ghost predicate ReconcileResult(m: State, r: State, args: Args) {
    && (Open(r, args) || Won(r, args) || Lost(r, args))
    && LegsExtend(m.legs, r.legs)
    && (r.done || |r.legs| == |m.legs| + 1 || (|r.legs| == |m.legs| && LegKeepsLevel(Last(m.legs), Last(r.legs))))
  }

  lemma FailedLegSucceeds(m: State, leg: Leg, running: RunningNodes)
    requires |m.legs| >= 1 && BlocksOnly(Last(m.legs), leg, running) && |leg.attempts| > 0
    requires Last(leg.attempts).status == Running
    ensures LegExtends(Last(m.legs), CloseAttempt(leg, Failed))
    ensures |CloseAttempt(leg, Failed).attempts| == |leg.attempts| == |Last(m.legs).attempts|
  {
    BlocksOnlyExtends(Last(m.legs), leg, running);
    CloseExtends(leg, Failed);
    LegExtendsTransitive(Last(m.legs), leg, CloseAttempt(leg, Failed));
  }

  /** The pursuit with one more attempt in its last leg. */
  lemma RetryState(m: State, r: State, leg: Leg)
    requires |m.legs| >= 1 && 0 < |leg.attempts| < leg.maxAttempts &&
        |CloseAttempt(leg, Failed).attempts| == |leg.attempts|
    requires CloseAttempt(leg, Failed).maxAttempts == leg.maxAttempts
    requires CloseAttempt(leg, Failed).legGoalVersion == leg.legGoalVersion
    requires r == AfterFailedAttempt(SetLeg(m, |m.legs| - 1, CloseAttempt(leg, Failed)), |m.legs| - 1)
    ensures var closed := CloseAttempt(leg, Failed);
      var retry := closed.(attempts :=
        closed.attempts + [CreateAttempt(|leg.attempts| + 1, leg.legGoalVersion, m.minted, m.minted + 1)]);
      r == m.(legs := m.legs[|m.legs| - 1 := retry], minted := m.minted + 2, failures := r.failures)
  {
    hide CloseAttempt;
    hide FailureText;
  }

  lemma RetryResult(m: State, r: State, leg: Leg, running: RunningNodes, args: Args)
    requires Unreconciled(m, args) && BlocksOnly(Last(m.legs), leg, running)
    requires LegActive(leg) && RunningReady(leg, running) && NothingBlockable(leg, running)
    requires AttemptVerdict(Last(leg.attempts), running) == Some(Failed) && |leg.attempts| < leg.maxAttempts
    requires r == AfterFailedAttempt(SetLeg(m, |m.legs| - 1, CloseAttempt(leg, Failed)), |m.legs| - 1)
    ensures ReconcileResult(m, r, args)
  {
    hide Sound;
    hide Spread;
    var n := |m.legs| - 1;
    var closed := CloseAttempt(leg, Failed);
    var retry := closed.(attempts :=
      closed.attempts + [CreateAttempt(|leg.attempts| + 1, leg.legGoalVersion, m.minted, m.minted + 1)]);
    RetryState(m, r, leg);
    hide AfterFailedAttempt;
    FailedLegSucceeds(m, leg, running);
    RetriesOrLoses(leg, running, m.minted, m.minted + 1);
    assert Succeeds(m.legs[n], retry, m.minted, m.minted + 2, ModeOf(args));
    ReplaceLastKeepsShape(m.legs, retry, m.minted, m.minted + 2, args);
    assert Last(r.legs) == retry;
  }

  lemma LoseResult(m: State, r: State, leg: Leg, running: RunningNodes, args: Args)
    requires Unreconciled(m, args) && BlocksOnly(Last(m.legs), leg, running)
    requires LegActive(leg) && RunningReady(leg, running) && NothingBlockable(leg, running)
    requires AttemptVerdict(Last(leg.attempts), running) == Some(Failed) && |leg.attempts| >= leg.maxAttempts
    requires r == AfterFailedAttempt(SetLeg(m, |m.legs| - 1, CloseAttempt(leg, Failed)), |m.legs| - 1)
    ensures ReconcileResult(m, r, args)
  {
    hide Sound;
    hide Spread;
    var n := |m.legs| - 1;
    var lost := CloseAttempt(leg, Failed).(status := Failed);
    FailedLegSucceeds(m, leg, running);
    RetriesOrLoses(leg, running, m.minted, m.minted + 1);
    assert Succeeds(m.legs[n], lost, m.minted, m.minted, ModeOf(args));
    ReplaceLastKeepsShape(m.legs, lost, m.minted, m.minted, args);
    assert r.legs == m.legs[n := lost] && r.minted == m.minted;
    assert Last(r.legs) == lost;
  }

  /** The won leg stands in for the one it was. */
  lemma WonLeg(m: State, leg: Leg, running: RunningNodes, args: Args)
    requires Unreconciled(m, args)
    requires BlocksOnly(Last(m.legs), leg, running)
    requires LegActive(leg) && AttemptVerdict(Last(leg.attempts), running) == Some(Success)
    ensures var won := CloseAttempt(leg, Success).(status := Success);
      && LegWon(won)
      && LegsShape(m.legs[|m.legs| - 1 := won], m.minted, args)
      && LegsExtend(m.legs, m.legs[|m.legs| - 1 := won])
  {
    hide Sound;
    hide Spread;
    var n := |m.legs| - 1;
    var won := CloseAttempt(leg, Success).(status := Success);
    BlocksOnlyExtends(m.legs[n], leg, running);
    CloseExtends(leg, Success);
    LegExtendsTransitive(m.legs[n], leg, CloseAttempt(leg, Success));
    ClosesWon(leg, running);
    assert Succeeds(m.legs[n], won, m.minted, m.minted, ModeOf(args));
    ReplaceLastKeepsShape(m.legs, won, m.minted, m.minted, args);
  }

  lemma WinResult(m: State, r: State, leg: Leg, running: RunningNodes, args: Args)
    requires Unreconciled(m, args)
    requires BlocksOnly(Last(m.legs), leg, running)
    requires LegActive(leg) && AttemptVerdict(Last(leg.attempts), running) == Some(Success)
    requires r == AfterSucceededAttempt(SetLeg(m, |m.legs| - 1, CloseAttempt(leg, Success)), |m.legs| - 1)
    ensures ReconcileResult(m, r, args)
  {
    var n := |m.legs| - 1;
    var won := CloseAttempt(leg, Success).(status := Success);
    WonLeg(m, leg, running, args);
    hide BlocksOnly;
    hide AttemptVerdict;
    hide LegExtends;
    hide LegWon;
    hide IdsFresh;
    hide CloseAttempt;
    var legs := m.legs[n := won];
    assert LegFollows(legs[n], args, n);
    match NextLegInit(m.pursuit, won) {
      case None =>
        assert r.legs == legs && Last(r.legs) == won;
        assert NextLegInit(r.pursuit, won) == None;
      case Some(init) =>
        assert r.legs == legs + [CreateLeg(init, m.minted)];
        AppendLegKeepsShape(legs, init, m.minted, args);
        FreshLegFits(init, m.minted);
        LegsExtendTransitive(m.legs, legs, legs + [CreateLeg(init, m.minted)]);
    }
  }

  lemma OpenResult(m: State, leg: Leg, running: RunningNodes, args: Args)
    requires Unreconciled(m, args)
    requires leg == SpreadBlocks(Last(m.legs), running)
    requires BlocksOnly(Last(m.legs), leg, running)
    requires LegActive(leg) && RunningReady(leg, running) && NothingBlockable(leg, running)
    requires AttemptVerdict(Last(leg.attempts), running) == None
    ensures ReconcileResult(m, SetLeg(m, |m.legs| - 1, leg), args)
  {
    var n := |m.legs| - 1;
    BlocksOnlyExtends(m.legs[n], leg, running);
    assert Succeeds(m.legs[n], leg, m.minted, m.minted, ModeOf(args));
    ReplaceLastKeepsShape(m.legs, leg, m.minted, m.minted, args);
    StaysOpen(leg, running);
    SpreadKeepsLevel(m.legs[n], running);
  }

  lemma VerdictIsFinal(attempt: Attempt, running: RunningNodes)
    ensures AttemptVerdict(attempt, running) in {None, Some(Success), Some(Failed)}
  {
  }

  lemma ReconcileOneResult(m: State, running: RunningNodes, args: Args)
    requires Unreconciled(m, args) && RunningReady(Last(m.legs), running)
    ensures ReconcileResult(m, ReconcileOne(m, |m.legs| - 1, running).state, args)
  {
    var n := |m.legs| - 1;
    var leg := SpreadBlocks(m.legs[n], running);
    SpreadLeavesActive(m.legs[n], running);
    var s1 := SetLeg(m, n, leg);
    VerdictIsFinal(Last(leg.attempts), running);
    assert s1.legs[n] == leg && !IsEntityTerminal(Last(leg.attempts).status);
    match AttemptVerdict(Last(leg.attempts), running) {
      case None =>
        OpenResult(m, leg, running, args);
      case Some(status) =>
        assert SetLeg(s1, n, CloseAttempt(leg, status)) == SetLeg(m, n, CloseAttempt(leg, status));
        var r := ReconcileOne(m, n, running).state;
        if status == Success { WinResult(m, r, leg, running, args); }
        else if |leg.attempts| < leg.maxAttempts { RetryResult(m, r, leg, running, args); }
        else { LoseResult(m, r, leg, running, args); }
    }
  }

  lemma BumpKeepsResult(m: State, r: State, args: Args)
    requires ReconcileResult(m, r, args)
    ensures ReconcileResult(m, Bump(r), args)
  {
  }

  /** Every state between steps reconciles to a settled, won or lost pursuit. */
  lemma ReconcileSettles(m: State, running: RunningNodes, args: Args)
    requires Unreconciled(m, args) && RunningReady(Last(m.legs), running)
    ensures ReconcileResult(m, Reconcile(m, running).state, args)
  {
    ReconcileLast(m, running);
    ReconcileOneResult(m, running, args);
    var one := ReconcileOne(m, |m.legs| - 1, running);
    BumpKeepsResult(m, one.state, args);
  }
}
