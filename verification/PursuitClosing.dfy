/** Reconciling a pursuit: what it leaves behind when the current leg stays open, wins a
    leg, retries, or gives up, and why only the last leg of a pursuit ever moves. */
module PursuitClosing {
  import opened Text
  import opened DependencyGraph
  import opened PursuitState
  import opened PursuitProgress
  import opened PursuitInvariant
  import opened PursuitSteps

  // ----- one leg ------------------------------------------------------------------

  /** Items being worked on had all their dependencies met. */
  ghost predicate RunningReady(leg: Leg, running: RunningNodes) {
    forall j, k ::
      InLeg(leg, j, k) && Item(leg, j, k).status == NotStarted && Item(leg, j, k).key in running.workItems ==>
        DependenciesSucceeded(leg, Item(leg, j, k))
  }

  ghost predicate NothingBlockable(leg: Leg, running: RunningNodes) {
    forall j, k :: InLeg(leg, j, k) ==> !Blockable(leg, Item(leg, j, k), running)
  }

  lemma SpreadLeavesActive(leg: Leg, running: RunningNodes)
    requires LegActive(leg) && RunningReady(leg, running)
    ensures var r := SpreadBlocks(leg, running);
      LegActive(r) && RunningReady(r, running) && NothingBlockable(r, running) && BlocksOnly(leg, r, running)
  {
    var r := SpreadBlocks(leg, running);
    SpreadBlocksKeeps(leg, running);
    SpreadBlocksComplete(leg, running);
    forall j, k | InLeg(r, j, k) && Item(r, j, k).status == NotStarted && Item(r, j, k).key in running.workItems
      ensures DependenciesSucceeded(r, Item(r, j, k))
    {
      assert InLeg(leg, j, k) && Item(r, j, k) == Item(leg, j, k);
      BlocksKeepReliance(leg, r, running, Item(r, j, k));
    }
  }

  lemma NothingBlockableIsSpread(leg: Leg, running: RunningNodes)
    requires RunningReady(leg, running) && NothingBlockable(leg, running)
    ensures Spread(leg)
  {
    forall j, k | InLeg(leg, j, k) && Item(leg, j, k).status == NotStarted
      ensures !HasBadDependency(leg, Item(leg, j, k))
    {
      if Item(leg, j, k).key in running.workItems {
        SucceededHasNoBad(leg, Item(leg, j, k));
      } else {
        assert !Blockable(leg, Item(leg, j, k), running);
      }
    }
  }

  lemma StaysOpen(leg: Leg, running: RunningNodes)
    requires LegActive(leg) && RunningReady(leg, running) && NothingBlockable(leg, running)
    requires AttemptVerdict(Last(leg.attempts), running) == None
    ensures LegSettled(leg)
  {
    var attempt := Last(leg.attempts);
    assert AttemptFits(leg, |leg.attempts| - 1);
    NothingBlockableIsSpread(leg, running);
    if attempt.plan.status == Success && forall k :: 0 <= k < |attempt.workItems| ==>
        attempt.workItems[k].status != NotStarted {
      forall k | 0 <= k < |attempt.workItems| ensures IsItemTerminal(EffectiveStatus(attempt.workItems[k], running)) {
        assert ItemFits(leg, attempt, attempt.workItems[k]);
      }
    }
  }

  lemma ClosesWon(leg: Leg, running: RunningNodes)
    requires LegActive(leg) && AttemptVerdict(Last(leg.attempts), running) == Some(Success)
    ensures LegWon(CloseAttempt(leg, Success).(status := Success))
  {
    var attempt := Last(leg.attempts);
    var r := CloseAttempt(leg, Success);
    var won := r.(status := Success);
    CloseKeepsShape(leg, Success);
    SameItemsKeepsSound(leg, won);
    SameItemsKeepsLinks(r, won);
    forall j | 0 <= j < |won.attempts| ensures AttemptFits(won, j) {
      assert AttemptFits(r, j);
      forall k | 0 <= k < |won.attempts[j].workItems| ensures ItemFits(won, won.attempts[j],
        won.attempts[j].workItems[k]) {
        assert ItemFits(r, r.attempts[j], r.attempts[j].workItems[k]);
      }
    }
    forall k | 0 <= k < |attempt.workItems| ensures attempt.workItems[k].status == Success {
      assert EffectiveStatus(attempt.workItems[k], running) == Success;
    }
  }

  lemma ClosesSpent(leg: Leg, running: RunningNodes)
    requires LegActive(leg) && AttemptVerdict(Last(leg.attempts), running) == Some(Failed)
    ensures Spent(Last(CloseAttempt(leg, Failed).attempts))
  {
    var attempt := Last(leg.attempts);
    assert AttemptFits(leg, |leg.attempts| - 1);
    forall k | 0 <= k < |attempt.workItems| ensures IsItemTerminal(attempt.workItems[k].status) {
      assert IsItemTerminal(EffectiveStatus(attempt.workItems[k], running));
    }
  }

  /** A failed attempt gives way to a fresh one while the budget lasts. */
  lemma RetriesOrLoses(leg: Leg, running: RunningNodes, id: Uuid, planId: Uuid)
    requires LegActive(leg) && RunningReady(leg, running) && NothingBlockable(leg, running)
    requires AttemptVerdict(Last(leg.attempts), running) == Some(Failed)
    ensures var closed := CloseAttempt(leg, Failed);
      if |leg.attempts| < leg.maxAttempts
      then LegSettled(closed.(attempts :=
        closed.attempts + [CreateAttempt(|leg.attempts| + 1, leg.legGoalVersion, id, planId)]))
      else LegLost(closed.(status := Failed))
  {
    var closed := CloseAttempt(leg, Failed);
    CloseKeepsShape(leg, Failed);
    ClosesSpent(leg, running);
    SameItemsKeepsSound(leg, closed);
    NothingBlockableIsSpread(leg, running);
    if |leg.attempts| < leg.maxAttempts {
      var retry := closed.(attempts :=
        closed.attempts + [CreateAttempt(|leg.attempts| + 1, leg.legGoalVersion, id, planId)]);
      RetryKeepsShape(closed, id, planId);
      SameItemsKeepsSound(closed, retry);
    } else {
      RestatusKeeps(closed, Failed);
    }
  }

  lemma RestatusKeeps(leg: Leg, status: RunStatus)
    requires LegShape(leg) && Sound(leg)
    ensures LegShape(leg.(status := status)) && Sound(leg.(status := status))
  {
    var r := leg.(status := status);
    SameItemsKeepsSound(leg, r);
    SameItemsKeepsLinks(leg, r);
    forall j | 0 <= j < |r.attempts| ensures AttemptFits(r, j) {
      assert AttemptFits(leg, j);
      forall k | 0 <= k < |r.attempts[j].workItems| ensures ItemFits(r, r.attempts[j], r.attempts[j].workItems[k]) {
        assert ItemFits(leg, leg.attempts[j], leg.attempts[j].workItems[k]);
      }
    }
  }

  // ----- the whole pursuit -----------------------------------------------------------

  predicate HasAttempt(legs: seq<Leg>, i: int, j: int) {
    0 <= i < |legs| && 0 <= j < |legs[i].attempts|
  }

  function AttemptOf(legs: seq<Leg>, i: int, j: int): Attempt
    requires HasAttempt(legs, i, j)
  {
    legs[i].attempts[j]
  }

  /** Ids are below the mint counter and never repeat. */
  ghost predicate IdsFresh(legs: seq<Leg>, minted: nat) {
    && (forall i :: 0 <= i < |legs| ==> legs[i].id < minted)
    && (forall i, i2 :: 0 <= i < i2 < |legs| ==> legs[i].id != legs[i2].id)
    && (forall i, j :: HasAttempt(legs, i, j) ==>
      AttemptOf(legs, i, j).id < minted && AttemptOf(legs, i, j).plan.id < minted)
    && (forall i, j, i2, j2 | HasAttempt(legs, i, j) && HasAttempt(legs, i2, j2) && (i != i2 || j != j2)
          :: AttemptOf(legs, i, j).id != AttemptOf(legs, i2, j2).id &&
             AttemptOf(legs, i, j).plan.id != AttemptOf(legs, i2, j2).plan.id)
  }

  function ModeOf(args: Args): LegGoalMode {
    if |args.legGoals| == 0 then Dynamic else Predefined
  }

  /** Legs are numbered in order and, with predefined goals, follow those goals. */
  ghost predicate LegFollows(leg: Leg, args: Args, i: nat) {
    && leg.sequence == i + 1
    && leg.maxAttempts == args.maxAttempts
    && (ModeOf(args) == Predefined ==> i < |args.legGoals| && leg.legGoal == args.legGoals[i])
    && (ModeOf(args) == Predefined ==> leg.nextLegGoal == GoalAt(args.legGoals, i + 1))
  }

  ghost predicate LegsShape(legs: seq<Leg>, minted: nat, args: Args) {
    && |legs| >= 1
    && (forall i :: 0 <= i < |legs| ==> LegFollows(legs[i], args, i))
    && (forall i :: 0 <= i < |legs| - 1 ==> LegWon(legs[i]))
    && IdsFresh(legs, minted)
  }

  ghost predicate PursuitShape(s: State, args: Args) {
    && args.maxAttempts >= 1
    && s.pursuit.goal == args.pursuitGoal && s.pursuit.mode == ModeOf(args) && s.pursuit.legGoals == args.legGoals
    && LegsShape(s.legs, s.minted, args)
  }

  ghost predicate InProgress(s: State) {
    !s.done && s.workflowStatus == Live && s.pursuit.status == Running
  }

  /** Between a settlement and its reconcile. */
  ghost predicate Unreconciled(s: State, args: Args) {
    PursuitShape(s, args) && InProgress(s) && LegActive(Last(s.legs))
  }

  ghost predicate Open(s: State, args: Args) {
    PursuitShape(s, args) && InProgress(s) && LegSettled(Last(s.legs))
  }

  ghost predicate Won(s: State, args: Args) {
    && PursuitShape(s, args)
    && s.done && s.workflowStatus == Succeeded && s.pursuit.status == Success
    && LegWon(Last(s.legs))
    && NextLegInit(s.pursuit, Last(s.legs)) == None
  }

  ghost predicate Lost(s: State, args: Args) {
    && PursuitShape(s, args)
    && s.done && s.workflowStatus == Failure && s.pursuit.status == Failed
    && LegLost(Last(s.legs))
  }

  // ----- only the last leg moves ---------------------------------------------------------

  lemma EmptyLegDoesNotMove(s: State, i: nat, running: RunningNodes)
    requires i < |s.legs| && AwaitsPlan(s.legs[i])
    requires forall j :: 0 <= j < |s.legs[i].attempts| ==> s.legs[i].attempts[j].workItems == []
    ensures ReconcileOne(s, i, running) == Applied(s, false)
  {
    var leg := s.legs[i];
    assert Waiting(leg) == {};
    assert Shrinks(leg, SpreadBlocks(leg, running));
    assert SpreadBlocks(leg, running) == leg;
    assert SetLeg(s, i, leg) == s;
  }

  lemma UnchangedMeansSame(s: State, i: nat, running: RunningNodes)
    requires i < |s.legs|
    ensures !ReconcileOne(s, i, running).changed ==> ReconcileOne(s, i, running).state == s
  {
    if s.legs[i].status == Running && SpreadBlocks(s.legs[i], running) == s.legs[i] {
      assert SetLeg(s, i, SpreadBlocks(s.legs[i], running)) == s;
    }
  }

  lemma OpenedLegIsEmpty(s: State, i: nat, running: RunningNodes)
    requires i < |s.legs|
    ensures var r := ReconcileOne(s, i, running).state;
      |r.legs| > |s.legs| ==> |r.legs[|s.legs|].attempts| == 1 && r.legs[|s.legs|].attempts[0].workItems == []
  {
  }

  lemma {:induction false} ReconcileFromLast(s: State, i: nat, running: RunningNodes)
    requires i < |s.legs|
    requires forall t :: i <= t < |s.legs| - 1 ==> s.legs[t].status != Running
    ensures ReconcileFrom(s, i, running) == ReconcileOne(s, |s.legs| - 1, running)
    decreases |s.legs| - i
  {
    hide ReconcileLeg;
    hide SpreadBlocks;
    if i < |s.legs| - 1 {
      assert ReconcileOne(s, i, running) == Applied(s, false);
      ReconcileFromLast(s, i + 1, running);
    } else {
      var one := ReconcileOne(s, i, running);
      ReconcileOneShape(s, i, running);
      if |one.state.legs| > |s.legs| {
        OpenedLegIsEmpty(s, i, running);
        EmptyLegDoesNotMove(one.state, i + 1, running);
        assert ReconcileFrom(one.state, i + 2, running) == Applied(one.state, false);
      }
      assert ReconcileFrom(one.state, i + 1, running) == Applied(one.state, false);
    }
  }

  /** Reconciling works on the last leg alone when every earlier leg has closed. */
  lemma ReconcileLast(s: State, running: RunningNodes)
    requires !s.done && |s.legs| >= 1
    requires forall t :: 0 <= t < |s.legs| - 1 ==> s.legs[t].status != Running
    ensures var one := ReconcileOne(s, |s.legs| - 1, running);
      Reconcile(s, running) == (if one.changed then Applied(Bump(one.state), true) else Applied(one.state, false))
  {
    var one := ReconcileOne(s, |s.legs| - 1, running);
    ReconcileFromLast(s, 0, running);
    UnchangedMeansSame(s, |s.legs| - 1, running);
    assert ReconcileFrom(s, 0, running) == one;
  }
}
