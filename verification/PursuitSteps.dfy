/** Whole steps of the pursuit keep its invariant: adopting a plan that passed its checks,
    settling a worker's item, closing an attempt and opening the next one. */
module PursuitSteps {
  import opened Text
  import opened DependencyGraph
  import opened PursuitState
  import opened PursuitProgress
  import opened PursuitInvariant

  function Last<T>(s: seq<T>): T
    requires |s| > 0
  {
    s[|s| - 1]
  }

  // ----- legs ------------------------------------------------------------------

  /** A leg still at work; its last attempt may be due for closing. */
  ghost predicate LegActive(leg: Leg) {
    LegShape(leg) && Sound(leg) && leg.status == Running && Last(leg.attempts).status == Running
  }

  /** A leg at work with nothing due: its plan is pending, or some item is waiting and
      none can be blocked. */
  ghost predicate LegSettled(leg: Leg) {
    && LegActive(leg)
    && Spread(leg)
    && Last(leg.attempts).plan.status != Failed
    && (Last(leg.attempts).plan.status == Success ==>
          exists k :: 0 <= k < |Last(leg.attempts).workItems| && Last(leg.attempts).workItems[k].status == NotStarted)
  }

  ghost predicate LegWon(leg: Leg) {
    && LegShape(leg) && Sound(leg)
    && leg.status == Success
    && Last(leg.attempts).status == Success
    && Last(leg.attempts).plan.status == Success
    && forall k :: 0 <= k < |Last(leg.attempts).workItems| ==> Last(leg.attempts).workItems[k].status == Success
  }

  /** A leg given up after its whole attempt budget failed. */
  ghost predicate LegLost(leg: Leg) {
    && LegShape(leg) && Sound(leg)
    && leg.status == Failed
    && |leg.attempts| == leg.maxAttempts
    && Spent(Last(leg.attempts))
  }

  // ----- steps that keep the items -------------------------------------------------

  /** `b` has the items of `a`, and any further attempts of `b` have none. */
  ghost predicate SameItems(a: seq<Attempt>, b: seq<Attempt>) {
    && |a| <= |b|
    && (forall j :: 0 <= j < |a| ==> b[j].workItems == a[j].workItems)
    && (forall j :: |a| <= j < |b| ==> b[j].workItems == [])
  }

  lemma {:induction false} LocateNothing(b: seq<Attempt>, version: nat, id: string)
    requires forall j :: 0 <= j < |b| ==> b[j].workItems == []
    ensures Locate(b, version, id) == None
  {
  }

  lemma {:induction false} LocateSame(a: seq<Attempt>, b: seq<Attempt>, version: nat, id: string)
    requires SameItems(a, b)
    ensures Locate(a, version, id) == Locate(b, version, id)
  {
    if a == [] {
      LocateNothing(b, version, id);
    } else {
      assert b[0].workItems == a[0].workItems;
      LocateSame(a[1..], b[1..], version, id);
    }
  }

  lemma SameItemsReliance(a: Leg, b: Leg, item: WorkItem)
    requires SameItems(a.attempts, b.attempts)
    ensures DependenciesSucceeded(a, item) == DependenciesSucceeded(b, item)
    ensures HasBadDependency(a, item) == HasBadDependency(b, item)
  {
    forall d ensures DependencyStatus(a, item.legGoalVersion, d) == DependencyStatus(b, item.legGoalVersion, d) {
      LocateSame(a.attempts, b.attempts, item.legGoalVersion, d);
    }
    BadDependencyWitness(a, item);
    BadDependencyWitness(b, item);
  }

  lemma SameItemsKeepsSound(a: Leg, b: Leg)
    requires SameItems(a.attempts, b.attempts)
    ensures Sound(a) ==> Sound(b)
    ensures Spread(a) ==> Spread(b)
  {
    forall j, k | InLeg(b, j, k)
      ensures InLeg(a, j, k) && Item(b, j, k) == Item(a, j, k)
      ensures SoundItem(a, Item(a, j, k)) ==> SoundItem(b, Item(b, j, k))
      ensures HasBadDependency(b, Item(b, j, k)) ==> HasBadDependency(a, Item(a, j, k))
    {
      assert j < |a.attempts| ==> b.attempts[j].workItems == a.attempts[j].workItems;
      SameItemsReliance(a, b, Item(b, j, k));
    }
  }

  lemma SameItemsKeepsLinks(a: Leg, b: Leg)
    requires SameItems(a.attempts, b.attempts) && Unique(a) && DependenciesResolve(a)
    ensures Unique(b) && DependenciesResolve(b)
  {
    forall j, k | InLeg(b, j, k) ensures InLeg(a, j, k) && Item(b, j, k) == Item(a, j, k) {
      assert j < |a.attempts| ==> b.attempts[j].workItems == a.attempts[j].workItems;
    }
    forall j, k, d | InLeg(b, j, k) && d in Item(b, j, k).dependsOn
      ensures ResolvesBefore(b, j, Item(b, j, k).legGoalVersion, d)
    {
      var v := Item(a, j, k).legGoalVersion;
      assert ResolvesBefore(a, j, v, d);
      var j2, k2 :| InLeg(a, j2, k2) && j2 <= j && Matches(Item(a, j2, k2), v, d);
      assert b.attempts[j2].workItems == a.attempts[j2].workItems;
      assert InLeg(b, j2, k2) && Matches(Item(b, j2, k2), v, d);
    }
  }

  /** Closing the last attempt keeps the leg's shape. */
  lemma CloseKeepsShape(leg: Leg, status: RunStatus)
    requires LegShape(leg)
    ensures LegShape(CloseAttempt(leg, status))
    ensures SameItems(leg.attempts, CloseAttempt(leg, status).attempts)
  {
    var r := CloseAttempt(leg, status);
    SameItemsKeepsLinks(leg, r);
    forall j | 0 <= j < |r.attempts| ensures AttemptFits(r, j) {
      assert AttemptFits(leg, j);
      forall k | 0 <= k < |r.attempts[j].workItems| ensures ItemFits(r, r.attempts[j], r.attempts[j].workItems[k]) {
        assert ItemFits(leg, leg.attempts[j], leg.attempts[j].workItems[k]);
      }
    }
  }

  lemma RetryKeepsShape(leg: Leg, id: Uuid, planId: Uuid)
    requires LegShape(leg) && Spent(Last(leg.attempts)) && |leg.attempts| < leg.maxAttempts
    ensures var r := leg.(attempts :=
        leg.attempts + [CreateAttempt(|leg.attempts| + 1, leg.legGoalVersion, id, planId)]);
      LegShape(r) && SameItems(leg.attempts, r.attempts)
  {
    var r := leg.(attempts := leg.attempts + [CreateAttempt(|leg.attempts| + 1, leg.legGoalVersion, id, planId)]);
    SameItemsKeepsLinks(leg, r);
    forall j | 0 <= j < |r.attempts| ensures AttemptFits(r, j) {
      if j < |leg.attempts| {
        assert AttemptFits(leg, j);
        forall k | 0 <= k < |r.attempts[j].workItems| ensures ItemFits(r, r.attempts[j], r.attempts[j].workItems[k]) {
          assert ItemFits(leg, leg.attempts[j], leg.attempts[j].workItems[k]);
        }
      } else {
        EmptyPlanIsOrderable();
        assert ItemNodes(r.attempts[j].workItems) == [];
      }
    }
  }

  lemma EmptyPlanIsOrderable()
    ensures Orderable([])
  {
    assert Topological(GraphOf([]), []);
  }

  lemma FreshLegFits(init: LegInit, minted: nat)
    requires init.maxAttempts >= 1
    ensures LegSettled(CreateLeg(init, minted))
  {
    var leg := CreateLeg(init, minted);
    EmptyPlanIsOrderable();
    assert ItemNodes(leg.attempts[0].workItems) == [];
    assert AttemptFits(leg, 0);
  }

  // ----- adopting a plan --------------------------------------------------------------

  ghost predicate DistinctAttempts(leg: Leg) {
    forall j, j2 :: 0 <= j < j2 < |leg.attempts| ==> leg.attempts[j].id != leg.attempts[j2].id
  }

  /** The leg's current attempt waits for its plan, and this plan fits it. */
  ghost predicate MayAdopt(mode: LegGoalMode, leg: Leg, p: PlannerPayload) {
    && LegShape(leg) && Sound(leg) && DistinctAttempts(leg)
    && Last(leg.attempts).plan.status == NotStarted
    && |p.workItems| > 0
    && PlanFits(mode, leg, Last(leg.attempts).sequence, p)
  }

  /** `r` is `leg` after its current attempt took on plan `p`. */
  ghost predicate Adopts(leg: Leg, r: Leg, p: PlannerPayload) {
    && |r.attempts| == |leg.attempts| >= 1
    && r.id == leg.id && r.maxAttempts == leg.maxAttempts && r.status == leg.status && r.sequence == leg.sequence
    && r.legGoalVersion == (if p.legGoal.Some? then leg.legGoalVersion + 1 else leg.legGoalVersion)
    && (p.legGoal.None? ==> r.legGoal == leg.legGoal && (p.nextLegGoal.None? ==> r.nextLegGoal == leg.nextLegGoal))
    && (forall j :: 0 <= j < |r.attempts| - 1 ==>
          r.attempts[j] == leg.attempts[j].(isConsistentWithLegGoal :=
            p.legGoal.None? && leg.attempts[j].isConsistentWithLegGoal))
    && Last(r.attempts).id == Last(leg.attempts).id
    && Last(r.attempts).sequence == Last(leg.attempts).sequence
    && Last(r.attempts).status == Last(leg.attempts).status
    && Last(r.attempts).legGoalVersion == r.legGoalVersion
    && Last(r.attempts).isConsistentWithLegGoal
    && Last(r.attempts).plan.status == Success
    && Last(r.attempts).plan.id == Last(leg.attempts).plan.id
    && |Last(r.attempts).workItems| == |p.workItems|
    && (forall k :: 0 <= k < |p.workItems| ==> Last(r.attempts).workItems[k] == NewItem(r, p.workItems[k]))
  }

  lemma AdoptPlanAdopts(mode: LegGoalMode, leg: Leg, p: PlannerPayload)
    requires MayAdopt(mode, leg, p)
    ensures Adopts(leg, AdoptPlan(leg, |leg.attempts| - 1, p), p)
  {
    hide Sound;
    hide PlanFits;
    var n := |leg.attempts| - 1;
    var l := Refocus(leg, n, p);
    var r := AdoptPlan(leg, n, p);
    assert AttemptFits(leg, n);
    assert l.attempts[n].workItems == [];
    assert r.attempts[n].workItems == NewItems(l, p.workItems);
    forall k | 0 <= k < |p.workItems| ensures r.attempts[n].workItems[k] == NewItem(r, p.workItems[k]) {
      assert NewItem(l, p.workItems[k]) == NewItem(r, p.workItems[k]);
    }
  }

  lemma AdoptedItem(leg: Leg, r: Leg, p: PlannerPayload, j: int, k: int)
    requires Adopts(leg, r, p) && InLeg(r, j, k)
    ensures j < |leg.attempts| - 1 ==> InLeg(leg, j, k) && Item(r, j, k) == Item(leg, j, k)
    ensures j == |leg.attempts| - 1 ==> k < |p.workItems| && Item(r, j, k) == NewItem(r, p.workItems[k])
  {
  }

  lemma KeptItem(leg: Leg, r: Leg, p: PlannerPayload, j: int, k: int)
    requires Adopts(leg, r, p) && InLeg(leg, j, k) && j < |leg.attempts| - 1
    ensures InLeg(r, j, k) && Item(r, j, k) == Item(leg, j, k)
  {
  }

  lemma OldAndNewDiffer(mode: LegGoalMode, leg: Leg, r: Leg, p: PlannerPayload, j: int, k: int, k2: int)
    requires MayAdopt(mode, leg, p) && Adopts(leg, r, p)
    requires 0 <= j < |leg.attempts| - 1 && InLeg(leg, j, k) && 0 <= k2 < |p.workItems|
    ensures !(Item(leg, j, k).id == p.workItems[k2].id && Item(leg, j, k).legGoalVersion == r.legGoalVersion)
  {
    assert AttemptFits(leg, j) && ItemFits(leg, leg.attempts[j], Item(leg, j, k));
    if p.legGoal.None? && Item(leg, j, k).legGoalVersion == leg.legGoalVersion {
      assert !InCurrentVersion(leg, p.workItems[k2].id);
      assert !CurrentEntry(leg, j, k, p.workItems[k2].id);
    }
  }

  lemma AdoptKeepsUnique(mode: LegGoalMode, leg: Leg, r: Leg, p: PlannerPayload)
    requires MayAdopt(mode, leg, p) && Adopts(leg, r, p)
    ensures Unique(r)
  {
    var n := |leg.attempts| - 1;
    forall j, k, j2, k2 | InLeg(r, j, k) && InLeg(r, j2, k2) && Item(r, j, k).id == Item(r, j2, k2).id &&
      Item(r, j, k).legGoalVersion == Item(r, j2, k2).legGoalVersion
      ensures j == j2 && k == k2
    {
      AdoptedItem(leg, r, p, j, k);
      AdoptedItem(leg, r, p, j2, k2);
      if j < n && j2 == n {
        OldAndNewDiffer(mode, leg, r, p, j, k, k2);
      } else if j == n && j2 < n {
        OldAndNewDiffer(mode, leg, r, p, j2, k2, k);
      }
    }
  }

  lemma NewDependencyResolves(mode: LegGoalMode, leg: Leg, r: Leg, p: PlannerPayload, k: nat, d: string)
    requires MayAdopt(mode, leg, p) && Adopts(leg, r, p)
    requires k < |p.workItems| && d in p.workItems[k].dependsOn
    ensures ResolvesBefore(r, |leg.attempts| - 1, r.legGoalVersion, d)
  {
    var n := |leg.attempts| - 1;
    if d in SpecIds(p.workItems) {
      var t :| 0 <= t < |p.workItems| && p.workItems[t].id == d;
      assert InLeg(r, n, t) && Matches(Item(r, n, t), r.legGoalVersion, d);
    } else {
      assert EarlierInCurrentVersion(leg, leg.attempts[n].sequence, d);
      var j2, k2 :| 0 <= j2 < |leg.attempts| && 0 <= k2 < |leg.attempts[j2].workItems| &&
        leg.attempts[j2].sequence < leg.attempts[n].sequence && CurrentEntry(leg, j2, k2, d);
      KeptItem(leg, r, p, j2, k2);
      assert InLeg(r, j2, k2) && Matches(Item(r, j2, k2), r.legGoalVersion, d);
    }
  }

  lemma AdoptKeepsResolution(mode: LegGoalMode, leg: Leg, r: Leg, p: PlannerPayload)
    requires MayAdopt(mode, leg, p) && Adopts(leg, r, p)
    ensures DependenciesResolve(r)
  {
    var n := |leg.attempts| - 1;
    forall j, k, d | InLeg(r, j, k) && d in Item(r, j, k).dependsOn
      ensures ResolvesBefore(r, j, Item(r, j, k).legGoalVersion, d)
    {
      AdoptedItem(leg, r, p, j, k);
      var v := Item(r, j, k).legGoalVersion;
      if j < n {
        assert ResolvesBefore(leg, j, v, d);
        var j2, k2 :| InLeg(leg, j2, k2) && j2 <= j && Matches(Item(leg, j2, k2), v, d);
        KeptItem(leg, r, p, j2, k2);
        assert InLeg(r, j2, k2) && Matches(Item(r, j2, k2), v, d);
      } else {
        NewDependencyResolves(mode, leg, r, p, k, d);
      }
    }
  }

  lemma AdoptKeepsOldFit(mode: LegGoalMode, leg: Leg, r: Leg, p: PlannerPayload, j: nat)
    requires MayAdopt(mode, leg, p) && Adopts(leg, r, p) && j < |leg.attempts| - 1
    ensures AttemptFits(r, j) && Spent(r.attempts[j])
  {
    assert AttemptFits(leg, j) && Spent(leg.attempts[j]);
    forall k | 0 <= k < |r.attempts[j].workItems| ensures ItemFits(r, r.attempts[j], r.attempts[j].workItems[k]) {
      assert ItemFits(leg, leg.attempts[j], leg.attempts[j].workItems[k]);
    }
  }

  lemma AdoptMakesFit(mode: LegGoalMode, leg: Leg, r: Leg, p: PlannerPayload)
    requires MayAdopt(mode, leg, p) && Adopts(leg, r, p)
    ensures AttemptFits(r, |leg.attempts| - 1)
  {
    var n := |leg.attempts| - 1;
    assert leg.attempts[n].sequence == n + 1 by { assert AttemptFits(leg, n); }
    assert ItemNodes(r.attempts[n].workItems) == PayloadNodes(p.workItems);
    SearchIsExact(PayloadNodes(p.workItems));
    forall k | 0 <= k < |r.attempts[n].workItems| ensures ItemFits(r, r.attempts[n], r.attempts[n].workItems[k]) {
      AdoptedItem(leg, r, p, n, k);
    }
  }

  lemma AdoptKeepsShape(mode: LegGoalMode, leg: Leg, r: Leg, p: PlannerPayload)
    requires MayAdopt(mode, leg, p) && Adopts(leg, r, p)
    ensures LegShape(r)
  {
    var n := |leg.attempts| - 1;
    AdoptKeepsUnique(mode, leg, r, p);
    AdoptKeepsResolution(mode, leg, r, p);
    AdoptMakesFit(mode, leg, r, p);
    forall j | 0 <= j < n ensures AttemptFits(r, j) && Spent(r.attempts[j]) { AdoptKeepsOldFit(mode, leg, r, p, j); }
  }

  /** What earlier items rely on is untouched by a new plan. */
  lemma AdoptKeepsReliance(mode: LegGoalMode, leg: Leg, r: Leg, p: PlannerPayload, j: int, k: int)
    requires MayAdopt(mode, leg, p) && Adopts(leg, r, p) && Unique(r)
    requires 0 <= j < |leg.attempts| - 1 && InLeg(leg, j, k)
    ensures DependenciesSucceeded(leg, Item(leg, j, k)) <==> DependenciesSucceeded(r, Item(leg, j, k))
    ensures HasBadDependency(leg, Item(leg, j, k)) <==> HasBadDependency(r, Item(leg, j, k))
  {
    var item := Item(leg, j, k);
    assert leg.attempts[|leg.attempts| - 1].workItems == [] by { assert AttemptFits(leg, |leg.attempts| - 1); }
    forall d | d in item.dependsOn
      ensures DependencyStatus(r, item.legGoalVersion, d) == DependencyStatus(leg, item.legGoalVersion, d)
    {
      DependencyResolves(leg, j, k, d);
      var a, b := LookupFound(leg, item.legGoalVersion, d);
      KeptItem(leg, r, p, a, b);
      LookupAt(r, a, b);
    }
    BadDependencyWitness(leg, item);
    BadDependencyWitness(r, item);
  }

  lemma AdoptKeepsSound(mode: LegGoalMode, leg: Leg, r: Leg, p: PlannerPayload)
    requires MayAdopt(mode, leg, p) && Adopts(leg, r, p) && Unique(r)
    ensures Sound(r)
  {
    forall j, k | InLeg(r, j, k) ensures SoundItem(r, Item(r, j, k)) {
      AdoptedItem(leg, r, p, j, k);
      if j < |leg.attempts| - 1 {
        assert SoundItem(leg, Item(leg, j, k));
        AdoptKeepsReliance(mode, leg, r, p, j, k);
      }
    }
  }
}
