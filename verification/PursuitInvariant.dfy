/** What every reachable leg looks like: its attempts and items, the order in which they were
    planned, and what spreading blocks through it keeps and reaches. */
module PursuitInvariant {
  import opened Text
  import opened DependencyGraph
  import opened PursuitState
  import opened PursuitProgress

  // ----- shape of a leg ----------------------------------------------------------

  /** (id, goal version) names at most one item of the leg. */
  ghost predicate Unique(leg: Leg) {
    forall j, k, j2, k2 |
      InLeg(leg, j, k) && InLeg(leg, j2, k2) &&
      Item(leg, j, k).id == Item(leg, j2, k2).id &&
      Item(leg, j, k).legGoalVersion == Item(leg, j2, k2).legGoalVersion
      :: j == j2 && k == k2
  }

  ghost predicate ResolvesBefore(leg: Leg, j: int, version: nat, id: string) {
    exists j2, k2 :: InLeg(leg, j2, k2) && j2 <= j && Matches(Item(leg, j2, k2), version, id)
  }

  /** Every dependency names an item of the same goal version in this or an earlier attempt. */
  ghost predicate DependenciesResolve(leg: Leg) {
    forall j, k, d :: InLeg(leg, j, k) && d in Item(leg, j, k).dependsOn ==>
      ResolvesBefore(leg, j, Item(leg, j, k).legGoalVersion, d)
  }

  function ItemNodes(items: seq<WorkItem>): (nodes: seq<Node>)
    ensures |nodes| == |items|
    ensures forall i :: 0 <= i < |items| ==> nodes[i] == Node(items[i].id, items[i].dependsOn)
  {
    seq(|items|, i requires 0 <= i < |items| => Node(items[i].id, items[i].dependsOn))
  }

  ghost predicate Orderable(nodes: seq<Node>) {
    exists order :: Topological(GraphOf(nodes), order)
  }

  ghost predicate ItemFits(leg: Leg, attempt: Attempt, item: WorkItem) {
    && item.legGoalVersion == attempt.legGoalVersion
    && item.key == WorkItemKey(UuidText(leg.id), item.legGoalVersion, item.id)
    && item.status in {NotStarted, Success, Failed, Blocked}
  }

  ghost predicate AttemptFits(leg: Leg, j: nat)
    requires j < |leg.attempts|
  {
    var a := leg.attempts[j];
    && a.sequence == j + 1
    && a.legGoalVersion <= leg.legGoalVersion
    && (a.isConsistentWithLegGoal <==> a.legGoalVersion == leg.legGoalVersion)
    && a.plan.status in {NotStarted, Success, Failed}
    && (|a.workItems| > 0 <==> a.plan.status == Success)
    && (forall k :: 0 <= k < |a.workItems| ==> ItemFits(leg, a, a.workItems[k]))
    && Orderable(ItemNodes(a.workItems))
  }

  ghost predicate Spent(a: Attempt) {
    && a.status == Failed
    && a.plan.status != NotStarted
    && (a.plan.status == Success ==> exists k :: 0 <= k < |a.workItems| && a.workItems[k].status != Success)
    && forall k :: 0 <= k < |a.workItems| ==> IsItemTerminal(a.workItems[k].status)
  }

  ghost predicate LegShape(leg: Leg) {
    && 1 <= |leg.attempts| <= leg.maxAttempts
    && leg.legGoalVersion >= 1
    && (forall j :: 0 <= j < |leg.attempts| ==> AttemptFits(leg, j))
    && (forall j :: 0 <= j < |leg.attempts| - 1 ==> Spent(leg.attempts[j]))
    && leg.attempts[|leg.attempts| - 1].isConsistentWithLegGoal
    && Unique(leg)
    && DependenciesResolve(leg)
  }

  /** Finished items ran after their dependencies succeeded; blocked ones have a reason. */
  ghost predicate SoundItem(leg: Leg, item: WorkItem) {
    && (item.status == Blocked ==> HasBadDependency(leg, item))
    && (item.status == Success || item.status == Failed ==> DependenciesSucceeded(leg, item))
  }

  ghost predicate Sound(leg: Leg) {
    forall j, k :: InLeg(leg, j, k) ==> SoundItem(leg, Item(leg, j, k))
  }

  /** Nothing is left to block. */
  ghost predicate Spread(leg: Leg) {
    forall j, k :: InLeg(leg, j, k) && Item(leg, j, k).status == NotStarted ==> !HasBadDependency(leg, Item(leg, j, k))
  }

  // ----- lookups -------------------------------------------------------------------

  lemma LookupAt(leg: Leg, j: int, k: int)
    requires Unique(leg) && InLeg(leg, j, k)
    ensures DependencyStatus(leg, Item(leg, j, k).legGoalVersion, Item(leg, j, k).id) == Some(Item(leg, j, k).status)
  {
    var item := Item(leg, j, k);
    var at := Locate(leg.attempts, item.legGoalVersion, item.id);
    assert Matches(leg.attempts[j].workItems[k], item.legGoalVersion, item.id);
    assert Matches(Item(leg, at.value.attempt, at.value.item), item.legGoalVersion, item.id);
  }

  lemma LookupFound(leg: Leg, version: nat, id: string) returns (j: int, k: int)
    requires DependencyStatus(leg, version, id).Some?
    ensures InLeg(leg, j, k) && Matches(Item(leg, j, k), version, id)
    ensures DependencyStatus(leg, version, id) == Some(Item(leg, j, k).status)
  {
    var p := Locate(leg.attempts, version, id).value;
    j, k := p.attempt, p.item;
  }

  lemma LookupMissing(leg: Leg, version: nat, id: string, j: int, k: int)
    requires DependencyStatus(leg, version, id).None? && InLeg(leg, j, k)
    ensures !Matches(Item(leg, j, k), version, id)
  {
    assert !Matches(leg.attempts[j].workItems[k], version, id);
  }

  lemma DependencyResolves(leg: Leg, j: int, k: int, d: string)
    requires DependenciesResolve(leg) && InLeg(leg, j, k) && d in Item(leg, j, k).dependsOn
    ensures DependencyStatus(leg, Item(leg, j, k).legGoalVersion, d).Some?
  {
    var v := Item(leg, j, k).legGoalVersion;
    assert ResolvesBefore(leg, j, v, d);
    var j2, k2 :| InLeg(leg, j2, k2) && j2 <= j && Matches(Item(leg, j2, k2), v, d);
    if DependencyStatus(leg, v, d).None? { LookupMissing(leg, v, d, j2, k2); }
  }

  lemma BadDependencyWitness(leg: Leg, item: WorkItem)
    ensures HasBadDependency(leg, item) <==>
      exists d :: d in item.dependsOn && DependencyBlocks(DependencyStatus(leg, item.legGoalVersion, d))
  {
    var r := Blockers(leg, item.legGoalVersion, item.dependsOn);
    if r != [] { assert r[0] in r; }
  }

  // ----- settling one waiting item ---------------------------------------------------

  predicate StatusOnly(a: WorkItem, b: WorkItem) {
    b == a.(status := b.status, summary := b.summary, outcome := b.outcome)
  }

  lemma ItemAfterSet(leg: Leg, j: int, k: int, item: WorkItem, a: int, b: int)
    requires InLeg(leg, j, k)
    ensures InLeg(SetItem(leg, j, k, item), a, b) <==> InLeg(leg, a, b)
    ensures InLeg(leg, a, b) ==>
      Item(SetItem(leg, j, k, item), a, b) == if (a, b) == (j, k) then item else Item(leg, a, b)
  {
  }

  lemma SetKeepsUnique(leg: Leg, j: int, k: int, item: WorkItem)
    requires Unique(leg) && InLeg(leg, j, k) && StatusOnly(Item(leg, j, k), item)
    ensures Unique(SetItem(leg, j, k, item))
  {
    var r := SetItem(leg, j, k, item);
    forall a, b, a2, b2 | InLeg(r, a, b) && InLeg(r, a2, b2) && Item(r, a, b).id == Item(r, a2, b2).id &&
      Item(r, a, b).legGoalVersion == Item(r, a2, b2).legGoalVersion
      ensures a == a2 && b == b2
    {
      ItemAfterSet(leg, j, k, item, a, b);
      ItemAfterSet(leg, j, k, item, a2, b2);
      assert Item(leg, a, b).id == Item(leg, a2, b2).id;
    }
  }

  lemma LookupAfterSet(leg: Leg, j: int, k: int, item: WorkItem, version: nat, id: string)
    requires Unique(leg) && InLeg(leg, j, k) && StatusOnly(Item(leg, j, k), item)
    ensures DependencyStatus(SetItem(leg, j, k, item), version, id) ==
      if Matches(Item(leg, j, k), version, id) then Some(item.status) else DependencyStatus(leg, version, id)
  {
    var r := SetItem(leg, j, k, item);
    SetKeepsUnique(leg, j, k, item);
    if DependencyStatus(r, version, id).Some? {
      var a, b := LookupFound(r, version, id);
      ItemAfterSet(leg, j, k, item, a, b);
      LookupAt(leg, a, b);
      ItemAfterSet(leg, j, k, item, j, k);
      LookupAt(r, j, k);
    } else {
      ItemAfterSet(leg, j, k, item, j, k);
      LookupMissing(r, version, id, j, k);
      if DependencyStatus(leg, version, id).Some? {
        var a, b := LookupFound(leg, version, id);
        ItemAfterSet(leg, j, k, item, a, b);
        LookupMissing(r, version, id, a, b);
      }
    }
  }

  lemma SetKeepsResolution(leg: Leg, j: int, k: int, item: WorkItem)
    requires DependenciesResolve(leg) && InLeg(leg, j, k) && StatusOnly(Item(leg, j, k), item)
    ensures DependenciesResolve(SetItem(leg, j, k, item))
  {
    var r := SetItem(leg, j, k, item);
    forall a, b, d | InLeg(r, a, b) && d in Item(r, a, b).dependsOn
      ensures ResolvesBefore(r, a, Item(r, a, b).legGoalVersion, d)
    {
      ItemAfterSet(leg, j, k, item, a, b);
      var v := Item(leg, a, b).legGoalVersion;
      assert ResolvesBefore(leg, a, v, d);
      var a2, b2 :| InLeg(leg, a2, b2) && a2 <= a && Matches(Item(leg, a2, b2), v, d);
      ItemAfterSet(leg, j, k, item, a2, b2);
      assert InLeg(r, a2, b2) && Matches(Item(r, a2, b2), v, d);
    }
  }

  /** The item at (j, k) settles from waiting to `item`. */
  ghost predicate Settles(leg: Leg, j: int, k: int, item: WorkItem) {
    && InLeg(leg, j, k)
    && Item(leg, j, k).status == NotStarted
    && StatusOnly(Item(leg, j, k), item)
    && item.status in {Success, Failed, Blocked}
  }

  lemma WaitingIsInLastAttempt(leg: Leg, j: int, k: int)
    requires LegShape(leg) && InLeg(leg, j, k) && Item(leg, j, k).status == NotStarted
    ensures j == |leg.attempts| - 1
  {
    assert j < |leg.attempts| - 1 ==> Spent(leg.attempts[j]);
  }

  lemma SettleKeepsShape(leg: Leg, j: int, k: int, item: WorkItem)
    requires LegShape(leg) && Settles(leg, j, k, item)
    ensures LegShape(SetItem(leg, j, k, item))
  {
    var r := SetItem(leg, j, k, item);
    WaitingIsInLastAttempt(leg, j, k);
    SetKeepsUnique(leg, j, k, item);
    SetKeepsResolution(leg, j, k, item);
    forall a | 0 <= a < |r.attempts| ensures AttemptFits(r, a) {
      assert AttemptFits(leg, a);
      if a == j {
        assert ItemNodes(r.attempts[a].workItems) == ItemNodes(leg.attempts[a].workItems);
        assert ItemFits(leg, leg.attempts[j], leg.attempts[j].workItems[k]);
        assert forall b :: 0 <= b < |r.attempts[a].workItems| && b != k ==>
            r.attempts[a].workItems[b] == leg.attempts[a].workItems[b];
      }
    }
  }

  /** Settling a waiting item never spoils what the other items rely on. */
  lemma SettleKeepsReliance(leg: Leg, j: int, k: int, item: WorkItem, other: WorkItem)
    requires Unique(leg) && Settles(leg, j, k, item)
    ensures DependenciesSucceeded(leg, other) ==> DependenciesSucceeded(SetItem(leg, j, k, item), other)
    ensures HasBadDependency(leg, other) ==> HasBadDependency(SetItem(leg, j, k, item), other)
  {
    var r := SetItem(leg, j, k, item);
    LookupAt(leg, j, k);
    BadDependencyWitness(leg, other);
    BadDependencyWitness(r, other);
    forall d ensures DependencyStatus(r, other.legGoalVersion, d) == DependencyStatus(leg, other.legGoalVersion, d) ||
                     DependencyStatus(leg, other.legGoalVersion, d) == Some(NotStarted)
    {
      LookupAfterSet(leg, j, k, item, other.legGoalVersion, d);
    }
    if HasBadDependency(leg, other) {
      var d :| d in other.dependsOn && DependencyBlocks(DependencyStatus(leg, other.legGoalVersion, d));
      assert DependencyBlocks(DependencyStatus(r, other.legGoalVersion, d));
    }
  }

  lemma SettleKeepsSound(leg: Leg, j: int, k: int, item: WorkItem)
    requires Unique(leg) && Sound(leg) && Settles(leg, j, k, item)
    requires SoundItem(leg, Item(leg, j, k).(status := item.status))
    ensures Sound(SetItem(leg, j, k, item))
  {
    var r := SetItem(leg, j, k, item);
    forall a, b | InLeg(r, a, b) ensures SoundItem(r, Item(r, a, b)) {
      ItemAfterSet(leg, j, k, item, a, b);
      assert SoundItem(leg, Item(leg, a, b));
      SettleKeepsReliance(leg, j, k, item, Item(leg, a, b).(status := Item(r, a, b).status));
      SameReliance(r, Item(r, a, b), Item(leg, a, b).(status := Item(r, a, b).status));
    }
  }

  /** Readiness depends on an item's version and dependencies alone. */
  lemma SameReliance(leg: Leg, a: WorkItem, b: WorkItem)
    requires a.legGoalVersion == b.legGoalVersion && a.dependsOn == b.dependsOn
    ensures DependenciesSucceeded(leg, a) == DependenciesSucceeded(leg, b)
    ensures HasBadDependency(leg, a) == HasBadDependency(leg, b)
  {
  }

  // ----- spreading blocks ----------------------------------------------------------------

  /** `r` is `leg` with some waiting items, none of them running, turned to Blocked. */
  ghost predicate BlocksOnly(leg: Leg, r: Leg, running: RunningNodes) {
    && SamePlans(leg, r)
    && SameLengths(leg, r)
    && forall j, k :: InLeg(leg, j, k) ==>
         Item(r, j, k) == Item(leg, j, k) ||
         (Item(leg, j, k).status == NotStarted && Item(leg, j, k).key !in running.workItems &&
          Item(r, j, k).status == Blocked && StatusOnly(Item(leg, j, k), Item(r, j, k)))
  }

  /** What one sweep step keeps. */
  ghost predicate SweepKeeps(leg: Leg, r: Leg, running: RunningNodes) {
    && BlocksOnly(leg, r, running)
    && (LegShape(leg) && Sound(leg) ==> LegShape(r) && Sound(r))
  }

  lemma BlocksOnlyTransitive(a: Leg, b: Leg, c: Leg, running: RunningNodes)
    requires BlocksOnly(a, b, running) && BlocksOnly(b, c, running)
    ensures BlocksOnly(a, c, running)
  {
    forall j, k | InLeg(a, j, k)
      ensures Item(c, j, k) == Item(a, j, k) ||
         (Item(a, j, k).status == NotStarted && Item(a, j, k).key !in running.workItems &&
          Item(c, j, k).status == Blocked && StatusOnly(Item(a, j, k), Item(c, j, k)))
    {
      assert InLeg(b, j, k);
    }
  }

  lemma BlockItemKeeps(leg: Leg, j: int, k: int, running: RunningNodes)
    requires InLeg(leg, j, k)
    ensures SweepKeeps(leg, BlockItem(leg, j, k, running), running)
  {
    hide AttemptFits;
    hide ItemFits;
    hide HasBadDependency;
    var item := Item(leg, j, k);
    if Blockable(leg, item, running) {
      var blocked := AsBlocked(leg, item);
      if LegShape(leg) && Sound(leg) {
        SettleKeepsShape(leg, j, k, blocked);
        SameReliance(leg, item, item.(status := Blocked));
        SettleKeepsSound(leg, j, k, blocked);
      }
    }
  }

  lemma SweepKeepsOn(a: Leg, b: Leg, c: Leg, running: RunningNodes)
    ensures SweepKeeps(a, a, running)
    ensures SweepKeeps(a, b, running) && SweepKeeps(b, c, running) ==> SweepKeeps(a, c, running)
  {
    if SweepKeeps(a, b, running) && SweepKeeps(b, c, running) { BlocksOnlyTransitive(a, b, c, running); }
    hide LegShape;
    hide Sound;
  }

  lemma {:induction false} SweepItemsKeeps(leg: Leg, j: nat, k: nat, running: RunningNodes)
    requires j < |leg.attempts|
    ensures SweepKeeps(leg, SweepItems(leg, j, k, running), running)
    decreases |leg.attempts[j].workItems| - k
  {
    hide SweepKeeps;
    if k < |leg.attempts[j].workItems| {
      var next := BlockItem(leg, j, k, running);
      BlockItemKeeps(leg, j, k, running);
      SweepItemsKeeps(next, j, k + 1, running);
      SweepKeepsOn(leg, next, SweepItems(next, j, k + 1, running), running);
    } else {
      SweepKeepsOn(leg, leg, leg, running);
    }
  }

  lemma {:induction false} SweepAttemptsKeeps(leg: Leg, j: nat, running: RunningNodes)
    ensures SweepKeeps(leg, SweepAttempts(leg, j, running), running)
    decreases |leg.attempts| - j
  {
    hide SweepKeeps;
    if j < |leg.attempts| {
      var next := SweepItems(leg, j, 0, running);
      SweepItemsKeeps(leg, j, 0, running);
      SweepAttemptsKeeps(next, j + 1, running);
      SweepKeepsOn(leg, next, SweepAttempts(next, j + 1, running), running);
    } else {
      SweepKeepsOn(leg, leg, leg, running);
    }
  }

  lemma {:induction false} SpreadBlocksKeeps(leg: Leg, running: RunningNodes)
    ensures SweepKeeps(leg, SpreadBlocks(leg, running), running)
    decreases Waiting(leg)
  {
    hide SweepKeeps;
    var next := SweepAttempts(leg, 0, running);
    SweepAttemptsKeeps(leg, 0, running);
    if next != leg {
      SpreadBlocksKeeps(next, running);
      SweepKeepsOn(leg, next, SpreadBlocks(next, running), running);
    }
  }

  lemma ShrinksBack(a: Leg, b: Leg)
    requires Shrinks(a, b) && Shrinks(b, a)
    ensures a == b
  {
  }

  lemma {:induction false} IdleSweepItems(leg: Leg, j: nat, k: nat, running: RunningNodes)
    requires j < |leg.attempts| && SweepItems(leg, j, k, running) == leg
    ensures forall t :: k <= t < |leg.attempts[j].workItems| ==> !Blockable(leg, leg.attempts[j].workItems[t], running)
    decreases |leg.attempts[j].workItems| - k
  {
    if k < |leg.attempts[j].workItems| {
      ShrinksBack(leg, BlockItem(leg, j, k, running));
      assert !Blockable(leg, Item(leg, j, k), running);
      IdleSweepItems(leg, j, k + 1, running);
    }
  }

  lemma {:induction false} IdleSweepAttempts(leg: Leg, j: nat, running: RunningNodes)
    requires SweepAttempts(leg, j, running) == leg
    ensures forall a, b :: j <= a && InLeg(leg, a, b) ==> !Blockable(leg, Item(leg, a, b), running)
    decreases |leg.attempts| - j
  {
    if j < |leg.attempts| {
      ShrinksBack(leg, SweepItems(leg, j, 0, running));
      IdleSweepItems(leg, j, 0, running);
      IdleSweepAttempts(leg, j + 1, running);
    }
  }

  /** After spreading, no item that could be blocked is left. */
  lemma SpreadBlocksComplete(leg: Leg, running: RunningNodes)
    ensures var r := SpreadBlocks(leg, running);
      forall j, k :: InLeg(r, j, k) ==> !Blockable(r, Item(r, j, k), running)
  {
    IdleSweepAttempts(SpreadBlocks(leg, running), 0, running);
  }

  /** Successes survive spreading, so whoever could rely on them still can. */
  lemma BlocksKeepReliance(leg: Leg, r: Leg, running: RunningNodes, item: WorkItem)
    requires BlocksOnly(leg, r, running) && Unique(r)
    requires DependenciesSucceeded(leg, item)
    ensures DependenciesSucceeded(r, item)
  {
    forall d | d in item.dependsOn ensures DependencyStatus(r, item.legGoalVersion, d) == Some(Success) {
      var j, k := LookupFound(leg, item.legGoalVersion, d);
      assert Item(r, j, k) == Item(leg, j, k);
      LookupAt(r, j, k);
    }
  }

  lemma SucceededHasNoBad(leg: Leg, item: WorkItem)
    requires DependenciesSucceeded(leg, item)
    ensures !HasBadDependency(leg, item)
  {
    BadDependencyWitness(leg, item);
  }

  // ----- readiness under an acyclic plan -----------------------------------------------------

  lemma EarliestWaiting(leg: Leg, order: seq<string>, p: nat) returns (k: nat)
    requires LegShape(leg) && p < |order|
    requires var items := leg.attempts[|leg.attempts| - 1].workItems;
      exists t :: 0 <= t < |items| && items[t].id == order[p] && items[t].status == NotStarted
    ensures var items := leg.attempts[|leg.attempts| - 1].workItems;
      k < |items| && items[k].status == NotStarted &&
      exists q :: 0 <= q <= p && items[k].id == order[q] &&
        forall q2, t :: 0 <= q2 < q && 0 <= t < |items| && items[t].id == order[q2] ==> items[t].status != NotStarted
    decreases p
  {
    var items := leg.attempts[|leg.attempts| - 1].workItems;
    if q2, t :| 0 <= q2 < p && 0 <= t < |items| && items[t].id == order[q2] && items[t].status == NotStarted {
      k := EarliestWaiting(leg, order, q2);
    } else {
      k :| 0 <= k < |items| && items[k].id == order[p] && items[k].status == NotStarted;
    }
  }

  /** While work is waiting and nothing is left to block, some waiting item is ready. */
  lemma SomeItemIsReady(leg: Leg, k0: nat) returns (k: nat)
    requires LegShape(leg) && Spread(leg)
    requires InLeg(leg, |leg.attempts| - 1, k0) && Item(leg, |leg.attempts| - 1, k0).status == NotStarted
    ensures InLeg(leg, |leg.attempts| - 1, k)
    ensures Item(leg, |leg.attempts| - 1, k).status == NotStarted
    ensures DependenciesSucceeded(leg, Item(leg, |leg.attempts| - 1, k))
  {
    var j := |leg.attempts| - 1;
    var items := leg.attempts[j].workItems;
    assert AttemptFits(leg, j);
    var g := GraphOf(ItemNodes(items));
    var order :| Topological(g, order);
    assert ItemNodes(items)[k0].id in g;
    var p :| 0 <= p < |order| && order[p] == items[k0].id;
    k := EarliestWaiting(leg, order, p);
    var q :| 0 <= q <= p && items[k].id == order[q] &&
      forall q2, t :: 0 <= q2 < q && 0 <= t < |items| && items[t].id == order[q2] ==> items[t].status != NotStarted;
    forall d | d in items[k].dependsOn
      ensures DependencyStatus(leg, items[k].legGoalVersion, d) == Some(Success)
    {
      DependencyOfEarliest(leg, order, q, k, d);
    }
  }

  lemma PlanNodesDistinct(leg: Leg, j: nat)
    requires LegShape(leg) && j < |leg.attempts|
    ensures DistinctIds(ItemNodes(leg.attempts[j].workItems))
  {
    var items := leg.attempts[j].workItems;
    assert AttemptFits(leg, j);
    forall a, b | 0 <= a < b < |items| ensures items[a].id != items[b].id {
      assert ItemFits(leg, leg.attempts[j], items[a]) && ItemFits(leg, leg.attempts[j], items[b]);
      assert Item(leg, j, a) == items[a] && Item(leg, j, b) == items[b];
    }
  }

  /** In plan order, a dependency inside the plan comes first. */
  lemma DependencyComesFirst(leg: Leg, j: nat, order: seq<string>, q: nat, k: nat, d: string, t: nat)
    requires LegShape(leg) && InLeg(leg, j, k) && InLeg(leg, j, t)
    requires Topological(GraphOf(ItemNodes(leg.attempts[j].workItems)), order)
    requires q < |order| && Item(leg, j, k).id == order[q]
    requires d in Item(leg, j, k).dependsOn && Item(leg, j, t).id == d
    ensures d in order[..q]
  {
    var nodes := ItemNodes(leg.attempts[j].workItems);
    PlanNodesDistinct(leg, j);
    EdgesAt(nodes, Ids(nodes), k);
    assert nodes[t].id in Ids(nodes);
    assert d in GraphOf(nodes)[order[q]];
  }

  lemma DependencyOfEarliest(leg: Leg, order: seq<string>, q: nat, k: nat, d: string)
    requires LegShape(leg) && Spread(leg)
    requires InLeg(leg, |leg.attempts| - 1, k) && Item(leg, |leg.attempts| - 1, k).status == NotStarted
    requires Topological(GraphOf(ItemNodes(leg.attempts[|leg.attempts| - 1].workItems)), order)
    requires q < |order| && Item(leg, |leg.attempts| - 1, k).id == order[q]
    requires var items := leg.attempts[|leg.attempts| - 1].workItems;
      forall q2, t :: 0 <= q2 < q && 0 <= t < |items| && items[t].id == order[q2] ==> items[t].status != NotStarted
    requires d in Item(leg, |leg.attempts| - 1, k).dependsOn
    ensures DependencyStatus(leg, Item(leg, |leg.attempts| - 1, k).legGoalVersion, d) == Some(Success)
  {
    var j := |leg.attempts| - 1;
    var item := Item(leg, j, k);
    DependencyResolves(leg, j, k, d);
    var a, b := LookupFound(leg, item.legGoalVersion, d);
    assert AttemptFits(leg, a) && ItemFits(leg, leg.attempts[a], Item(leg, a, b));
    if a == j {
      DependencyComesFirst(leg, j, order, q, k, d, b);
      var q2 :| 0 <= q2 < q && order[..q][q2] == d;
      assert order[q2] == d && leg.attempts[j].workItems[b].id == d;
    } else {
      assert Spent(leg.attempts[a]);
    }
    assert IsItemTerminal(Item(leg, a, b).status);
    BadDependencyWitness(leg, item);
  }
}
