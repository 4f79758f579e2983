/** The task registry as an object; an asynchronous method is split where it awaits. */
module TaskSupervisor {
  import opened Text
  import opened TaskRegistry
  import opened Wakeups

  class RunBackgroundTaskSupervisor {
    var entries: seq<TaskEntry>
    var changes: nat
    var disposedReason: Option<string>
    var minted: nat
    var emitted: seq<TaskEvent>
    var wakers: set<Waker>
    ghost var registered: seq<TaskEntry>
    ghost var settled: seq<TaskId>
    ghost var handled: seq<TaskId>

    ghost function View(): Registry
      reads this
    {
      Registry(entries, changes, disposedReason, minted, registered, settled, handled)
    }

    ghost predicate Valid()
      reads this
    {
      RegistryInv(View())
    }

    /** The state after `m`, its events emitted after the earlier ones. A removal makes the
        loop run the wakers. */
    twostate predicate Did(m: Moved)
      reads this
    {
      View() == m.registry && emitted == old(emitted) + m.events && wakers == old(wakers)
    }

    constructor ()
      ensures Valid() && View() == NO_TASKS && emitted == [] && wakers == {}
    {
      entries, changes, disposedReason, minted, emitted, wakers := [], 0, None, 0, [], {};
      registered, settled, handled := [], [], [];
      new;
      EmptyRegistry();
    }

    /** Adopt a task; `adopted` is false for a task the latch turned away or whose tag is
        taken. */
    method Register(tag: Tag, silent: bool) returns (taskId: TaskId, adopted: bool)
      requires Valid()
      modifies this
      ensures Valid() && Did(TaskRegistry.Register(old(View()), tag, silent))
      ensures taskId == old(minted) && (adopted <==> Registering(old(View()), tag).Adopted?)
    {
      hide RegistryInv;
      RegisterKeeps(View(), tag, silent);
      hide FindTag;
      taskId, minted := minted, minted + 1;
      if disposedReason.Some? { return taskId, false; }
      var at := FindActive(tag);
      if at < |entries| { return taskId, false; }
      var entry := TaskEntry(taskId, tag, silent, Active);
      entries, registered := entries + [entry], registered + [entry];
      emitted := emitted + [TaskRegistered(taskId, tag)];
      return taskId, true;
    }

    /** The lone tag lookup. */
    method FindActive(tag: Tag) returns (at: nat)
      ensures at == FindTag(entries, tag)
    {
      at := 0;
      while at < |entries| && entries[at].tag != tag
        invariant at <= |entries|
        invariant FindTag(entries, tag) == at + FindTag(entries[at..], tag)
      {
        assert entries[at..][1..] == entries[at + 1..];
        at := at + 1;
      }
    }

    method Lookup(id: TaskId) returns (at: nat)
      ensures at == FindId(entries, id)
    {
      at := 0;
      while at < |entries| && entries[at].id != id
        invariant at <= |entries|
        invariant FindId(entries, id) == at + FindId(entries[at..], id)
      {
        assert entries[at..][1..] == entries[at + 1..];
        at := at + 1;
      }
    }

    /** A task's own promise settled; dropped when the task is already settling. */
    method Settle(id: TaskId, outcome: TaskOutcome)
      requires Valid()
      modifies this
      ensures Valid() && Did(TaskRegistry.Settle(old(View()), id, outcome))
    {
      hide RegistryInv;
      MoveKeeps(View(), TaskDone(id, outcome));
      hide TaskRegistry.BeginComplete;
      var at := Lookup(id);
      if at == |entries| || Settling(entries[at]) { return; }
      BeginComplete(at, outcome);
    }

    /** Up to the teardown's await. */
    method Cancel(tag: Tag, reason: Option<string>) returns (cancelling: bool)
      requires Valid()
      modifies this
      ensures Valid() && Did(TaskRegistry.Cancel(old(View()), tag, reason))
      ensures cancelling <==> Cancels(old(View()), tag)
    {
      hide RegistryInv;
      MoveKeeps(View(), CancelTask(tag, reason));
      var at := FindActive(tag);
      if at == |entries| || Settling(entries[at]) { return false; }
      entries := entries[at := entries[at].(stage := TearingDown(TaskOutcome(TaskCancelled, CancelText(reason))))];
      return true;
    }

    /** The cancel callback returned, whether it threw or not. */
    method TeardownReturned(id: TaskId)
      requires Valid()
      modifies this
      ensures Valid() && Did(TeardownReturns(old(View()), id))
    {
      hide RegistryInv;
      MoveKeeps(View(), TeardownDone(id));
      hide TaskRegistry.BeginComplete;
      var at := Lookup(id);
      if at == |entries| || !entries[at].stage.TearingDown? { return; }
      BeginComplete(at, entries[at].stage.pending);
    }

    /** Start completion handling of entry `at`: invoke its handler, or skip to the end. */
    method BeginComplete(at: nat, outcome: TaskOutcome)
      requires at < |entries|
      modifies this
      ensures Did(TaskRegistry.BeginComplete(old(View()), at, outcome))
    {
      if entries[at].silent {
        Remove(at, outcome);
      } else {
        handled := handled + [entries[at].id];
        entries := entries[at := entries[at].(stage := Completing(outcome))];
      }
    }

    /** The handler returned, threw or ran out of time. */
    method CompletionReturned(id: TaskId)
      requires Valid()
      modifies this
      ensures Valid() && Did(CompletionReturns(old(View()), id))
    {
      hide RegistryInv;
      MoveKeeps(View(), CompletionDone(id));
      var at := Lookup(id);
      if at == |entries| || !entries[at].stage.Completing? { return; }
      Remove(at, entries[at].stage.pending);
    }

    method Remove(at: nat, outcome: TaskOutcome)
      requires at < |entries|
      modifies this
      ensures Did(TaskRegistry.Remove(old(View()), at, outcome))
    {
      var e := entries[at];
      entries := entries[..at] + entries[at + 1..];
      settled := settled + [e.id];
      changes := changes + 1;
      emitted := emitted + [TaskSettled(e.id, e.tag, outcome)];
    }

    method IsEmpty() returns (empty: bool)
      ensures empty <==> entries == []
    {
      empty := |entries| == 0;
    }

    /** Level-triggered against the captured count: ready once the registry has changed
        since, or with the signal aborted, else hooked to the next change. */
    method WaitForChange(since: nat, waker: Waker, aborted: bool) returns (ready: bool)
      requires Valid()
      modifies this`wakers
      ensures Valid() && (ready <==> changes != since || aborted)
      ensures wakers == if ready then old(wakers) else old(wakers) + {waker}
    {
      ready := changes != since || aborted;
      if !ready { wakers := wakers + {waker}; }
    }

    /** Latch the registry and start tearing down every task that is not settling yet; the
        ones that are keep their own pace. */
    method DisposeAll(reason: string)
      requires Valid()
      modifies this
      ensures Valid() && View() == Dispose(old(View()), reason) && emitted == old(emitted) && wakers == old(wakers)
    {
      hide RegistryInv;
      DisposeKeeps(View(), reason);
      if disposedReason.None? { disposedReason := Some(reason); }
      LatchOpen(reason);
    }

    method LatchOpen(reason: string)
      modifies this`entries
      ensures entries == StartTeardown(old(entries), reason)
    {
      ghost var target := StartTeardown(entries, reason);
      for i := 0 to |entries|
        invariant |entries| == |old(entries)|
        invariant forall k :: 0 <= k < i ==> entries[k] == target[k]
        invariant forall k :: i <= k < |entries| ==> entries[k] == old(entries)[k]
      {
        if !Settling(entries[i]) {
          entries := entries[i := entries[i].(stage := TearingDown(TaskOutcome(TaskCancelled, reason)))];
        }
      }
    }
  }
}
