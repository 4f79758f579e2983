/** Who decided how a background task ended. */
module AgentRunTasks {
  import opened Text
  import opened TaskRegistry
  import opened RunHistory
  import opened ToolBatch
  import opened RunEvents
  import opened Wakeups
  import opened AgentRun
  import opened AgentRunInvariant
  import opened AgentRunDelivery
  import opened AgentRunTheorems
  import opened AgentRunLog

  predicate ActiveAt(es: seq<TaskEntry>, i: nat, id: TaskId) {
    i < |es| && es[i].id == id && es[i].stage.Active?
  }

  predicate PendingAt(es: seq<TaskEntry>, i: nat, id: TaskId, outcome: TaskOutcome) {
    i < |es| && es[i].id == id && Settling(es[i]) && es[i].stage.pending == outcome
  }

  ghost predicate Active(es: seq<TaskEntry>, id: TaskId) {
    exists i: nat :: ActiveAt(es, i, id)
  }

  ghost predicate Pending(es: seq<TaskEntry>, id: TaskId, outcome: TaskOutcome) {
    exists i: nat :: PendingAt(es, i, id, outcome)
  }

  // ----- one move of the registry -----------------------------------------------------------

  /** The move ends the running task `id` with this outcome: the one the task itself came
      to, or a cancellation with the reason given. */
  ghost predicate MoveDecides(r: Registry, m: TaskMove, id: TaskId, outcome: TaskOutcome) {
    exists i: nat :: ActiveAt(r.entries, i, id) &&
      match m
      case TaskDone(task, o) => task == id && o == outcome
      case CancelTask(tag, reason) =>
        tag == r.entries[i].tag &&
        outcome == TaskOutcome(TaskCancelled, if reason.Some? then reason.value else "cancelled")
      case _ => false
  }

  ghost predicate Settles(events: seq<TaskEvent>, id: TaskId, outcome: TaskOutcome) {
    exists tag :: TaskSettled(id, tag, outcome) in events
  }

  /** What is pending or settles after a move was pending before or is decided by it, and what
      it decides is pending or settles then. */
  ghost predicate DecidesWell(r: Registry, m: TaskMove, moved: Moved) {
    && (forall id: TaskId, o :: Pending(moved.registry.entries, id, o) || Settles(moved.events, id, o) ==>
          Pending(r.entries, id, o) || MoveDecides(r, m, id, o))
    && (forall id: TaskId, o :: MoveDecides(r, m, id, o) ==>
          Pending(moved.registry.entries, id, o) || Settles(moved.events, id, o))
    && (forall id: TaskId :: Active(moved.registry.entries, id) ==>
          (Active(r.entries, id) || id == r.minted) && forall o :: !MoveDecides(r, m, id, o))
    && r.minted <= moved.registry.minted
  }

  lemma Restaged(es: seq<TaskEntry>, i: nat, stage: Stage, id: TaskId, o: TaskOutcome)
    requires i < |es| && !stage.Active? && DistinctTasks(es)
    ensures var n := es[i := es[i].(stage := stage)];
      && (Pending(n, id, o) ==> Pending(es, id, o) || (id == es[i].id && o == stage.pending))
      && (Active(n, id) ==> Active(es, id) && id != es[i].id)
      && Pending(n, es[i].id, stage.pending)
  {
    var n := es[i := es[i].(stage := stage)];
    assert PendingAt(n, i, es[i].id, stage.pending);
    if Pending(n, id, o) {
      var x: nat :| PendingAt(n, x, id, o);
      assert x != i ==> PendingAt(es, x, id, o);
    }
    if Active(n, id) {
      var x: nat :| ActiveAt(n, x, id);
      assert ActiveAt(es, x, id);
    }
  }

  lemma Removed(es: seq<TaskEntry>, i: nat, id: TaskId, o: TaskOutcome)
    requires i < |es| && DistinctTasks(es)
    ensures var n := RemoveAt(es, i);
      && (Pending(n, id, o) ==> Pending(es, id, o))
      && (Active(n, id) ==> Active(es, id) && id != es[i].id)
  {
    var n := RemoveAt(es, i);
    forall x: nat | x < |n| ensures n[x] == es[if x < i then x else x + 1] {}
    if Pending(n, id, o) {
      var x: nat :| PendingAt(n, x, id, o);
      assert PendingAt(es, if x < i then x else x + 1, id, o);
    }
    if Active(n, id) {
      var x: nat :| ActiveAt(n, x, id);
      assert ActiveAt(es, if x < i then x else x + 1, id);
    }
  }

  /** Completion begins with this outcome: the entry is pending with it or goes at once. */
  lemma Completes(r: Registry, i: nat, outcome: TaskOutcome)
    requires i < |r.entries| && DistinctTasks(r.entries)
    ensures var moved, id := BeginComplete(r, i, outcome), r.entries[i].id;
      && (Pending(moved.registry.entries, id, outcome) || Settles(moved.events, id, outcome))
      && (forall t, o :: Settles(moved.events, t, o) ==> t == id && o == outcome)
      && (forall t, o :: Pending(moved.registry.entries, t, o) ==>
            Pending(r.entries, t, o) || (t == id && o == outcome))
      && (forall t :: Active(moved.registry.entries, t) ==> Active(r.entries, t) && t != id)
      && moved.registry.minted == r.minted
  {
    var moved, id := BeginComplete(r, i, outcome), r.entries[i].id;
    forall t, o
      ensures Pending(moved.registry.entries, t, o) ==> Pending(r.entries, t, o) || (t == id && o == outcome)
    {
      if r.entries[i].silent { Removed(r.entries, i, t, o); }
      else { Restaged(r.entries, i, Completing(outcome), t, o); }
    }
    forall t ensures Active(moved.registry.entries, t) ==> Active(r.entries, t) && t != id {
      if r.entries[i].silent { Removed(r.entries, i, t, outcome); }
      else { Restaged(r.entries, i, Completing(outcome), t, outcome); }
    }
    if r.entries[i].silent { assert TaskSettled(id, r.entries[i].tag, outcome) in moved.events; }
    else { Restaged(r.entries, i, Completing(outcome), id, outcome); }
  }

  lemma MoveDecidesWell(r: Registry, m: TaskMove)
    requires DistinctTasks(r.entries) && DistinctTags(r.entries)
    ensures DecidesWell(r, m, Move(r, m))
  {
    hide BeginComplete;
    hide Pending;
    hide Active;
    match m {
      case RegisterTask(tag, silent) => RegisterDecidesNothing(r, tag, silent);
      case TaskDone(id, outcome) => DoneDecides(r, id, outcome);
      case CancelTask(tag, reason) => CancelDecides(r, tag, reason);
      case TeardownDone(id) =>
        var i := FindId(r.entries, id);
        if i < |r.entries| && r.entries[i].stage.TearingDown? {
          assert PendingAt(r.entries, i, id, r.entries[i].stage.pending);
          Completes(r, i, r.entries[i].stage.pending);
          PendingHere(r.entries, i);
        }
      case CompletionDone(id) =>
        var i := FindId(r.entries, id);
        if i < |r.entries| && r.entries[i].stage.Completing? {
          var pending := r.entries[i].stage.pending;
          PendingHere(r.entries, i);
          forall t, o ensures Pending(RemoveAt(r.entries, i), t, o) ==> Pending(r.entries, t, o) {
            Removed(r.entries, i, t, o);
          }
          forall t ensures Active(RemoveAt(r.entries, i), t) ==> Active(r.entries, t) {
            Removed(r.entries, i, t, pending);
          }
        }
    }
  }

  lemma PendingHere(es: seq<TaskEntry>, i: nat)
    requires i < |es| && Settling(es[i])
    ensures Pending(es, es[i].id, es[i].stage.pending)
  {
    assert PendingAt(es, i, es[i].id, es[i].stage.pending);
  }

  lemma RegisterDecidesNothing(r: Registry, tag: Tag, silent: bool)
    ensures DecidesWell(r, RegisterTask(tag, silent), Register(r, tag, silent))
  {
    var n := Register(r, tag, silent).registry;
    forall id: TaskId, o | Pending(n.entries, id, o) ensures Pending(r.entries, id, o) {
      var x: nat :| PendingAt(n.entries, x, id, o);
      assert PendingAt(r.entries, x, id, o);
    }
    forall id | Active(n.entries, id) ensures Active(r.entries, id) || id == r.minted {
      var x: nat :| ActiveAt(n.entries, x, id);
      assert x < |r.entries| ==> ActiveAt(r.entries, x, id);
    }
    hide Pending;
    hide Active;
  }

  lemma DoneDecides(r: Registry, id: TaskId, outcome: TaskOutcome)
    requires DistinctTasks(r.entries)
    ensures DecidesWell(r, TaskDone(id, outcome), Settle(r, id, outcome))
  {
    var i := FindId(r.entries, id);
    if i < |r.entries| && !Settling(r.entries[i]) {
      assert ActiveAt(r.entries, i, id);
      Completes(r, i, outcome);
    }
    hide BeginComplete;
    hide Pending;
    hide Active;
  }

  lemma CancelDecides(r: Registry, tag: Tag, reason: Option<string>)
    requires DistinctTasks(r.entries) && DistinctTags(r.entries)
    ensures DecidesWell(r, CancelTask(tag, reason), Cancel(r, tag, reason))
  {
    var i := FindTag(r.entries, tag);
    if Cancels(r, tag) {
      var outcome := TaskOutcome(TaskCancelled, CancelText(reason));
      assert ActiveAt(r.entries, i, r.entries[i].id);
      var n := r.entries[i := r.entries[i].(stage := TearingDown(outcome))];
      forall t, o
        ensures Pending(n, t, o) ==> Pending(r.entries, t, o) || (t == r.entries[i].id && o == outcome)
      {
        Restaged(r.entries, i, TearingDown(outcome), t, o);
      }
      forall t ensures Active(n, t) ==> Active(r.entries, t) && t != r.entries[i].id {
        Restaged(r.entries, i, TearingDown(outcome), t, outcome);
      }
      Restaged(r.entries, i, TearingDown(outcome), r.entries[i].id, outcome);
    }
    hide Pending;
    hide Active;
  }

  // ----- one step of a run --------------------------------------------------------------------

  /** The step decides: by its move, or by finishing the run, which cancels what still runs. */
  ghost predicate StepDecides(w: World, m: RunMove, n: World, id: TaskId, outcome: TaskOutcome) {
    if m.TasksMove? then MoveDecides(w.tasks, m.task, id, outcome)
    else
      w.handle.finished.None? && n.handle.finished.Some? && Active(w.tasks.entries, id) &&
      outcome == TaskOutcome(TaskCancelled, "run finished")
  }

  /** Away from a task move the registry stays, or is disposed by the finish. */
  predicate TasksStay(w: World, n: World) {
    n.tasks == if w.handle.finished.None? && n.handle.finished.Some? then Dispose(w.tasks, "run finished") else w.tasks
  }

  lemma TopTasks(w: World)
    requires w.handle.finished.None?
    ensures TasksStay(w, TopOfLoop(w))
  {
    hide Dispose;
    hide SteerMessages;
    hide NoteMessages;
  }

  lemma ContinueTasks(w: World)
    requires w.handle.finished.None? && w.pc.BatchReturned?
    ensures TasksStay(w, BatchContinues(w, w.pc.calls, w.pc.results))
  {
    TopTasks(w.(llm := w.llm + [ToolResults(NormalizeBatch(w.pc.calls, w.pc.results))]));
    hide TopOfLoop;
    hide Dispose;
    hide NormalizeBatch;
    hide TerminalResult;
  }

  lemma StepTasks(w: World, m: RunMove)
    requires (w.handle.finished.Some? <==> w.pc.Done?) && !m.TasksMove?
    ensures TasksStay(w, RunStep(w, m))
  {
    hide Dispose;
    hide TopOfLoop;
    hide BatchContinues;
    hide BatchStep;
    match m {
      case WakeUp => if w.pc.Parked? { TopTasks(w.(wakers := EndRace(w.wakers, w.pc.race))); }
      case HookReturnsMove => if w.pc.RestHook? { TopTasks(w); }
      case BatchesMove(bm) => if w.pc.InBatch? { BatchStepQuiet(w, w.pc.batch, bm); }
      case BatchContinuesMove => if w.pc.BatchReturned? { ContinueTasks(w); }
      case _ =>
    }
  }

  predicate SettledBody(body: EventBody, id: TaskId, outcome: TaskOutcome) {
    body.TaskLifecycle? && body.task.TaskSettled? && body.task.id == id && body.task.outcome == outcome
  }

  ghost predicate LogsSettled(events: seq<Event>, id: TaskId, outcome: TaskOutcome) {
    exists x: nat :: x < |events| && SettledBody(events[x].body, id, outcome)
  }

  /** One step: what is pending or reported settled after it was so before or is decided by
      it; what it decides is pending or reported then, and runs no more. */
  ghost predicate StepDecidesWell(w: World, m: RunMove, n: World) {
    && (forall id: TaskId, o :: Pending(n.tasks.entries, id, o) || LogsSettled(n.handle.events, id, o) ==>
          Pending(w.tasks.entries, id, o) || LogsSettled(w.handle.events, id, o) || StepDecides(w, m, n, id, o))
    && (forall id: TaskId, o :: StepDecides(w, m, n, id, o) ==>
          Pending(n.tasks.entries, id, o) || LogsSettled(n.handle.events, id, o))
    && (forall id: TaskId :: Active(n.tasks.entries, id) ==>
          (Active(w.tasks.entries, id) || id == w.tasks.minted) && forall o :: !StepDecides(w, m, n, id, o))
    && w.tasks.minted <= n.tasks.minted
  }

  lemma TaskLogSettles(w: World, m: TaskMove, id: TaskId, o: TaskOutcome)
    ensures LogsSettled(TaskStep(w, m).handle.events, id, o) <==>
      LogsSettled(w.handle.events, id, o) || Settles(Move(w.tasks, m).events, id, o)
  {
    hide Move;
    var events := Move(w.tasks, m).events;
    var n := TaskStep(w, m);
    EmitAllAppends(w.handle, TaskEvents(events));
    var a, b := w.handle.events, n.handle.events;
    assert Bodies(b) == Bodies(a) + TaskEvents(events);
    if LogsSettled(b, id, o) {
      var x: nat :| x < |b| && SettledBody(b[x].body, id, o);
      assert Bodies(b)[x] == b[x].body;
      if x < |a| { assert a[x].body == Bodies(a)[x]; }
      else { assert TaskSettled(id, events[x - |a|].tag, o) in events; }
    }
    if LogsSettled(a, id, o) {
      var x: nat :| x < |a| && SettledBody(a[x].body, id, o);
      assert Bodies(b)[x] == Bodies(a)[x];
      assert SettledBody(b[x].body, id, o);
    }
    if Settles(events, id, o) {
      var tag :| TaskSettled(id, tag, o) in events;
      var x: nat :| x < |events| && events[x] == TaskSettled(id, tag, o);
      assert Bodies(b)[|a| + x] == TaskEvents(events)[x];
      assert SettledBody(b[|a| + x].body, id, o);
    }
  }

  /** No other step reports a settled task. */
  lemma OtherLogSettles(w: World, m: RunMove, n: World, id: TaskId, o: TaskOutcome)
    requires Told(w, m, n) && !m.TasksMove?
    ensures LogsSettled(n.handle.events, id, o) <==> LogsSettled(w.handle.events, id, o)
  {
    var said: seq<EventBody> :| Logs(w, n, said) && Announces(w, m, n, said);
    assert forall x :: 0 <= x < |said| ==> !said[x].TaskLifecycle?;
    var a, b := w.handle.events, n.handle.events;
    forall x: nat | |a| <= x < |b| ensures !SettledBody(b[x].body, id, o) {
      assert Bodies(b)[x] == said[x - |a|];
    }
    if LogsSettled(b, id, o) {
      var x: nat :| x < |b| && SettledBody(b[x].body, id, o);
      assert Bodies(b)[x] == Bodies(a)[x];
    }
    if LogsSettled(a, id, o) {
      var x: nat :| x < |a| && SettledBody(a[x].body, id, o);
      assert Bodies(b)[x] == Bodies(a)[x];
      assert SettledBody(b[x].body, id, o);
    }
    hide Announces;
  }

  lemma TaskStepDecides(w: World, m: TaskMove)
    requires DistinctTasks(w.tasks.entries) && DistinctTags(w.tasks.entries)
    ensures StepDecidesWell(w, TasksMove(m), TaskStep(w, m))
  {
    MoveDecidesWell(w.tasks, m);
    forall id: TaskId, o ensures LogsSettled(TaskStep(w, m).handle.events, id, o) <==>
      LogsSettled(w.handle.events, id, o) || Settles(Move(w.tasks, m).events, id, o)
    {
      TaskLogSettles(w, m, id, o);
    }
    hide Move;
    hide Pending;
    hide Active;
    hide Settles;
    hide LogsSettled;
    hide MoveDecides;
  }

  lemma DisposeDecides(es: seq<TaskEntry>, reason: string, id: TaskId, o: TaskOutcome)
    ensures var n := StartTeardown(es, reason);
      && !Active(n, id)
      && (Pending(n, id, o) <==> Pending(es, id, o) || (Active(es, id) && o == TaskOutcome(TaskCancelled, reason)))
  {
    var n := StartTeardown(es, reason);
    if Pending(n, id, o) {
      var x: nat :| PendingAt(n, x, id, o);
      assert if Settling(es[x]) then PendingAt(es, x, id, o) else ActiveAt(es, x, id);
    }
    if Pending(es, id, o) {
      var x: nat :| PendingAt(es, x, id, o);
      assert PendingAt(n, x, id, o);
    }
    if Active(es, id) {
      var x: nat :| ActiveAt(es, x, id);
      assert PendingAt(n, x, id, TaskOutcome(TaskCancelled, reason));
    }
  }

  lemma OtherStepDecides(w: World, m: RunMove, n: World)
    requires TasksStay(w, n) && !m.TasksMove? && Told(w, m, n)
    ensures StepDecidesWell(w, m, n)
  {
    forall id: TaskId, o ensures LogsSettled(n.handle.events, id, o) <==> LogsSettled(w.handle.events, id, o) {
      OtherLogSettles(w, m, n, id, o);
    }
    var es := w.tasks.entries;
    if w.handle.finished.None? && n.handle.finished.Some? {
      forall id: TaskId, o ensures !Active(n.tasks.entries, id) && (Pending(n.tasks.entries, id, o) <==>
        Pending(es, id, o) || (Active(es, id) && o == TaskOutcome(TaskCancelled, "run finished")))
      {
        DisposeDecides(es, "run finished", id, o);
      }
      forall id ensures !Active(n.tasks.entries, id) {
        DisposeDecides(es, "run finished", id, TaskOutcome(TaskFailed, ""));
      }
    }
    hide Pending;
    hide Active;
    hide LogsSettled;
    hide Told;
  }

  // ----- over whole runs --------------------------------------------------------------------------

  ghost predicate DecidedAt(config: Config, moves: seq<RunMove>, t: nat, id: TaskId, outcome: TaskOutcome) {
    t < |moves| &&
    StepDecides(ExecRun(config, moves[..t]), moves[t], ExecRun(config, moves[..t + 1]), id, outcome)
  }

  ghost predicate Decided(config: Config, moves: seq<RunMove>, id: TaskId, outcome: TaskOutcome) {
    exists t: nat :: DecidedAt(config, moves, t, id, outcome)
  }

  ghost predicate OutcomesDecided(config: Config, moves: seq<RunMove>) {
    var w := ExecRun(config, moves);
    && (forall id: TaskId, o :: Pending(w.tasks.entries, id, o) || LogsSettled(w.handle.events, id, o) ==>
          Decided(config, moves, id, o))
    && (forall id: TaskId, o :: Decided(config, moves, id, o) ==> id < w.tasks.minted && !Active(w.tasks.entries, id))
  }

  lemma DecidedAfter(config: Config, moves: seq<RunMove>, m: RunMove, id: TaskId, o: TaskOutcome)
    ensures Decided(config, moves + [m], id, o) <==>
      Decided(config, moves, id, o) || StepDecides(ExecRun(config, moves), m, ExecRun(config, moves + [m]), id, o)
  {
    hide ExecRun;
    hide StepDecides;
    var all := moves + [m];
    assert all[..|moves|] == moves && all[..|moves| + 1] == all;
    if Decided(config, moves, id, o) {
      var t: nat :| DecidedAt(config, moves, t, id, o);
      assert all[..t] == moves[..t] && all[..t + 1] == moves[..t + 1];
      assert DecidedAt(config, all, t, id, o);
    }
    if StepDecides(ExecRun(config, moves), m, ExecRun(config, all), id, o) {
      assert DecidedAt(config, all, |moves|, id, o);
    }
    if Decided(config, all, id, o) {
      var t: nat :| DecidedAt(config, all, t, id, o);
      if t < |moves| {
        assert all[..t] == moves[..t] && all[..t + 1] == moves[..t + 1];
        assert DecidedAt(config, moves, t, id, o);
      }
    }
  }

  lemma ActiveIsMinted(r: Registry, id: TaskId)
    requires RegistryInv(r) && Active(r.entries, id)
    ensures id < r.minted
  {
    var i: nat :| ActiveAt(r.entries, i, id);
    var t := OpenTaskIsAdopted(r, i);
    hide RegistryInv;
  }

  lemma DecidesActive(w: World, m: RunMove, n: World, id: TaskId, o: TaskOutcome)
    requires StepDecides(w, m, n, id, o)
    ensures Active(w.tasks.entries, id)
  {
  }

  lemma StepWell(config: Config, moves: seq<RunMove>, m: RunMove)
    ensures var w := ExecRun(config, moves);
      StepDecidesWell(w, m, ExecRun(config, moves + [m])) && RegistryInv(w.tasks)
  {
    ExecKeepsInv(config, moves);
    ExecOne(config, moves, m);
    LogTells(config, moves, m);
    var w := ExecRun(config, moves);
    LogReady(w);
    RegistryReady(w);
    hide ExecRun;
    hide AgentInv;
    hide RegistryInv;
    hide Told;
    hide StepDecidesWell;
    hide TaskStep;
    if m.TasksMove? {
      TaskStepDecides(w, m.task);
    } else {
      StepTasks(w, m);
      OtherStepDecides(w, m, RunStep(w, m));
    }
  }

  lemma RegistryReady(w: World)
    requires AgentInv(w)
    ensures RegistryInv(w.tasks) && DistinctTasks(w.tasks.entries) && DistinctTags(w.tasks.entries)
  {
  }

  lemma {:induction false} AllDecided(config: Config, moves: seq<RunMove>)
    ensures OutcomesDecided(config, moves)
  {
    hide ExecRun;
    hide Pending;
    hide Active;
    hide LogsSettled;
    hide RegistryInv;
    hide StepDecides;
    if moves == [] {
      NothingDecided(config);
    } else {
      var front, m := moves[..|moves| - 1], moves[|moves| - 1];
      assert front + [m] == moves;
      var w, n := ExecRun(config, front), ExecRun(config, moves);
      AllDecided(config, front);
      StepWell(config, front, m);
      forall id: TaskId, o
        ensures Decided(config, moves, id, o) <==> Decided(config, front, id, o) || StepDecides(w, m, n, id, o)
      {
        DecidedAfter(config, front, m, id, o);
      }
      hide Decided;
      forall id: TaskId, o | StepDecides(w, m, n, id, o) ensures id < w.tasks.minted {
        DecidesActive(w, m, n, id, o);
        ActiveIsMinted(w.tasks, id);
      }
    }
  }

  lemma NothingDecided(config: Config)
    ensures OutcomesDecided(config, [])
  {
    LogStarts(config);
    RunUnfolds(config, []);
    TopTasks(Assembled(config));
    var w := ExecRun(config, []);
    hide ExecRun;
    hide TopOfLoop;
    hide Bodies;
    assert w.tasks.entries == [];
    forall x: nat | x < |w.handle.events| ensures !w.handle.events[x].body.TaskLifecycle? {
      BodyIs(w.handle.events, x);
    }
  }

  lemma BodyIs(events: seq<Event>, x: nat)
    requires x < |events|
    ensures |Bodies(events)| == |events| && Bodies(events)[x] == events[x].body
  {
  }

  /** However the schedule runs, every settled task the log reports, and every task whose
      handling or teardown is under way, has the outcome that one step decided while the task
      was running: the task's own, its cancellation's with the reason given or "cancelled", or
      the cancellation by the run's finish. */
  lemma OutcomesTell(config: Config, moves: seq<RunMove>, id: TaskId, outcome: TaskOutcome)
    requires var w := ExecRun(config, moves);
      Pending(w.tasks.entries, id, outcome) || LogsSettled(w.handle.events, id, outcome)
    ensures Decided(config, moves, id, outcome)
  {
    AllDecided(config, moves);
    hide ExecRun;
    hide Decided;
    hide Pending;
    hide LogsSettled;
  }

  /** Only one step ever decides a task, and for one outcome. */
  lemma DecidedOnce(config: Config, moves: seq<RunMove>, t: nat, s: nat, id: TaskId, o: TaskOutcome, p: TaskOutcome)
    requires DecidedAt(config, moves, t, id, o) && DecidedAt(config, moves, s, id, p)
    ensures t == s && o == p
  {
    if t < s { NotAgain(config, moves, t, s, id, o, p); }
    if s < t { NotAgain(config, moves, s, t, id, p, o); }
    hide ExecRun;
    OneOutcome(ExecRun(config, moves[..t]), moves[t], ExecRun(config, moves[..t + 1]), id, o, p);
  }

  lemma OneOutcome(w: World, m: RunMove, n: World, id: TaskId, o: TaskOutcome, p: TaskOutcome)
    requires StepDecides(w, m, n, id, o) && StepDecides(w, m, n, id, p)
    ensures o == p
  {
  }

  lemma NotAgain(config: Config, moves: seq<RunMove>, t: nat, s: nat, id: TaskId, o: TaskOutcome, p: TaskOutcome)
    requires t < s < |moves| && DecidedAt(config, moves, t, id, o)
    ensures !DecidedAt(config, moves, s, id, p)
  {
    var front := moves[..s];
    if DecidedAt(config, moves, s, id, p) {
      DecidesActive(ExecRun(config, front), moves[s], ExecRun(config, moves[..s + 1]), id, p);
    }
    hide ExecRun;
    hide StepDecides;
    hide Active;
    assert front[..t] == moves[..t] && front[..t + 1] == moves[..t + 1];
    assert front[t] == moves[t];
    assert DecidedAt(config, front, t, id, o);
    assert Decided(config, front, id, o);
    AllDecided(config, front);
  }
}
