/** The parked loop misses no wake, and leaves no waker behind: what every step keeps about
    the race it parks in, its wakers at handle, mailbox and registry, and the run's signal. */
module AgentRunParking {
  import opened Text
  import opened Notifications
  import opened RunHistory
  import opened TaskRegistry
  import opened ToolBatch
  import opened RunEvents
  import opened Wakeups
  import opened AgentRun
  import opened AgentRunInvariant
  import opened AgentRunDelivery

  /** Something came up since the change count was captured. */
  predicate Awake(w: World, since: nat) {
    w.handle.steers != [] || w.inbox != [] || w.handle.aborted || w.tasks.changes > since
  }

  /** Wakers are out only for the race of a parked loop; that race is won exactly when there
      is something to wake up for, and until then some task is open. */
  ghost predicate WakeOk(w: World) {
    && WakersOk(w.wakers)
    && match w.pc
       case Parked(since, race) =>
         && race + 1 == w.wakers.races && OnlyRace(w.wakers, race)
         && (Won(w.wakers, race) <==> Awake(w, since))
         && w.tasks.changes >= since
         && (!Awake(w, since) ==> w.tasks.entries != [])
       case _ => w.wakers.listeners == {}
  }

  /** No waker is out. */
  ghost predicate NoWaker(w: World) {
    WakersOk(w.wakers) && w.wakers.listeners == {}
  }

  lemma ParkWakes(w: World)
    requires NoWaker(w) && !w.handle.aborted && w.handle.steers == [] && w.inbox == [] && w.tasks.entries != []
    ensures WakeOk(Park(w, w.tasks.changes))
  {
    RaceKeeps(w.wakers, false, false, false);
    RaceStarts(w.wakers, false, false, false);
    forall x | x in StartRace(w.wakers, false, false, false).listeners ensures x.race == w.wakers.races {}
    hide WakersOk;
    hide Won;
  }

  lemma TopWakes(w: World)
    requires NoWaker(w)
    ensures WakeOk(TopOfLoop(w))
  {
    var d := DrainAll(w);
    if !w.handle.aborted && w.tasks.entries != [] { ParkWakes(d); }
    hide WakersOk;
    hide Won;
    hide Park;
  }

  /** Wakers run, one of the parked race's among them if they are still out. */
  lemma FireWakes(w: World, n: World, fired: set<Waker>, source: Source)
    requires WakeOk(w) && fired <= w.wakers.listeners && n.pc == w.pc && n.wakers == Fire(w.wakers, fired)
    requires w.pc.Parked? ==>
      && n.tasks.changes >= w.pc.since && Awake(n, w.pc.since)
      && (Hooked(w.wakers, w.pc.race) ==> Waker(w.pc.race, source) in fired)
    ensures WakeOk(n)
  {
    FireKeeps(w.wakers, fired);
    if w.pc.Parked? {
      var race := w.pc.race;
      if !Won(w.wakers, race) {
        UnwonIsHooked(w.wakers, race);
        assert Waker(race, source) in n.wakers.resolved;
      } else {
        var s: Source :| Waker(race, s) in w.wakers.resolved;
        assert Waker(race, s) in n.wakers.resolved;
      }
    }
    hide WakersOk;
  }

  lemma SourcesListen(k: Wakers)
    requires WakersOk(k)
    ensures k.steer <= k.listeners && k.note <= k.listeners && k.task <= k.listeners
  {
  }

  lemma QuietWakes(w: World, n: World)
    requires WakeOk(w) && n.wakers == w.wakers && n.handle.steers == w.handle.steers && n.inbox == w.inbox
    requires n.handle.aborted == w.handle.aborted && n.tasks.changes == w.tasks.changes
    requires w.tasks.entries != [] ==> n.tasks.entries != []
    requires if w.pc.Parked? then n.pc == w.pc else !n.pc.Parked?
    ensures WakeOk(n)
  {
    hide WakersOk;
    hide Won;
    hide OnlyRace;
  }

  /** The parked loop is woken by any task settling, and by nothing else a task does. */
  lemma TaskWakes(w: World, m: TaskMove)
    requires WakeOk(w)
    ensures WakeOk(TaskStep(w, m))
  {
    TaskStepQuiet(w, m);
    MoveAdvances(w.tasks, m);
    UnchangedKeepsOpen(w.tasks, m);
    SourcesListen(w.wakers);
    hide Move;
    hide WakeOk;
    var n := TaskStep(w, m);
    if n.tasks.changes != w.tasks.changes {
      assert WakeOk(n) by { TaskFires(w, n); }
    } else {
      QuietWakes(w, n);
    }
  }

  lemma TaskFires(w: World, n: World)
    requires WakeOk(w) && n.pc == w.pc && n.tasks.changes > w.tasks.changes && n.wakers == Fire(w.wakers, w.wakers.task)
    ensures WakeOk(n)
  {
    SourcesListen(w.wakers);
    FireWakes(w, n, w.wakers.task, TaskSource);
  }

  lemma UnchangedKeepsOpen(r: Registry, m: TaskMove)
    ensures Move(r, m).registry.changes == r.changes && r.entries != [] ==> Move(r, m).registry.entries != []
  {
  }

  lemma TurnWakes(w: World, text: string, calls: seq<Call>, usage: Usage)
    requires WakeOk(w) && !w.pc.Parked?
    ensures WakeOk(TurnArrives(w, text, calls, usage))
  {
    hide WakersOk;
  }

  lemma BatchContinuesWakes(w: World, calls: seq<Call>, results: seq<CallResult>)
    requires WakeOk(w) && !w.pc.Parked?
    ensures WakeOk(BatchContinues(w, calls, results))
  {
    TopWakes(w.(llm := w.llm + [ToolResults(NormalizeBatch(calls, results))]));
    hide WakersOk;
    hide TopOfLoop;
  }

  lemma ResumeWakes(w: World)
    requires WakeOk(w) && w.pc.Parked?
    ensures WakeOk(Resume(w, w.pc.race))
  {
    EndUnhooks(w.wakers, w.pc.race);
    hide WakersOk;
    TopWakes(w.(wakers := EndRace(w.wakers, w.pc.race)));
    hide TopOfLoop;
  }

  lemma SteerWakes(w: World, text: string)
    requires WakeOk(w)
    ensures WakeOk(SteerRun(w, text))
  {
    SourcesListen(w.wakers);
    if TakesSteers(w.handle) { FireWakes(w, SteerRun(w, text), w.wakers.steer, SteerSource); }
    hide WakersOk;
    hide Fire;
  }

  lemma PublishWakes(w: World, message: string, key: Option<string>)
    requires WakeOk(w)
    ensures WakeOk(PublishNote(w, message, key))
  {
    SourcesListen(w.wakers);
    if w.handle.finished.None? { FireWakes(w, PublishNote(w, message, key), w.wakers.note, NoteSource); }
    hide WakersOk;
    hide Fire;
  }

  lemma InterruptWakes(w: World)
    requires WakeOk(w)
    ensures WakeOk(AgentRun.InterruptRun(w))
  {
    if w.handle.finished.None? { FireWakes(w, AgentRun.InterruptRun(w), w.wakers.listeners, SteerSource); }
    hide WakersOk;
    hide Fire;
  }

  lemma TurnFailsWakes(w: World, error: TurnError)
    requires WakeOk(w)
    ensures WakeOk(RunStep(w, TurnFailsMove(error)))
  {
    hide WakersOk;
  }

  lemma HookWakes(w: World)
    requires WakeOk(w)
    ensures WakeOk(RunStep(w, HookReturnsMove))
  {
    if w.pc.RestHook? { TopWakes(w); }
    hide TopOfLoop;
    hide WakersOk;
  }

  lemma StepWakes(w: World, m: RunMove)
    requires WakeOk(w)
    ensures WakeOk(RunStep(w, m))
  {
    SourcesListen(w.wakers);
    hide WakeOk;
    hide TopOfLoop;
    hide TurnArrives;
    hide BatchContinues;
    hide BatchStep;
    hide TaskStep;
    hide Resume;
    hide Fire;
    match m {
      case SteerMove(text) => SteerWakes(w, text);
      case PublishMove(message, key) => PublishWakes(w, message, key);
      case InterruptMove => InterruptWakes(w);
      case TasksMove(task) => TaskWakes(w, task);
      case WakeUp => if w.pc.Parked? { ResumeWakes(w); }
      case StreamMove(delta) => QuietWakes(w, RunStep(w, m));
      case TurnMove(text, calls, usage) => if w.pc.Streaming? { TurnWakes(w, text, calls, usage); }
      case TurnFailsMove(error) => TurnFailsWakes(w, error);
      case HookReturnsMove => HookWakes(w);
      case BatchesMove(bm) =>
        if w.pc.InBatch? {
          BatchStepQuiet(w, w.pc.batch, bm);
          QuietWakes(w, BatchStep(w, w.pc.batch, bm));
        }
      case BatchContinuesMove => if w.pc.BatchReturned? { BatchContinuesWakes(w, w.pc.calls, w.pc.results); }
    }
  }
}
