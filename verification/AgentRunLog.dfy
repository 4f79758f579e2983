/** What the event log of a run tells. */
module AgentRunLog {
  import opened Text
  import opened Notifications
  import opened RunHistory
  import opened TaskRegistry
  import opened ToolBatch
  import opened RunEvents
  import opened Wakeups
  import opened AgentRun
  import opened AgentRunInvariant
  import opened AgentRunDelivery
  import opened AgentRunTheorems

  function Bodies(events: seq<Event>): (bodies: seq<EventBody>)
    ensures |bodies| == |events| && forall i :: 0 <= i < |events| ==> bodies[i] == events[i].body
  {
    seq(|events|, i requires 0 <= i < |events| => events[i].body)
  }

  lemma {:induction false} EmitAllAppends(h: Handle, bodies: seq<EventBody>)
    ensures Bodies(EmitAll(h, bodies).events) == Bodies(h.events) + bodies
    decreases |bodies|
  {
    if bodies != [] {
      EmitAllAppends(Emit(h, bodies[0]), bodies[1..]);
      assert Bodies(Emit(h, bodies[0]).events) == Bodies(h.events) + [bodies[0]];
    }
  }

  // ----- what a tool batch announces ---------------------------------------------------------

  ghost predicate NewResult(b: Batch, n: Batch, i: nat) {
    i < |b.settled| && b.settled[i].None? && HasResult(n, i)
  }

  /** A start is announced for each call put to work, a completion for each result recorded. */
  ghost predicate BatchSays(b: Batch, n: Batch, events: seq<BatchEvent>) {
    if n.started != b.started then
      |n.started| == |b.started| + 1 && b.started < n.started && n.started[|b.started|] < |b.calls| &&
      events == [ToolStarted(b.calls[n.started[|b.started|]].id)]
    else if exists i: nat :: NewResult(b, n, i) then
      exists i: nat :: NewResult(b, n, i) && n.settled == b.settled[i := n.settled[i]] &&
        var r := n.settled[i].value; events == [ToolCompleted(r.id, r.isError, r.isTerminal)]
    else events == []
  }

  lemma AdvanceSays(b: Batch, m: BatchMove, aborted: bool, gateOpen: bool)
    requires BatchInv(b, aborted)
    ensures var s := Advance(b, m, aborted, gateOpen); BatchSays(b, s.batch, s.events)
  {
    if !b.over {
      match m {
        case LaneReturn(l, content, isError) =>
          if l < |b.lanes| && b.lanes[l].Busy? { ReturnSays(b, l, content, isError, aborted); }
        case DispatchReturn => if AtTerminal(b) && b.phase.Returning? { FinishSays(b, b.phase.result, aborted); }
        case LanePick(l) => if l < |b.lanes| && b.lanes[l].Ready? { PickSays(b, l, aborted); }
        case TerminalPick(valid, refusal) => StartSays(b, valid, refusal, aborted);
        case _ =>
      }
    }
    hide BatchInv;
    hide Pick;
    hide Return;
    hide StartTerminal;
    hide FinishTerminal;
  }

  lemma PickSays(b: Batch, l: nat, aborted: bool)
    requires l < |b.lanes|
    ensures var s := Pick(b, l, aborted); BatchSays(b, s.batch, s.events)
  {
  }

  lemma StartSays(b: Batch, valid: bool, refusal: string, aborted: bool)
    ensures var s := StartTerminal(b, valid, refusal, aborted); BatchSays(b, s.batch, s.events)
  {
  }

  lemma ReturnSays(b: Batch, l: nat, content: string, isError: bool, aborted: bool)
    requires BatchInv(b, aborted) && l < |b.lanes| && b.lanes[l].Busy?
    ensures var s := Return(b, l, content, isError, aborted); BatchSays(b, s.batch, s.events)
  {
    var i := b.lanes[l].call;
    assert i in b.ordinary && !HasResult(b, i);
    assert !aborted ==> NewResult(b, Return(b, l, content, isError, aborted).batch, i);
  }

  lemma FinishSays(b: Batch, result: CallResult, aborted: bool)
    requires BatchInv(b, aborted) && AtTerminal(b)
    ensures var s := FinishTerminal(b, result, aborted); BatchSays(b, s.batch, s.events)
  {
    var i := b.terminal[b.tnext];
    assert !HasResult(b, i);
    assert !aborted ==> NewResult(b, FinishTerminal(b, result, aborted).batch, i);
  }

  // ----- what the registry announces -----------------------------------------------------------

  /** An adoption is announced for each task adopted, a settlement for each that settles. */
  predicate TaskSays(r: Registry, n: Registry, events: seq<TaskEvent>) {
    if n.registered != r.registered then
      |n.registered| == |r.registered| + 1 && r.registered < n.registered && n.settled == r.settled &&
      var e := n.registered[|r.registered|]; events == [TaskRegistered(e.id, e.tag)]
    else if n.settled != r.settled then
      |events| == 1 && events[0].TaskSettled? && n.settled == r.settled + [events[0].id]
    else events == []
  }

  lemma MoveSays(r: Registry, m: TaskMove)
    ensures TaskSays(r, Move(r, m).registry, Move(r, m).events)
  {
  }

  // ----- what a step announces -------------------------------------------------------------------

  /** The turn a request is sent for, and the outcome of a finish. */
  function Turning(w: World, n: World): seq<EventBody> {
    if w.handle.finished.None? && n.handle.finished.Some? then [RunFinished(n.handle.finished.value)]
    else if n.ledger.requests != w.ledger.requests then [TurnStarted(n.turns + 1)]
    else []
  }

  /** What a step adds to the log: the delta that streams, the calls put to work and the
      results recorded, the tasks adopted and settled, the turn a request is sent for, and
      the outcome when it finishes. */
  ghost predicate Announces(w: World, m: RunMove, n: World, said: seq<EventBody>) {
    match m
    case StreamMove(delta) => said == if w.pc.Streaming? then [StreamDelta(delta)] else []
    case BatchesMove(bm) =>
      if !w.pc.InBatch? then said == []
      else
        exists events :: said == ToolEvents(events) &&
          BatchSays(w.pc.batch, Advance(w.pc.batch, bm, w.handle.aborted, GateOpen(w)).batch, events)
    case TasksMove(_) => exists events :: said == TaskEvents(events) && TaskSays(w.tasks, n.tasks, events)
    case _ => said == Turning(w, n)
  }

  /** The events of `n` are those of `w` and then `said`. */
  predicate Logs(w: World, n: World, said: seq<EventBody>) {
    Bodies(n.handle.events) == Bodies(w.handle.events) + said
  }

  ghost predicate Told(w: World, m: RunMove, n: World) {
    exists said :: Logs(w, n, said) && Announces(w, m, n, said)
  }

  lemma FinishLogs(w: World, result: Result)
    requires w.handle.finished.None?
    ensures var n := FinishWith(w, result); Logs(w, n, Turning(w, n)) && n.handle.finished.Some?
  {
    hide Dispose;
  }

  lemma TakeTurnLogs(w: World)
    requires w.handle.finished.None?
    ensures Logs(w, TakeTurn(w), Turning(w, TakeTurn(w)))
  {
    if w.turns >= w.config.maxTurns { FinishLogs(w, FailedRun(MaxTurnsSpent)); }
    hide FinishWith;
  }

  lemma RestLogs(w: World, since: nat)
    requires w.handle.finished.None?
    ensures Logs(w, RestStep(w, since), Turning(w, RestStep(w, since)))
  {
    TakeTurnLogs(w);
    if w.pendingText.Some? { FinishLogs(w, Completed(w.pendingText.value)); }
    hide FinishWith;
    hide TakeTurn;
    QuietLogs(w, Park(w, since));
    hide Logs;
  }

  lemma TopLogs(w: World)
    requires w.handle.finished.None?
    ensures Logs(w, TopOfLoop(w), Turning(w, TopOfLoop(w)))
  {
    FinishLogs(w, CancelledRun);
    var d := DrainAll(w);
    TakeTurnLogs(d);
    RestLogs(d, w.tasks.changes);
    assert d.handle.events == w.handle.events && d.ledger == w.ledger && d.handle.finished.None?;
    hide DrainAll;
    hide FinishWith;
    hide TakeTurn;
    hide RestStep;
  }

  lemma ContinueLogs(w: World)
    requires w.handle.finished.None? && w.pc.BatchReturned?
    ensures var n := BatchContinues(w, w.pc.calls, w.pc.results); Logs(w, n, Turning(w, n))
  {
    var c := w.(llm := w.llm + [ToolResults(NormalizeBatch(w.pc.calls, w.pc.results))]);
    TopLogs(c);
    var taken := c.(accepted := None);
    FinishLogs(c, CancelledRun);
    FinishLogs(taken, FailedRun(InternalFailure(TERMINAL_WITHOUT_SUBMISSION)));
    if c.accepted.Some? { FinishLogs(taken, Completed(c.accepted.value)); }
    hide FinishWith;
    hide TopOfLoop;
    hide NormalizeBatch;
    hide TerminalResult;
  }

  lemma BatchLogs(w: World, bm: BatchMove)
    requires w.pc.InBatch? && BatchInv(w.pc.batch, w.handle.aborted)
    ensures Told(w, BatchesMove(bm), BatchStep(w, w.pc.batch, bm))
  {
    var b := w.pc.batch;
    AdvanceSays(b, bm, w.handle.aborted, GateOpen(w));
    hide BatchInv;
    hide BatchSays;
    hide Advance;
    hide GateOpen;
    hide AtTerminal;
    var events := Advance(b, bm, w.handle.aborted, GateOpen(w)).events;
    var g := GateEffects(w, b, bm);
    assert g.handle.events == w.handle.events;
    EmitAllAppends(g.handle, ToolEvents(events));
    assert Logs(w, BatchStep(w, b, bm), ToolEvents(events));
  }

  lemma TaskLogs(w: World, m: TaskMove)
    ensures Told(w, TasksMove(m), TaskStep(w, m))
  {
    var moved := Move(w.tasks, m);
    MoveSays(w.tasks, m);
    EmitAllAppends(w.handle, TaskEvents(moved.events));
    hide Move;
    hide TaskSays;
    assert Logs(w, TaskStep(w, m), TaskEvents(moved.events));
  }

  lemma QuietLogs(w: World, n: World)
    requires n.handle.events == w.handle.events
    ensures Logs(w, n, [])
  {
  }

  lemma StepLogs(w: World, m: RunMove)
    requires w.handle.finished.Some? <==> w.pc.Done?
    requires w.pc.InBatch? ==> BatchInv(w.pc.batch, w.handle.aborted)
    ensures Told(w, m, RunStep(w, m))
  {
    var n := RunStep(w, m);
    match m {
      case BatchesMove(bm) =>
        if w.pc.InBatch? { BatchLogs(w, bm); } else { QuietLogs(w, w); }
      case TasksMove(task) =>
        TaskLogs(w, task);
      case StreamMove(delta) => StreamLogs(w, delta);
      case _ => TurningLogs(w, m);
    }
    hide BatchInv;
    hide Logs;
    hide TaskStep;
    hide BatchStep;
    hide TopOfLoop;
    hide BatchContinues;
    hide TurnArrives;
    hide FinishWith;
    hide BatchSays;
    hide TaskSays;
  }

  lemma TurningLogs(w: World, m: RunMove)
    requires w.handle.finished.Some? <==> w.pc.Done?
    requires !m.BatchesMove? && !m.TasksMove? && !m.StreamMove?
    ensures Logs(w, RunStep(w, m), Turning(w, RunStep(w, m)))
  {
    hide Logs;
    hide FinishWith;
    hide TopOfLoop;
    hide BatchContinues;
    hide TurnArrives;
    match m {
      case WakeUp =>
        if w.pc.Parked? { ResumeLogs(w); }
        QuietLogs(w, w);
      case HookReturnsMove => if w.pc.RestHook? { TopLogs(w); } else { QuietLogs(w, RunStep(w, m)); }
      case BatchContinuesMove => if w.pc.BatchReturned? { ContinueLogs(w); } else { QuietLogs(w, w); }
      case TurnMove(text, calls, usage) =>
        if w.pc.Streaming? { TurnLogs(w, text, calls, usage); } else { QuietLogs(w, w); }
      case TurnFailsMove(error) =>
        if w.pc.Streaming? { FinishLogs(w, ClassifyLoopError(error, w.handle.aborted)); } else { QuietLogs(w, w); }
      case _ => QuietLogs(w, RunStep(w, m));
    }
  }

  lemma TurnLogs(w: World, text: string, calls: seq<Call>, usage: Usage)
    requires w.handle.finished.None?
    ensures var n := TurnArrives(w, text, calls, usage); Logs(w, n, Turning(w, n))
  {
    var c := CommitTurn(w, text, calls, usage);
    FinishLogs(c, Completed(text));
    hide FinishWith;
  }

  lemma StreamLogs(w: World, delta: string)
    ensures Logs(w, RunStep(w, StreamMove(delta)), if w.pc.Streaming? then [StreamDelta(delta)] else [])
  {
  }

  lemma ResumeLogs(w: World)
    requires w.pc.Parked? && w.handle.finished.None?
    ensures var n := Resume(w, w.pc.race); Logs(w, n, Turning(w, n))
  {
    TopLogs(w.(wakers := EndRace(w.wakers, w.pc.race)));
    hide TopOfLoop;
  }

  /** The log grows, at each step, by exactly what the step announces. */
  lemma LogTells(config: Config, moves: seq<RunMove>, m: RunMove)
    ensures Told(ExecRun(config, moves), m, ExecRun(config, moves + [m]))
  {
    hide ExecRun;
    ExecKeepsInv(config, moves);
    ExecOne(config, moves, m);
    var w := ExecRun(config, moves);
    LogReady(w);
    hide AgentInv;
    hide RunStep;
    hide Told;
    StepLogs(w, m);
  }

  lemma LogReady(w: World)
    requires AgentInv(w)
    ensures w.handle.finished.Some? <==> w.pc.Done?
    ensures w.pc.InBatch? ==> BatchInv(w.pc.batch, w.handle.aborted)
  {
    hide BatchInv;
  }

  /** The log starts with the run, and its first turn if it has one. */
  lemma LogStarts(config: Config)
    ensures Bodies(ExecRun(config, []).handle.events) ==
            [RunStarted,
             if config.maxTurns > 0 then TurnStarted(1)
             else RunFinished(AgentOutcome(NO_USAGE, 0, FailedRun(MaxTurnsSpent)))]
  {
    RunUnfolds(config, []);
    var a := Assembled(config);
    assert Bodies(a.handle.events) == [RunStarted];
    TopLogs(a);
    hide ExecRun;
    hide Dispose;
  }
}
