/** What every step of a run keeps, group by group: the handle with its events, the task
    registry, and the history with the turn budget, the requests and the usage total. */
module AgentRunInvariant {
  import opened Text
  import opened Notifications
  import opened RunHistory
  import opened TaskRegistry
  import opened ToolBatch
  import opened RunEvents
  import opened Wakeups
  import opened AgentRun

  // ----- handle and registry ---------------------------------------------------------------

  ghost predicate Live(w: World) {
    HandleInv(w.handle) && w.handle.finished.None? && w.tasks.disposed.None? && RegistryInv(w.tasks)
  }

  ghost predicate HandleOk(w: World) {
    && HandleInv(w.handle) && RegistryInv(w.tasks)
    && (w.pc.Done? <==> w.handle.finished.Some?)
    && (w.pc.Done? <==> w.tasks.disposed.Some?)
  }

  lemma FinishIsOk(w: World, result: Result)
    requires Live(w)
    ensures HandleOk(FinishWith(w, result))
  {
    FinishKeeps(w.handle, AgentOutcome(w.usage, w.turns, result));
    DisposeKeeps(w.tasks, RUN_FINISHED_DISPOSE_REASON);
  }

  lemma TakeTurnIsOk(w: World)
    requires Live(w)
    ensures HandleOk(TakeTurn(w))
  {
    hide RegistryInv;
    hide FinishWith;
    if w.turns >= w.config.maxTurns { FinishIsOk(w, FailedRun(MaxTurnsSpent)); }
    else { EmitKeeps(w.handle, TurnStarted(w.turns + 1)); }
  }

  lemma TopIsOk(w: World)
    requires Live(w)
    ensures HandleOk(TopOfLoop(w))
  {
    hide RegistryInv;
    hide FinishWith;
    hide TakeTurn;
    if w.handle.aborted {
      FinishIsOk(w, CancelledRun);
    } else {
      var d := DrainAll(w);
      assert Live(d);
      TakeTurnIsOk(d);
      if d.pendingText.Some? { FinishIsOk(d, Completed(d.pendingText.value)); }
    }
  }

  lemma TurnIsOk(w: World, text: string, calls: seq<Call>, usage: Usage)
    requires Live(w)
    ensures HandleOk(TurnArrives(w, text, calls, usage))
  {
    hide RegistryInv;
    hide HandleInv;
    hide FinishWith;
    var c := CommitTurn(w, text, calls, usage);
    assert Live(c);
    FinishIsOk(c, Completed(text));
  }

  lemma BatchContinuesIsOk(w: World, calls: seq<Call>, results: seq<CallResult>)
    requires Live(w)
    ensures HandleOk(BatchContinues(w, calls, results))
  {
    hide RegistryInv;
    hide HandleInv;
    hide FinishWith;
    hide TopOfLoop;
    var c := w.(llm := w.llm + [ToolResults(NormalizeBatch(calls, results))]);
    assert Live(c);
    TopIsOk(c);
    FinishIsOk(c, CancelledRun);
    var taken := c.(accepted := None);
    assert Live(taken);
    FinishIsOk(taken, FailedRun(InternalFailure(TERMINAL_WITHOUT_SUBMISSION)));
    if c.accepted.Some? { FinishIsOk(taken, Completed(c.accepted.value)); }
  }

  lemma LatchKeepsHandle(h: Handle, finishing: bool)
    requires HandleInv(h) && h.finished.None?
    ensures HandleInv(h.(finishing := finishing))
  {
  }

  /** The gate touches only its flag, the latch and the ledger. */
  lemma GateKeepsRest(w: World, b: Batch, m: BatchMove)
    requires w.handle.finished.None?
    ensures var g := GateEffects(w, b, m);
      && g.tasks == w.tasks && g.handle.finished.None?
      && (g.handle == w.handle || g.handle == w.handle.(finishing := true) || g.handle == w.handle.(finishing := false))
  {
    hide AtTerminal;
    hide GateOpen;
  }

  lemma NotDoneAfterBatch(b: Batch)
    ensures !AfterBatch(b).Done?
  {
  }

  lemma BatchStepIsOk(w: World, b: Batch, m: BatchMove)
    requires Live(w) && w.pc == InBatch(b)
    ensures HandleOk(BatchStep(w, b, m))
  {
    hide HandleInv;
    hide RegistryInv;
    hide Advance;
    hide AtTerminal;
    hide GateOpen;
    hide AfterBatch;
    var s := Advance(b, m, w.handle.aborted, GateOpen(w));
    var g := GateEffects(w, b, m);
    LatchKeepsHandle(w.handle, true);
    LatchKeepsHandle(w.handle, false);
    GateKeepsRest(w, b, m);
    hide GateEffects;
    EmitAllKeeps(g.handle, ToolEvents(s.events));
    NotDoneAfterBatch(s.batch);
  }

  lemma SteerIsOk(w: World, text: string)
    requires HandleOk(w)
    ensures HandleOk(SteerRun(w, text))
  {
    hide RegistryInv;
  }

  lemma TaskIsOk(w: World, m: TaskMove)
    requires HandleOk(w)
    ensures HandleOk(TaskStep(w, m))
  {
    hide RegistryInv;
    hide HandleInv;
    hide Move;
    MoveKeeps(w.tasks, m);
    MoveAdvances(w.tasks, m);
    EmitAllKeeps(w.handle, TaskEvents(Move(w.tasks, m).events));
  }

  lemma InterruptIsOk(w: World)
    requires HandleOk(w)
    ensures HandleOk(AgentRun.InterruptRun(w))
  {
    hide RegistryInv;
  }

  lemma StepIsOk(w: World, m: RunMove)
    requires HandleOk(w)
    ensures HandleOk(RunStep(w, m))
  {
    hide RegistryInv;
    hide HandleInv;
    hide TopOfLoop;
    hide TurnArrives;
    hide BatchContinues;
    hide BatchStep;
    hide SteerRun;
    hide AgentRun.InterruptRun;
    hide TaskStep;
    hide FinishWith;
    match m {
      case SteerMove(text) => SteerIsOk(w, text);
      case PublishMove(_, _) =>
      case InterruptMove => InterruptIsOk(w);
      case TasksMove(task) => TaskIsOk(w, task);
      case WakeUp => if w.pc.Parked? { TopIsOk(w.(wakers := EndRace(w.wakers, w.pc.race))); }
      case StreamMove(delta) => if w.pc.Streaming? { EmitKeeps(w.handle, StreamDelta(delta)); }
      case TurnMove(text, calls, usage) => if w.pc.Streaming? { TurnIsOk(w, text, calls, usage); }
      case TurnFailsMove(error) => if w.pc.Streaming? { FinishIsOk(w, ClassifyLoopError(error, w.handle.aborted)); }
      case HookReturnsMove => if w.pc.RestHook? { TopIsOk(w); }
      case BatchesMove(bm) => if w.pc.InBatch? { BatchStepIsOk(w, w.pc.batch, bm); }
      case BatchContinuesMove => if w.pc.BatchReturned? { BatchContinuesIsOk(w, w.pc.calls, w.pc.results); }
    }
  }

  // ----- history, budget and usage -------------------------------------------------------------

  function SumUsage(usages: seq<Usage>): Usage {
    if usages == [] then NO_USAGE else AddUsage(SumUsage(usages[..|usages| - 1]), usages[|usages| - 1])
  }

  ghost predicate PcHistory(w: World) {
    match w.pc
    case CallsHook(calls) => Open(w.llm, calls)
    case InBatch(b) => Open(w.llm, b.calls) && BatchInv(b, w.handle.aborted)
    case BatchReturned(calls, results) => Open(w.llm, calls)
    case _ => History(w.llm)
  }

  ghost predicate Budget(w: World) {
    && w.turns == TurnCount(w.llm) == |w.ledger.usages| && w.turns <= w.config.maxTurns
    && w.usage == SumUsage(w.ledger.usages)
    && |w.ledger.requests| <= w.config.maxTurns
    && (if w.pc.Streaming? then |w.ledger.requests| == w.turns + 1
        else if w.pc.Done? then w.turns <= |w.ledger.requests| <= w.turns + 1
        else |w.ledger.requests| == w.turns)
  }

  ghost predicate RequestsOk(w: World) {
    forall i :: 0 <= i < |w.ledger.requests| ==> History(w.ledger.requests[i])
  }

  ghost predicate HistoryOk(w: World) {
    PcHistory(w) && Budget(w) && RequestsOk(w)
  }

  /** Between turns: everything answered, and no request is out. */
  ghost predicate AtBoundary(w: World) {
    && History(w.llm) && RequestsOk(w)
    && w.turns == TurnCount(w.llm) == |w.ledger.usages| == |w.ledger.requests| && w.turns <= w.config.maxTurns
    && w.usage == SumUsage(w.ledger.usages)
  }

  lemma DrainHistory(w: World)
    requires History(w.llm)
    ensures History(DrainAll(w).llm)
    ensures TurnCount(DrainAll(w).llm) == TurnCount(w.llm)
  {
    var a, b := SteerMessages(w.handle.steers), NoteMessages(w.inbox);
    HistoryAppends(w.llm, a);
    HistoryAppends(w.llm + a, b);
    SteerMessagesHold(w.handle.steers);
    NoteMessagesHold(w.inbox);
    HistoryHolds(w.llm, a);
    HistoryHolds(w.llm + a, b);
  }

  lemma TopHistory(w: World)
    requires AtBoundary(w)
    ensures HistoryOk(TopOfLoop(w))
  {
    DrainHistory(w);
    hide DrainAll;
    var d := DrainAll(w);
    DrainKeepsRest(w);
    assert AtBoundary(d);
    TakeTurnHistory(d);
    hide TakeTurn;
    hide History;
    hide AddUsage;
  }

  lemma DrainKeepsRest(w: World)
    ensures var d := DrainAll(w);
      d == w.(llm := d.llm, handle := w.handle.(steers := []), inbox := [], window := w.window + 1)
  {
  }

  lemma TakeTurnHistory(w: World)
    requires AtBoundary(w)
    ensures HistoryOk(TakeTurn(w))
  {
  }

  lemma FinishHistory(w: World, result: Result)
    requires AtBoundary(w)
    ensures HistoryOk(FinishWith(w, result))
  {
    hide History;
  }

  lemma CommitHistory(w: World, text: string, calls: seq<Call>, usage: Usage)
    requires HistoryOk(w) && w.pc.Streaming?
    ensures var c := CommitTurn(w, text, calls, usage);
      (if calls == [] then AtBoundary(c) else Open(c.llm, calls) && Budget(c.(pc := CallsHook(calls))) && RequestsOk(c))
  {
    var m := Assistant(text, calls);
    HistoryHolds(w.llm, [m]);
    assert (w.ledger.usages + [usage])[..|w.ledger.usages|] == w.ledger.usages;
    if calls == [] { HistoryAppends(w.llm, [m]); } else { TurnOpens(w.llm, text, calls); }
    assert TurnCount([m]) == 1 by { assert [m][..0] == []; }
  }

  lemma TurnHistory(w: World, text: string, calls: seq<Call>, usage: Usage)
    requires HistoryOk(w) && w.pc.Streaming?
    ensures HistoryOk(TurnArrives(w, text, calls, usage))
  {
    var c := CommitTurn(w, text, calls, usage);
    CommitHistory(w, text, calls, usage);
    hide CommitTurn;
    hide FinishWith;
    hide ExitGate;
    hide History;
    hide Open;
    hide SumUsage;
    if calls == [] && TextMode(w) && ExitGate(w) { FinishHistory(c, Completed(text)); }
  }

  lemma AnswerHistory(w: World, calls: seq<Call>, results: seq<CallResult>)
    requires HistoryOk(w) && w.pc == BatchReturned(calls, results)
    ensures AtBoundary(w.(llm := w.llm + [ToolResults(NormalizeBatch(calls, results))]))
  {
    var answers := NormalizeBatch(calls, results);
    NormalizedAnswers(calls, results);
    ResultsClose(w.llm, calls, answers);
    HistoryHolds(w.llm, [ToolResults(answers)]);
    assert TurnCount([ToolResults(answers)]) == 0 by { assert [ToolResults(answers)][..0] == []; }
    hide Open;
    hide History;
  }

  lemma BatchContinuesHistory(w: World, calls: seq<Call>, results: seq<CallResult>)
    requires HistoryOk(w) && w.pc == BatchReturned(calls, results)
    ensures HistoryOk(BatchContinues(w, calls, results))
  {
    hide TopOfLoop;
    hide FinishWith;
    hide HistoryOk;
    hide SumUsage;
    hide History;
    var c := w.(llm := w.llm + [ToolResults(NormalizeBatch(calls, results))]);
    AnswerHistory(w, calls, results);
    TopHistory(c);
    FinishHistory(c, CancelledRun);
    var taken := c.(accepted := None);
    FinishHistory(taken, FailedRun(InternalFailure(TERMINAL_WITHOUT_SUBMISSION)));
    if c.accepted.Some? { FinishHistory(taken, Completed(c.accepted.value)); }
  }

  lemma BatchStepHistory(w: World, b: Batch, m: BatchMove)
    requires HistoryOk(w) && w.pc == InBatch(b)
    ensures HistoryOk(BatchStep(w, b, m))
  {
    hide Advance;
    hide History;
    hide SumUsage;
    hide TurnCount;
    hide Results;
    hide BatchInv;
    hide Open;
    hide AtTerminal;
    hide GateOpen;
    var gate := GateOpen(w);
    var s := Advance(b, m, w.handle.aborted, gate);
    AdvanceKeeps(b, m, w.handle.aborted, gate);
    AdvanceKeepsCalls(b, m, w.handle.aborted, gate);
    EmitAllOnlyEmits(GateEffects(w, b, m).handle, ToolEvents(s.events));
  }

  lemma QuietHistory(w: World, n: World)
    requires HistoryOk(w) && n.llm == w.llm && n.turns == w.turns && n.usage == w.usage && n.config == w.config
    requires n.ledger.usages == w.ledger.usages && n.ledger.requests == w.ledger.requests
    requires n.pc == w.pc
    requires w.handle.aborted ==> n.handle.aborted
    ensures HistoryOk(n)
  {
    if w.pc.InBatch? { AbortKeeps(w.pc.batch, w.handle.aborted); }
    hide BatchInv;
    hide Open;
    hide History;
  }

  lemma TaskStepQuiet(w: World, m: TaskMove)
    ensures var n := TaskStep(w, m);
      && n == w.(tasks := n.tasks, handle := n.handle, wakers := n.wakers)
      && n.handle == w.handle.(nextSeq := n.handle.nextSeq, events := n.handle.events)
  {
    hide Move;
    EmitAllOnlyEmits(w.handle, TaskEvents(Move(w.tasks, m).events));
  }

  lemma StepHistory(w: World, m: RunMove)
    requires HistoryOk(w)
    ensures HistoryOk(RunStep(w, m))
  {
    hide BatchInv;
    hide Open;
    hide History;
    hide TopOfLoop;
    hide TurnArrives;
    hide BatchContinues;
    hide BatchStep;
    hide TaskStep;
    match m {
      case SteerMove(text) => QuietHistory(w, SteerRun(w, text));
      case PublishMove(message, key) => QuietHistory(w, PublishNote(w, message, key));
      case InterruptMove => QuietHistory(w, AgentRun.InterruptRun(w));
      case TasksMove(task) =>
        TaskStepQuiet(w, task);
        QuietHistory(w, TaskStep(w, task));
      case WakeUp => if w.pc.Parked? { TopHistory(w.(wakers := EndRace(w.wakers, w.pc.race))); }
      case StreamMove(delta) =>
      case TurnMove(text, calls, usage) => if w.pc.Streaming? { TurnHistory(w, text, calls, usage); }
      case TurnFailsMove(error) =>
      case HookReturnsMove =>
        if w.pc.RestHook? { TopHistory(w); }
        else if w.pc.CallsHook? { StartKeeps(w.pc.calls, w.config.terminalName, w.handle.aborted); }
      case BatchesMove(bm) => if w.pc.InBatch? { BatchStepHistory(w, w.pc.batch, bm); }
      case BatchContinuesMove => if w.pc.BatchReturned? { BatchContinuesHistory(w, w.pc.calls, w.pc.results); }
    }
  }
}
