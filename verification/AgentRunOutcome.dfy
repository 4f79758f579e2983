/** What a finished run's outcome says about the run: a text run's exit, and what becomes of
    an accepted submission once the tool-use ids of a message are known to be distinct. */
module AgentRunOutcome {
  import opened Text
  import opened Notifications
  import opened RunHistory
  import opened TaskRegistry
  import opened ToolBatch
  import opened RunEvents
  import opened Wakeups
  import opened AgentRun
  import opened AgentRunInvariant
  import opened AgentRunDelivery
  import opened AgentRunCommit

  // ----- completing with text -----------------------------------------------------------------

  /** The last assistant message. */
  function LastTurn(h: seq<Message>): Option<Message> {
    if h == [] then None
    else if h[|h| - 1].Assistant? then Some(h[|h| - 1])
    else LastTurn(h[..|h| - 1])
  }

  lemma {:induction false} LastTurnStays(h: seq<Message>, more: seq<Message>)
    requires forall x :: 0 <= x < |more| ==> !more[x].Assistant?
    ensures LastTurn(h + more) == LastTurn(h)
  {
    if more == [] {
      assert h + more == h;
    } else {
      assert (h + more)[..|h + more| - 1] == h + more[..|more| - 1];
      LastTurnStays(h, more[..|more| - 1]);
    }
  }

  /** A text run that completed had nothing queued and nothing open, and its outcome is the
      text of its last turn, which made no calls. */
  ghost predicate TextExit(w: World) {
    w.handle.finished.Some? && w.handle.finished.value.result.Completed? && TextMode(w) ==>
      && w.ledger.dropped == [] && w.inbox == [] && w.tasks.entries == []
      && LastTurn(w.llm) == Some(Assistant(w.handle.finished.value.result.value, []))
  }

  ghost predicate TextOk(w: World) {
    && (w.pendingText.Some? ==> LastTurn(w.llm) == Some(Assistant(w.pendingText.value, [])))
    && TextExit(w)
  }

  /** A live run whose pending text is its last turn. */
  ghost predicate TextLive(w: World) {
    && w.handle.finished.None? && w.ledger.dropped == []
    && (w.pendingText.Some? ==> LastTurn(w.llm) == Some(Assistant(w.pendingText.value, [])))
  }

  lemma DisposedStaysEmpty(r: Registry, reason: string)
    ensures r.entries == [] ==> Dispose(r, reason).entries == []
  {
  }

  lemma FinishText(w: World, result: Result)
    requires TextLive(w)
    requires result.Completed? && TextMode(w) ==> ExitGate(w) && LastTurn(w.llm) == Some(Assistant(result.value, []))
    ensures TextOk(FinishWith(w, result))
  {
    DisposedStaysEmpty(w.tasks, RUN_FINISHED_DISPOSE_REASON);
    hide LastTurn;
  }

  lemma TopText(w: World)
    requires TextLive(w)
    ensures TextOk(TopOfLoop(w))
  {
    var a, b := SteerMessages(w.handle.steers), NoteMessages(w.inbox);
    LastTurnStays(w.llm, a);
    LastTurnStays(w.llm + a, b);
    hide LastTurn;
    hide FinishWith;
    var d := DrainAll(w);
    assert TextLive(d);
    FinishText(w, CancelledRun);
    FinishText(d, FailedRun(MaxTurnsSpent));
    if d.pendingText.Some? && d.tasks.entries == [] { FinishText(d, Completed(d.pendingText.value)); }
  }

  lemma TurnText(w: World, text: string, calls: seq<Call>, usage: Usage)
    requires TextLive(w) && w.pendingText.None?
    ensures TextOk(TurnArrives(w, text, calls, usage))
  {
    var c := CommitTurn(w, text, calls, usage);
    assert LastTurn(c.llm) == Some(Assistant(text, calls));
    hide LastTurn;
    hide FinishWith;
    if calls == [] && ExitGate(w) { FinishText(c, Completed(text)); }
  }

  lemma BatchContinuesText(w: World, calls: seq<Call>, results: seq<CallResult>)
    requires TextLive(w) && GateOk(w) && w.pc == BatchReturned(calls, results)
    ensures TextOk(BatchContinues(w, calls, results))
  {
    var answers := NormalizeBatch(calls, results);
    TerminalResultIsAccepted(w, calls, results);
    LastTurnStays(w.llm, [ToolResults(answers)]);
    hide LastTurn;
    hide FinishWith;
    hide TopOfLoop;
    hide GateOk;
    var c := w.(llm := w.llm + [ToolResults(answers)]);
    TopText(c);
    FinishText(c, CancelledRun);
    var taken := c.(accepted := None);
    FinishText(taken, FailedRun(InternalFailure(TERMINAL_WITHOUT_SUBMISSION)));
    if c.accepted.Some? && !TextMode(c) { FinishText(taken, Completed(c.accepted.value)); }
  }

  /** Only a streaming turn has no pending text to keep. */
  ghost predicate StreamingIsFresh(w: World) {
    w.pc.Streaming? ==> w.pendingText.None?
  }

  lemma TopFresh(w: World)
    ensures StreamingIsFresh(TopOfLoop(w))
  {
  }

  lemma StepFresh(w: World, m: RunMove)
    requires StreamingIsFresh(w)
    ensures StreamingIsFresh(RunStep(w, m))
  {
    hide TopOfLoop;
    hide BatchStep;
    hide TaskStep;
    match m {
      case WakeUp => if w.pc.Parked? { TopFresh(w.(wakers := EndRace(w.wakers, w.pc.race))); }
      case HookReturnsMove => TopFresh(w);
      case TasksMove(task) => TaskStepQuiet(w, task);
      case BatchesMove(bm) => if w.pc.InBatch? { BatchStepNotStreaming(w, w.pc.batch, bm); }
      case BatchContinuesMove => if w.pc.BatchReturned? { BatchContinuesFresh(w, w.pc.calls, w.pc.results); }
      case _ =>
    }
  }

  lemma BatchStepNotStreaming(w: World, b: Batch, m: BatchMove)
    ensures !BatchStep(w, b, m).pc.Streaming?
  {
    hide Advance;
    hide GateEffects;
  }

  lemma BatchContinuesFresh(w: World, calls: seq<Call>, results: seq<CallResult>)
    ensures StreamingIsFresh(BatchContinues(w, calls, results))
  {
    hide TopOfLoop;
    TopFresh(w.(llm := w.llm + [ToolResults(NormalizeBatch(calls, results))]));
  }

  /** Steps that leave history, queues and pending text as they are. */
  lemma QuietText(w: World, n: World)
    requires TextOk(w) && n.llm == w.llm && n.pendingText == w.pendingText && n.config == w.config
    requires n.handle.finished == w.handle.finished && n.ledger.dropped == w.ledger.dropped
    requires w.handle.finished.Some? ==> n.inbox == w.inbox && (w.tasks.entries == [] ==> n.tasks.entries == [])
    ensures TextOk(n)
  {
    hide LastTurn;
  }

  lemma TaskStepText(w: World, m: TaskMove)
    requires TextOk(w) && HandleOk(w)
    ensures TextOk(TaskStep(w, m))
  {
    TaskStepQuiet(w, m);
    hide HandleInv;
    hide RegistryInv;
    MoveAdvances(w.tasks, m);
    hide Move;
    QuietText(w, TaskStep(w, m));
  }

  lemma BatchStepText(w: World, b: Batch, m: BatchMove)
    requires TextOk(w) && w.handle.finished.None?
    ensures TextOk(BatchStep(w, b, m))
  {
    BatchStepQuiet(w, b, m);
    PendingTextStays(w, b, m);
    hide BatchStep;
    QuietText(w, BatchStep(w, b, m));
  }

  lemma PendingTextStays(w: World, b: Batch, m: BatchMove)
    ensures BatchStep(w, b, m).pendingText == w.pendingText
  {
    hide Advance;
    hide GateOpen;
    hide AtTerminal;
  }

  lemma StepText(w: World, m: RunMove)
    requires HandleOk(w) && Delivered(w) && GateOk(w) && TextOk(w) && StreamingIsFresh(w)
    ensures TextOk(RunStep(w, m))
  {
    hide HandleInv;
    hide RegistryInv;
    hide Accounted;
    hide GateOk;
    hide LastTurn;
    hide TopOfLoop;
    hide TurnArrives;
    hide BatchContinues;
    hide BatchStep;
    hide TaskStep;
    hide FinishWith;
    match m {
      case SteerMove(text) => QuietText(w, SteerRun(w, text));
      case PublishMove(message, key) => QuietText(w, PublishNote(w, message, key));
      case InterruptMove => QuietText(w, AgentRun.InterruptRun(w));
      case TasksMove(task) => TaskStepText(w, task);
      case WakeUp => if w.pc.Parked? { TopText(w.(wakers := EndRace(w.wakers, w.pc.race))); }
      case StreamMove(delta) => QuietText(w, RunStep(w, m));
      case TurnMove(text, calls, usage) => if w.pc.Streaming? { TurnText(w, text, calls, usage); }
      case TurnFailsMove(error) => if w.pc.Streaming? { FinishText(w, ClassifyLoopError(error, w.handle.aborted)); }
      case HookReturnsMove =>
        if w.pc.RestHook? { TopText(w); }
        else { QuietText(w, RunStep(w, m)); }
      case BatchesMove(bm) => if w.pc.InBatch? { BatchStepText(w, w.pc.batch, bm); }
      case BatchContinuesMove => if w.pc.BatchReturned? { BatchContinuesText(w, w.pc.calls, w.pc.results); }
    }
  }

  // ----- completing with a submission -------------------------------------------------------------

  /** The provider never repeats a tool-use id within one message. */
  ghost predicate WellNamed(m: RunMove) {
    m.TurnMove? ==> DistinctIds(m.calls)
  }

  ghost predicate PcDistinct(pc: Pc) {
    match pc
    case CallsHook(calls) => DistinctIds(calls)
    case InBatch(b) => DistinctIds(b.calls)
    case BatchReturned(calls, results) => DistinctIds(calls)
    case _ => true
  }

  /** The accepted submission is recorded: the run will complete with it, or has. */
  ghost predicate Committed(w: World) {
    w.ledger.accepts != [] &&
    match w.pc
    case InBatch(b) => TerminalIn(b)
    case BatchReturned(calls, results) => TerminalResult(results)
    case Done => w.handle.finished.Some? && w.handle.finished.value.result == Completed(w.ledger.accepts[0])
    case _ => false
  }

  /** An interrupt cut the accepted submission off: the run will be cancelled, or was. */
  ghost predicate CutOff(w: World) {
    w.handle.aborted &&
    match w.pc
    case BatchReturned(calls, results) => !TerminalResult(results)
    case Done => w.handle.finished.Some? && w.handle.finished.value.result == CancelledRun
    case _ => false
  }

  predicate AwaitsReturn(pc: Pc) {
    pc.InBatch? && TerminalPending(pc.batch)
  }

  ghost predicate CommitOk(w: World) {
    && PcDistinct(w.pc)
    && (w.ledger.accepts != [] ==> AwaitsReturn(w.pc) || Committed(w) || CutOff(w))
    && (AwaitsReturn(w.pc) ==> !TerminalIn(w.pc.batch))
  }

  lemma ContinueCommitted(w: World, calls: seq<Call>, results: seq<CallResult>)
    requires GateOk(w) && w.handle.finished.None? && w.pc == BatchReturned(calls, results)
    requires DistinctIds(calls)
    ensures Committed(w) ==> Committed(BatchContinues(w, calls, results))
    ensures CutOff(w) ==> CutOff(BatchContinues(w, calls, results))
  {
    NormalizeIsIdentity(calls, results);
    hide TerminalResult;
    hide TopOfLoop;
  }

  lemma OverResults(b: Batch)
    requires |b.settled| == |b.calls|
    ensures TerminalResult(Results(b)) <==> TerminalIn(b)
  {
    var r := Results(b);
    if TerminalIn(b) {
      var i :| 0 <= i < |b.settled| && HasResult(b, i) && b.settled[i].value.isTerminal;
      assert r[i].isTerminal;
    }
    if TerminalResult(r) {
      var i :| 0 <= i < |r| && r[i].isTerminal;
      assert HasResult(b, i);
    }
  }

  /** A batch step records the accepted submission, or is cut off by an abort. */
  lemma BatchStepCommit(w: World, b: Batch, m: BatchMove)
    requires GateOk(w) && CommitOk(w) && w.pc == InBatch(b) && w.handle.finished.None?
    ensures CommitOk(BatchStep(w, b, m))
    ensures Committed(w) ==> Committed(BatchStep(w, b, m))
    ensures TerminalPending(b) && AtTerminal(b) && m.DispatchReturn? ==>
      (if w.handle.aborted then CutOff(BatchStep(w, b, m)) else Committed(BatchStep(w, b, m)))
  {
    var gate := GateOpen(w);
    var s := Advance(b, m, w.handle.aborted, gate);
    AdvanceKeeps(b, m, w.handle.aborted, gate);
    AdvanceKeepsCalls(b, m, w.handle.aborted, gate);
    AdvanceTerminal(b, m, w.handle.aborted, gate);
    BatchStepQuiet(w, b, m);
    AcceptsAfter(w, b, m);
    OverResults(s.batch);
    CommitAfter(w, b, s.batch, m, BatchStep(w, b, m));
  }

  lemma AcceptsAfter(w: World, b: Batch, m: BatchMove)
    ensures var n := BatchStep(w, b, m);
      n.ledger.accepts == if m.VerdictReturn? && m.verdict.Accepts? && AtTerminal(b) && b.phase.Submitting? && !b.over
                          then w.ledger.accepts + [m.verdict.value] else w.ledger.accepts
  {
    hide Advance;
    hide AtTerminal;
    hide GateOpen;
  }

  lemma CommitAfter(w: World, b: Batch, n: Batch, m: BatchMove, r: World)
    requires GateOk(w) && CommitOk(w) && w.pc == InBatch(b) && w.handle.finished.None?
    requires BatchInv(n, w.handle.aborted) && n.calls == b.calls
    requires TerminalMoves(b, n, m, w.handle.aborted, GateOpen(w))
    requires |n.settled| == |n.calls| && (TerminalResult(Results(n)) <==> TerminalIn(n))
    requires r.pc == AfterBatch(n) && r.handle.aborted == w.handle.aborted
    requires r.ledger.accepts == if m.VerdictReturn? && m.verdict.Accepts? && AtTerminal(b) && b.phase.Submitting? &&
        !b.over
                                 then w.ledger.accepts + [m.verdict.value] else w.ledger.accepts
    requires b.phase.Returning? ==> AtTerminal(b)
    ensures CommitOk(r)
    ensures Committed(w) ==> Committed(r)
    ensures TerminalPending(b) && AtTerminal(b) && m.DispatchReturn? ==>
      (if w.handle.aborted then CutOff(r) else Committed(r))
  {
    hide BatchInv;
    hide TerminalIn;
    hide TerminalResult;
    hide AtTerminal;
    hide GateOpen;
  }

  /** Steps outside the batch that leave the submission where it is. */
  lemma QuietCommit(w: World, n: World)
    requires CommitOk(w) && n.ledger.accepts == w.ledger.accepts && n.handle.finished == w.handle.finished
    requires n.pc == w.pc
    requires w.handle.aborted ==> n.handle.aborted
    ensures CommitOk(n)
    ensures Committed(w) ==> Committed(n)
    ensures CutOff(w) ==> CutOff(n)
  {
    hide TerminalIn;
    hide TerminalResult;
    hide DistinctIds;
  }

  lemma NoAcceptNoCommit(w: World)
    requires w.ledger.accepts == [] && PcDistinct(w.pc) && !AwaitsReturn(w.pc)
    ensures CommitOk(w) && !Committed(w)
  {
  }

  lemma TopPc(w: World)
    ensures var n := TopOfLoop(w);
      (n.pc.Done? || n.pc.Parked? || n.pc.Streaming?) && n.ledger.accepts == w.ledger.accepts
  {
  }

  lemma TurnPc(w: World, text: string, calls: seq<Call>, usage: Usage)
    ensures var n := TurnArrives(w, text, calls, usage);
      (n.pc.Done? || n.pc.RestHook? || n.pc == CallsHook(calls)) && n.ledger.accepts == w.ledger.accepts
  {
  }

  lemma BatchContinuesPc(w: World, calls: seq<Call>, results: seq<CallResult>)
    ensures var n := BatchContinues(w, calls, results);
      (n.pc.Done? || n.pc.Parked? || n.pc.Streaming?) && n.ledger.accepts == w.ledger.accepts
  {
    hide TopOfLoop;
    TopPc(w.(llm := w.llm + [ToolResults(NormalizeBatch(calls, results))]));
  }

  ghost predicate KeepsCommit(w: World, n: World) {
    CommitOk(n) && (Committed(w) ==> Committed(n)) && (CutOff(w) ==> CutOff(n))
  }

  /** A run that is neither batch nor done has accepted nothing. */
  lemma ElsewhereNothingAccepted(w: World)
    requires CommitOk(w) && !w.pc.InBatch? && !w.pc.BatchReturned? && !w.pc.Done?
    ensures w.ledger.accepts == [] && !Committed(w) && !CutOff(w)
  {
  }

  lemma BatchContinuesCommit(w: World, calls: seq<Call>, results: seq<CallResult>)
    requires GateOk(w) && CommitOk(w) && w.handle.finished.None? && w.pc == BatchReturned(calls, results)
    ensures KeepsCommit(w, BatchContinues(w, calls, results))
  {
    ContinueCommitted(w, calls, results);
    BatchContinuesPc(w, calls, results);
    hide BatchContinues;
    hide TerminalResult;
    hide DistinctIds;
  }

  lemma BatchMoveCommit(w: World, b: Batch, m: BatchMove)
    requires GateOk(w) && CommitOk(w) && w.handle.finished.None? && w.pc == InBatch(b)
    ensures KeepsCommit(w, BatchStep(w, b, m))
  {
    BatchStepCommit(w, b, m);
    hide BatchStep;
    hide TerminalIn;
  }

  lemma StepCommit(w: World, m: RunMove)
    requires HandleOk(w) && GateOk(w) && CommitOk(w) && WellNamed(m)
    ensures KeepsCommit(w, RunStep(w, m))
  {
    hide HandleInv;
    hide RegistryInv;
    hide GateOk;
    hide DistinctIds;
    hide TerminalIn;
    hide TerminalResult;
    hide TopOfLoop;
    hide TurnArrives;
    hide BatchContinues;
    hide BatchStep;
    hide TaskStep;
    match m {
      case SteerMove(text) => QuietCommit(w, SteerRun(w, text));
      case PublishMove(message, key) => QuietCommit(w, PublishNote(w, message, key));
      case InterruptMove => QuietCommit(w, AgentRun.InterruptRun(w));
      case TasksMove(task) =>
        TaskStepQuiet(w, task);
        QuietCommit(w, TaskStep(w, task));
      case WakeUp =>
        if w.pc.Parked? {
          ElsewhereNothingAccepted(w);
          var n := w.(wakers := EndRace(w.wakers, w.pc.race));
          TopPc(n);
          NoAcceptNoCommit(TopOfLoop(n));
        }
      case StreamMove(delta) => QuietCommit(w, RunStep(w, m));
      case TurnMove(text, calls, usage) =>
        if w.pc.Streaming? {
          ElsewhereNothingAccepted(w);
          TurnPc(w, text, calls, usage);
          NoAcceptNoCommit(TurnArrives(w, text, calls, usage));
        }
      case TurnFailsMove(error) =>
        if w.pc.Streaming? {
          ElsewhereNothingAccepted(w);
          NoAcceptNoCommit(RunStep(w, m));
        }
      case HookReturnsMove =>
        if w.pc.RestHook? {
          ElsewhereNothingAccepted(w);
          TopPc(w);
          NoAcceptNoCommit(TopOfLoop(w));
        } else if w.pc.CallsHook? {
          ElsewhereNothingAccepted(w);
          NoAcceptNoCommit(RunStep(w, m));
        }
      case BatchesMove(bm) => if w.pc.InBatch? { LiveUnlessDone(w); BatchMoveCommit(w, w.pc.batch, bm); }
      case BatchContinuesMove =>
        if w.pc.BatchReturned? { LiveUnlessDone(w); BatchContinuesCommit(w, w.pc.calls, w.pc.results); }
    }
  }

  lemma LiveUnlessDone(w: World)
    requires HandleOk(w) && !w.pc.Done?
    ensures w.handle.finished.None?
  {
  }

  // ----- a hidden submission ------------------------------------------------------------------------

  /** A submission was accepted and no terminal result is left that the loop could see. */
  ghost predicate Hidden(w: World) {
    && w.ledger.accepts != [] && !TextMode(w) && w.handle.finishing && (w.pc.Done? || w.submitting)
    && match w.pc
       case InBatch(b) => !TerminalIn(b) && !TerminalPending(b) && !b.phase.PostHook? && !b.phase.Submitting?
       case BatchReturned(calls, results) => !TerminalResult(NormalizeBatch(calls, results))
       case Done => w.handle.finished.Some? && !w.handle.finished.value.result.Completed?
       case _ => true
  }

  /** It stays so, nothing more is accepted, and no steer is taken. */
  ghost predicate StaysHidden(w: World, n: World) {
    Hidden(n) && n.ledger.accepts == w.ledger.accepts && n.ledger.steered == w.ledger.steered
  }

  lemma NoTerminalNoAnswer(calls: seq<Call>, results: seq<CallResult>)
    requires !TerminalResult(results)
    ensures !TerminalResult(NormalizeBatch(calls, results))
  {
    var answers := NormalizeBatch(calls, results);
    NormalizedAnswers(calls, results);
    forall i | 0 <= i < |answers| ensures !answers[i].isTerminal {
      assert answers[i] in answers;
    }
  }

  lemma NewBatchIsHidden(w: World, calls: seq<Call>)
    requires Hidden(w) && w.pc == CallsHook(calls)
    ensures Hidden(w.(pc := InBatch(StartBatch(calls, w.config.terminalName))))
  {
  }

  lemma BatchStepHidden(w: World, b: Batch, m: BatchMove)
    requires GateOk(w) && Hidden(w) && w.pc == InBatch(b) && w.handle.finished.None?
    ensures StaysHidden(w, BatchStep(w, b, m))
  {
    var gate := GateOpen(w);
    var s := Advance(b, m, w.handle.aborted, gate);
    AdvanceKeeps(b, m, w.handle.aborted, gate);
    AdvanceTerminal(b, m, w.handle.aborted, gate);
    BatchStepQuiet(w, b, m);
    EmitAllOnlyEmits(GateEffects(w, b, m).handle, ToolEvents(s.events));
    OverResults(s.batch);
    if s.batch.over { NoAnswerWhenOver(s.batch); }
    HiddenAfter(w, b, s.batch, m, BatchStep(w, b, m));
  }

  lemma NoAnswerWhenOver(b: Batch)
    requires |b.settled| == |b.calls|
    ensures !TerminalIn(b) ==> !TerminalResult(NormalizeBatch(b.calls, Results(b)))
  {
    OverResults(b);
    if !TerminalIn(b) { NoTerminalNoAnswer(b.calls, Results(b)); }
    hide TerminalIn;
    hide TerminalResult;
  }

  lemma HiddenAfter(w: World, b: Batch, n: Batch, m: BatchMove, r: World)
    requires Hidden(w) && w.pc == InBatch(b)
    requires TerminalMoves(b, n, m, w.handle.aborted, GateOpen(w))
    requires |n.settled| == |n.calls| &&
        (n.over && !TerminalIn(n) ==> !TerminalResult(NormalizeBatch(n.calls, Results(n))))
    requires var g := GateEffects(w, b, m);
      r == g.(handle := r.handle, pc := AfterBatch(n)) &&
        r.handle == g.handle.(nextSeq := r.handle.nextSeq, events := r.handle.events)
    ensures StaysHidden(w, r)
  {
    hide TerminalIn;
    hide TerminalResult;
    hide AtTerminal;
  }

  lemma TopHidden(w: World)
    requires Hidden(w.(pc := RestHook)) && w.handle.finished.None?
    ensures StaysHidden(w, TopOfLoop(w))
  {
  }

  lemma BatchContinuesHidden(w: World, calls: seq<Call>, results: seq<CallResult>)
    requires Hidden(w) && w.handle.finished.None? && w.pc == BatchReturned(calls, results)
    ensures StaysHidden(w, BatchContinues(w, calls, results))
  {
    hide TopOfLoop;
    hide TerminalResult;
    TopHidden(w.(llm := w.llm + [ToolResults(NormalizeBatch(calls, results))]));
  }

  lemma StepHidden(w: World, m: RunMove)
    requires HandleOk(w) && GateOk(w) && Hidden(w)
    ensures StaysHidden(w, RunStep(w, m))
  {
    if !w.pc.Done? { LiveUnlessDone(w); }
    hide HandleOk;
    hide TerminalIn;
    hide TerminalResult;
    hide GateOk;
    hide TopOfLoop;
    hide BatchContinues;
    hide BatchStep;
    hide TaskStep;
    match m {
      case TasksMove(task) => TaskStepQuiet(w, task); TaskLedger(w, task);
      case WakeUp => if w.pc.Parked? { TopHidden(w.(wakers := EndRace(w.wakers, w.pc.race))); }
      case HookReturnsMove =>
        if w.pc.RestHook? { TopHidden(w); }
        else if w.pc.CallsHook? { NewBatchIsHidden(w, w.pc.calls); }
      case BatchesMove(bm) => if w.pc.InBatch? { BatchStepHidden(w, w.pc.batch, bm); }
      case BatchContinuesMove => if w.pc.BatchReturned? { BatchContinuesHidden(w, w.pc.calls, w.pc.results); }
      case _ =>
    }
  }

  lemma TaskLedger(w: World, m: TaskMove)
    ensures TaskStep(w, m).ledger == w.ledger
  {
  }
}
