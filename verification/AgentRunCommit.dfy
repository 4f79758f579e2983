/** The submission gate: at most one submission is ever accepted, what a run completes with
    is what was accepted, and which steers a finish can throw away. */
module AgentRunCommit {
  import opened Text
  import opened Notifications
  import opened RunHistory
  import opened TaskRegistry
  import opened ToolBatch
  import opened RunEvents
  import opened Wakeups
  import opened AgentRun
  import opened AgentRunInvariant
  import opened AgentRunDelivery

  ghost predicate TerminalIn(b: Batch) {
    exists i :: 0 <= i < |b.settled| && HasResult(b, i) && b.settled[i].value.isTerminal
  }

  predicate TerminalPending(b: Batch) {
    b.phase.Returning? && b.phase.result.isTerminal
  }

  // ----- what a batch move does to terminal results and phases --------------------------------

  lemma PickTerminal(b: Batch, l: nat, aborted: bool)
    requires l < |b.lanes|
    ensures var n := Pick(b, l, aborted).batch; n.settled == b.settled && n.phase == b.phase && n.over == b.over
  {
  }

  lemma ReturnTerminal(b: Batch, l: nat, content: string, isError: bool, aborted: bool)
    requires BatchInv(b, aborted) && l < |b.lanes| && b.lanes[l].Busy?
    ensures var n := Return(b, l, content, isError, aborted).batch;
      (TerminalIn(n) <==> TerminalIn(b)) && n.phase == b.phase && n.over == b.over
  {
    var n := Return(b, l, content, isError, aborted).batch;
    var i := b.lanes[l].call;
    assert !HasResult(b, i);
    if TerminalIn(b) {
      var x :| 0 <= x < |b.settled| && HasResult(b, x) && b.settled[x].value.isTerminal;
      assert HasResult(n, x) && n.settled[x] == b.settled[x];
    }
    if TerminalIn(n) {
      var x :| 0 <= x < |n.settled| && HasResult(n, x) && n.settled[x].value.isTerminal;
      assert x != i ==> HasResult(b, x) && n.settled[x] == b.settled[x];
    }
  }

  lemma FinishTerminalTerminal(b: Batch, result: CallResult, aborted: bool)
    requires BatchInv(b, aborted) && AtTerminal(b)
    ensures var n := FinishTerminal(b, result, aborted).batch;
      && n.phase == Idle
      && (if aborted then n.over && (TerminalIn(n) <==> TerminalIn(b))
          else n.over == b.over && (TerminalIn(n) <==> TerminalIn(b) || result.isTerminal))
  {
    var n := FinishTerminal(b, result, aborted).batch;
    var i := b.terminal[b.tnext];
    assert !HasResult(b, i);
    if TerminalIn(b) {
      var x :| 0 <= x < |b.settled| && HasResult(b, x) && b.settled[x].value.isTerminal;
      assert HasResult(n, x) && n.settled[x] == b.settled[x];
    }
    if !aborted {
      assert HasResult(n, i) && n.settled[i].value == result;
      if TerminalIn(n) {
        var x :| 0 <= x < |n.settled| && HasResult(n, x) && n.settled[x].value.isTerminal;
        assert x != i ==> HasResult(b, x) && n.settled[x] == b.settled[x];
      }
    }
  }

  /** The only ways a batch move touches a terminal result or a submission's phase. */
  ghost predicate TerminalMoves(b: Batch, n: Batch, m: BatchMove, aborted: bool, gateOpen: bool) {
    match m
    case PreHookReturn(denied) =>
      && (TerminalIn(n) <==> TerminalIn(b)) && !n.over
      && (if !AtTerminal(b) || !b.phase.PreHook? then n.phase == b.phase
          else !TerminalPending(n) && !n.phase.Submitting? && (n.phase.PostHook? <==> denied.None? && gateOpen))
    case PostHookReturn(denied) =>
      && (TerminalIn(n) <==> TerminalIn(b)) && !n.over
      && (if !AtTerminal(b) || !b.phase.PostHook? then n.phase == b.phase
          else !TerminalPending(n) && !n.phase.PostHook? && (n.phase.Submitting? <==> denied.None?))
    case VerdictReturn(v) =>
      && (TerminalIn(n) <==> TerminalIn(b)) && !n.over
      && (if !AtTerminal(b) || !b.phase.Submitting? then n.phase == b.phase
          else n.phase.Returning? && (TerminalPending(n) <==> v.Accepts?))
    case DispatchReturn =>
      if !AtTerminal(b) || !b.phase.Returning? then (TerminalIn(n) <==> TerminalIn(b)) && n.phase == b.phase &&
          n.over == b.over
      else n.phase.Idle? && (if aborted then n.over && (TerminalIn(n) <==> TerminalIn(b))
                             else !n.over && (TerminalIn(n) <==> TerminalIn(b) || TerminalPending(b)))
    case TerminalPick(valid, refusal) =>
      && (TerminalIn(n) <==> TerminalIn(b))
      && (n.phase == b.phase || (b.phase.Idle? && !TerminalPending(n) && !n.phase.PostHook? && !n.phase.Submitting?))
      && (n.over ==> b.phase.Idle? && n.phase.Idle?)
    case _ => (TerminalIn(n) <==> TerminalIn(b)) && n.phase == b.phase && !n.over
  }

  lemma AdvanceTerminal(b: Batch, m: BatchMove, aborted: bool, gateOpen: bool)
    requires BatchInv(b, aborted) && !b.over
    ensures TerminalMoves(b, Advance(b, m, aborted, gateOpen).batch, m, aborted, gateOpen)
  {
    hide BatchInv;
    hide AtTerminal;
    hide Pick;
    hide Return;
    hide FinishTerminal;
    match m {
      case LanePick(l) => if l < |b.lanes| { PickTerminal(b, l, aborted); }
      case LaneReturn(l, content, isError) =>
        if l < |b.lanes| && b.lanes[l].Busy? { ReturnTerminal(b, l, content, isError, aborted); }
      case DispatchReturn =>
        if AtTerminal(b) && b.phase.Returning? { FinishTerminalTerminal(b, b.phase.result, aborted); }
      case _ =>
    }
  }

  // ----- the gate's invariant --------------------------------------------------------------------

  predicate InSubmitting(pc: Pc) {
    pc.InBatch? && pc.batch.phase.Submitting?
  }

  /** Steers queued behind a submission are exactly those from the gap. */
  ghost predicate PcGate(w: World) {
    match w.pc
    case InBatch(b) =>
      && !b.over && BatchInv(b, w.handle.aborted)
      && (!b.phase.Idle? || TerminalIn(b) ==> w.config.terminalName.Some?)
      && (b.terminal != [] ==> w.config.terminalName.Some?)
      && (b.phase.PostHook? || b.phase.Submitting? ==> w.ledger.accepts == [] && w.handle.steers == w.ledger.gap)
      && (TerminalIn(b) || TerminalPending(b) ==> w.accepted.Some? && w.handle.steers == w.ledger.gap)
    case BatchReturned(calls, results) =>
      Answers(calls, results) &&
      (TerminalResult(results) ==> w.config.terminalName.Some? && w.accepted.Some? && w.handle.steers == w.ledger.gap)
    case _ => true
  }

  ghost predicate GateOk(w: World) {
    && |w.ledger.accepts| <= 1
    && (w.accepted.Some? ==> w.ledger.accepts == [w.accepted.value])
    && (w.ledger.accepts != [] ==> w.config.terminalName.Some?)
    && (w.pc.Done? || ((w.submitting <==> w.ledger.accepts != [] || InSubmitting(w.pc)) &&
      w.handle.finishing == w.submitting))
    && PcGate(w)
  }

  /** A run with a terminal tool that completed did so with the one accepted submission,
      and threw away exactly the steers of the gap. */
  ghost predicate CompletedOk(w: World) {
    w.handle.finished.Some? && w.handle.finished.value.result.Completed? && !TextMode(w) ==>
      w.ledger.accepts == [w.handle.finished.value.result.value] && w.ledger.dropped == w.ledger.gap
  }

  /** Between batches nothing of the gate is held, unless a submission was accepted. */
  ghost predicate GateIdle(w: World) {
    && |w.ledger.accepts| <= 1
    && (w.accepted.Some? ==> w.ledger.accepts == [w.accepted.value])
    && (w.ledger.accepts != [] ==> w.config.terminalName.Some?)
    && (w.submitting <==> w.ledger.accepts != []) && w.handle.finishing == w.submitting
  }

  lemma TopGate(w: World)
    requires GateIdle(w) && w.handle.finished.None?
    ensures GateOk(TopOfLoop(w)) && CompletedOk(TopOfLoop(w))
  {
    hide BatchInv;
  }

  lemma TurnGate(w: World, text: string, calls: seq<Call>, usage: Usage)
    requires GateOk(w) && w.pc.Streaming? && w.handle.finished.None?
    ensures GateOk(TurnArrives(w, text, calls, usage)) && CompletedOk(TurnArrives(w, text, calls, usage))
  {
    hide BatchInv;
  }

  /** The loop finds a terminal result only together with the accepted submission. */
  lemma TerminalResultIsAccepted(w: World, calls: seq<Call>, results: seq<CallResult>)
    requires GateOk(w) && w.pc == BatchReturned(calls, results)
    ensures TerminalResult(NormalizeBatch(calls, results)) ==>
      w.config.terminalName.Some? && w.accepted.Some? && w.handle.steers == w.ledger.gap
  {
    var answers := NormalizeBatch(calls, results);
    if TerminalResult(answers) {
      var i :| 0 <= i < |answers| && answers[i].isTerminal;
      NormalizedAnswers(calls, results);
      assert answers[i] in results;
    }
  }

  lemma BatchContinuesGate(w: World, calls: seq<Call>, results: seq<CallResult>)
    requires GateOk(w) && w.pc == BatchReturned(calls, results) && w.handle.finished.None? && w.ledger.dropped == []
    ensures GateOk(BatchContinues(w, calls, results)) && CompletedOk(BatchContinues(w, calls, results))
  {
    TerminalResultIsAccepted(w, calls, results);
    hide BatchInv;
    hide TerminalResult;
    hide TopOfLoop;
    var c := w.(llm := w.llm + [ToolResults(NormalizeBatch(calls, results))]);
    TopGate(c);
  }

  lemma StartBatchGate(w: World, calls: seq<Call>)
    requires GateOk(w) && w.pc == CallsHook(calls)
    ensures GateOk(w.(pc := InBatch(StartBatch(calls, w.config.terminalName))))
  {
    var b := StartBatch(calls, w.config.terminalName);
    StartKeeps(calls, w.config.terminalName, w.handle.aborted);
    hide BatchInv;
    if b.terminal != [] { assert b.terminal[0] in b.terminal; }
  }

  // ----- a batch step through the gate ---------------------------------------------------------------

  /** The batch state after a step, and what it returns once over. */
  lemma AfterBatchGate(w: World, n: Batch)
    requires BatchInv(n, w.handle.aborted) && w.pc == AfterBatch(n)
    requires n.terminal != [] ==> w.config.terminalName.Some?
    requires !n.phase.Idle? || TerminalIn(n) ==> w.config.terminalName.Some?
    requires n.phase.PostHook? || n.phase.Submitting? ==>
        !n.over && w.ledger.accepts == [] && w.handle.steers == w.ledger.gap
    requires TerminalIn(n) || TerminalPending(n) ==> w.accepted.Some? && w.handle.steers == w.ledger.gap
    ensures PcGate(w)
  {
    if n.over {
      var results := Results(n);
      assert Answers(n.calls, results);
      if TerminalResult(results) {
        var i :| 0 <= i < |results| && results[i].isTerminal;
        assert HasResult(n, i);
      }
    }
  }

  lemma PhaseNeedsTerminal(b: Batch, aborted: bool)
    requires BatchInv(b, aborted)
    ensures !b.phase.Idle? || TerminalIn(b) ==> b.terminal != []
  {
    if TerminalIn(b) {
      var i: nat :| i < |b.settled| && HasResult(b, i) && b.settled[i].value.isTerminal;
      assert i in b.ordinary || i in b.terminal;
    }
  }

  lemma BatchStepGate(w: World, b: Batch, m: BatchMove)
    requires GateOk(w) && w.pc == InBatch(b) && w.handle.finished.None?
    ensures GateOk(BatchStep(w, b, m))
  {
    var gate := GateOpen(w);
    var s := Advance(b, m, w.handle.aborted, gate);
    var g := GateEffects(w, b, m);
    AdvanceKeeps(b, m, w.handle.aborted, gate);
    AdvanceKeepsCalls(b, m, w.handle.aborted, gate);
    AdvanceTerminal(b, m, w.handle.aborted, gate);
    EmitAllOnlyEmits(g.handle, ToolEvents(s.events));
    PhaseNeedsTerminal(s.batch, w.handle.aborted);
    GateAfter(w, b, s.batch, m, BatchStep(w, b, m));
  }

  lemma GateAfter(w: World, b: Batch, n: Batch, m: BatchMove, r: World)
    requires GateOk(w) && w.pc == InBatch(b) && w.handle.finished.None?
    requires BatchInv(n, w.handle.aborted) && n.terminal == b.terminal
    requires TerminalMoves(b, n, m, w.handle.aborted, GateOpen(w))
    requires !n.phase.Idle? || TerminalIn(n) ==> n.terminal != []
    requires var g := GateEffects(w, b, m);
      r == g.(handle := r.handle, pc := AfterBatch(n)) &&
        r.handle == g.handle.(nextSeq := r.handle.nextSeq, events := r.handle.events)
    ensures GateOk(r)
  {
    hide BatchInv;
    hide TerminalIn;
    AfterBatchGate(r, n);
  }

  // ----- the other moves -------------------------------------------------------------------------------

  lemma SteerGate(w: World, text: string)
    requires GateOk(w) && HandleOk(w)
    ensures GateOk(SteerRun(w, text))
  {
    hide BatchInv;
    hide HandleInv;
    hide RegistryInv;
  }

  /** Moves that leave gate, latch and steer queue alone. */
  lemma QuietGate(w: World, n: World)
    requires GateOk(w) && n.config == w.config && n.submitting == w.submitting && n.accepted == w.accepted
    requires n.handle.finishing == w.handle.finishing && n.handle.steers == w.handle.steers
    requires n.ledger.accepts == w.ledger.accepts && n.ledger.gap == w.ledger.gap
    requires n.pc == w.pc
    requires w.handle.aborted ==> n.handle.aborted
    ensures GateOk(n)
  {
    if w.pc.InBatch? { AbortKeeps(w.pc.batch, w.handle.aborted); }
    hide BatchInv;
  }

  lemma FinishGate(w: World, result: Result)
    requires GateOk(w) && w.pc.Streaming? && w.handle.finished.None? && !result.Completed?
    ensures GateOk(FinishWith(w, result)) && CompletedOk(FinishWith(w, result))
  {
  }

  lemma StepGate(w: World, m: RunMove)
    requires HandleOk(w) && Delivered(w) && GateOk(w) && CompletedOk(w)
    ensures GateOk(RunStep(w, m)) && CompletedOk(RunStep(w, m))
  {
    if w.pc.Done? { DoneGate(w, m); } else { LiveGate(w, m); }
  }

  lemma DoneGate(w: World, m: RunMove)
    requires HandleOk(w) && GateOk(w) && CompletedOk(w) && w.pc.Done?
    ensures GateOk(RunStep(w, m)) && CompletedOk(RunStep(w, m))
  {
    hide HandleInv;
    hide RegistryInv;
    if m.TasksMove? { TaskStepQuiet(w, m.task); }
    if m.SteerMove? { FinishedTakesNoSteers(w.handle); }
    hide TaskStep;
  }

  lemma FinishedTakesNoSteers(h: Handle)
    requires h.finished.Some?
    ensures !TakesSteers(h)
  {
  }

  lemma LiveGate(w: World, m: RunMove)
    requires HandleOk(w) && Delivered(w) && GateOk(w) && !w.pc.Done?
    ensures GateOk(RunStep(w, m)) && CompletedOk(RunStep(w, m))
  {
    hide HandleInv;
    hide RegistryInv;
    hide Accounted;
    hide PcGate;
    hide TopOfLoop;
    hide TurnArrives;
    hide BatchContinues;
    hide BatchStep;
    hide TaskStep;
    hide FinishWith;
    hide SteerRun;
    match m {
      case SteerMove(text) =>
        SteerGate(w, text);
        SteerFinishes(w, text);
      case PublishMove(message, key) => QuietGate(w, PublishNote(w, message, key));
      case InterruptMove => QuietGate(w, AgentRun.InterruptRun(w));
      case TasksMove(task) =>
        TaskStepQuiet(w, task);
        QuietGate(w, TaskStep(w, task));
      case WakeUp => if w.pc.Parked? { TopGate(w.(wakers := EndRace(w.wakers, w.pc.race))); }
      case StreamMove(delta) => QuietGate(w, RunStep(w, m));
      case TurnMove(text, calls, usage) => if w.pc.Streaming? { TurnGate(w, text, calls, usage); }
      case TurnFailsMove(error) => if w.pc.Streaming? { FinishGate(w, ClassifyLoopError(error, w.handle.aborted)); }
      case HookReturnsMove =>
        if w.pc.RestHook? { TopGate(w); }
        else if w.pc.CallsHook? { StartBatchGate(w, w.pc.calls); }
      case BatchesMove(bm) =>
        if w.pc.InBatch? {
          BatchStepQuiet(w, w.pc.batch, bm);
          BatchStepGate(w, w.pc.batch, bm);
        }
      case BatchContinuesMove => if w.pc.BatchReturned? { BatchContinuesGate(w, w.pc.calls, w.pc.results); }
    }
  }

  lemma SteerFinishes(w: World, text: string)
    ensures SteerRun(w, text).handle.finished == w.handle.finished
  {
  }
}
