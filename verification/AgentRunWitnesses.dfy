/** Runs that show what can happen. */
module AgentRunWitnesses {
  import opened Text
  import opened Notifications
  import opened RunHistory
  import opened TaskRegistry
  import opened ToolBatch
  import opened RunEvents
  import opened Wakeups
  import opened AgentRun
  import opened AgentRunInvariant
  import opened AgentRunDelivery
  import opened AgentRunCommit
  import opened AgentRunOutcome
  import opened AgentRunTheorems

  // Each shows that a condition of the main results cannot be dropped.

  // ----- steers and interrupts while a turn is out --------------------------------------------

  lemma FirstTurn(config: Config)
    requires config.maxTurns >= 1
    ensures var w := StartAgent(config);
      && w.pc == Streaming && w.handle.finished.None? && TakesSteers(w.handle) && !w.handle.aborted
      && w.handle.steers == [] && w.inbox == [] && w.tasks == NO_TASKS && !w.submitting && w.turns == 0
      && w.accepted.None? && w.config == config && Steers(w.llm) == []
      && w.ledger.accepts == [] && w.ledger.gap == [] && w.ledger.steered == [] && w.ledger.dropped == []
  {
    InitialMessagesHold(config.initial);
    assert InitialMessages(config.initial) + SteerMessages([]) + NoteMessages([]) == InitialMessages(config.initial);
  }

  lemma ExecTwo(config: Config, a: RunMove, b: RunMove)
    ensures ExecRun(config, [a, b]) == RunStep(RunStep(StartAgent(config), a), b)
  {
    hide RunStep;
    RunUnfolds(config, []);
    ExecOne(config, [], a);
    ExecOne(config, [a], b);
    assert [] + [a] == [a] && [a] + [b] == [a, b];
  }

  /** Any run drops a steer that it accepted when the turn in progress fails. */
  lemma FailedRunDropsSteer(config: Config, text: string, message: string)
    requires config.maxTurns >= 1
    ensures var w := ExecRun(config, [SteerMove(text), TurnFailsMove(ProviderError(message))]);
      && Finished(w) && w.handle.finished.value.result == FailedRun(ProviderFailure(message))
      && w.ledger.steered == [text] && w.ledger.gap == [] && Steers(w.llm) == [] && w.ledger.dropped == [text]
  {
    FirstTurn(config);
    ExecTwo(config, SteerMove(text), TurnFailsMove(ProviderError(message)));
    hide StartAgent;
    hide ExecRun;
  }

  /** So does a run that an interrupt cancels. */
  lemma CancelledRunDropsSteer(config: Config, text: string, error: TurnError)
    requires config.maxTurns >= 1
    ensures var w := ExecRun(config, [SteerMove(text), InterruptMove, TurnFailsMove(error)]);
      && Finished(w) && w.handle.finished.value.result == CancelledRun
      && w.ledger.steered == [text] && w.ledger.gap == [] && Steers(w.llm) == [] && w.ledger.dropped == [text]
  {
    FirstTurn(config);
    ExecTwo(config, SteerMove(text), InterruptMove);
    ExecOne(config, [SteerMove(text), InterruptMove], TurnFailsMove(error));
    assert [SteerMove(text), InterruptMove] + [TurnFailsMove(error)] ==
      [SteerMove(text), InterruptMove, TurnFailsMove(error)];
    hide StartAgent;
    hide ExecRun;
  }

  /** A text turn that still arrives after the interrupt completes the run. */
  lemma InterruptedTextCompletes(config: Config, text: string, usage: Usage)
    requires config.maxTurns >= 1 && config.terminalName.None?
    ensures var w := ExecRun(config, [InterruptMove, TurnMove(text, [], usage)]);
      w.handle.aborted && Finished(w) && w.handle.finished.value.result == Completed(text)
  {
    FirstTurn(config);
    ExecTwo(config, InterruptMove, TurnMove(text, [], usage));
    hide StartAgent;
    hide ExecRun;
  }

  // ----- submissions ------------------------------------------------------------------------------

  function SubmitConfig(): Config { Config(Some("submit"), 4, ["go"]) }

  /** `n` submissions that all carry one tool-use id. */
  function Submissions(n: nat): (calls: seq<Call>)
    ensures |calls| == n && forall i :: 0 <= i < n ==> calls[i] == Call("a", "submit", "x")
  {
    seq(n, _ => Call("a", "submit", "x"))
  }

  function Positions(n: nat): (r: seq<nat>)
    ensures |r| == n && forall i :: 0 <= i < n ==> r[i] == i
  {
    seq(n, i => i)
  }

  /** A terminal call at the end joins the terminal ones. */
  lemma LastIsTerminal(calls: seq<Call>, terminalName: Option<string>)
    requires calls != [] && IsTerminalCall(calls[|calls| - 1], terminalName)
    ensures Indices(calls, terminalName, true) == Indices(calls[..|calls| - 1], terminalName, true) + [|calls| - 1]
    ensures Indices(calls, terminalName, false) == Indices(calls[..|calls| - 1], terminalName, false)
  {
  }

  lemma {:induction false} AllTerminal(n: nat)
    ensures Indices(Submissions(n), Some("submit"), true) == Positions(n)
    ensures Indices(Submissions(n), Some("submit"), false) == []
  {
    hide Submissions;
    hide Positions;
    if n == 0 {
      assert Submissions(0) == [] && Positions(0) == [];
    } else {
      hide Indices;
      var calls := Submissions(n);
      assert calls[..n - 1] == Submissions(n - 1);
      LastIsTerminal(calls, Some("submit"));
      AllTerminal(n - 1);
      assert Positions(n - 1) + [n - 1] == Positions(n);
    }
  }

  /** A batch of `n` submissions of which the first is at hand. */
  ghost predicate AtFirst(w: World, n: nat) {
    && n >= 1 && w.pc.InBatch? && w.pc.batch.calls == Submissions(n) && w.pc.batch.terminal == Positions(n)
    && |w.pc.batch.settled| == n && w.pc.batch.tnext == 0 && !w.pc.batch.over && w.pc.batch.released
    && w.handle.finished.None? && w.config == SubmitConfig()
  }

  /** Nothing blocks the gate. */
  ghost predicate Unblocked(w: World) {
    && w.handle.finished.None? && TakesSteers(w.handle) && !w.handle.aborted
    && w.handle.steers == [] && w.inbox == [] && w.tasks.entries == [] && !w.submitting
    && w.accepted.None? && w.ledger.accepts == [] && w.config == SubmitConfig()
  }

  /** The first submission is waiting for its pre hooks. */
  ghost predicate BeforeGate(w: World, n: nat) {
    AtFirst(w, n) && w.pc.batch.phase.PreHook? && Unblocked(w)
  }

  lemma ReachesBatch(n: nat)
    requires n >= 1
    ensures var w := RunStep(RunStep(StartAgent(SubmitConfig()), TurnMove("", Submissions(n), NO_USAGE)),
        HookReturnsMove);
      w.pc == InBatch(StartBatch(Submissions(n), Some("submit"))) && Unblocked(w)
  {
    FirstTurn(SubmitConfig());
    hide StartAgent;
    var w1 := RunStep(StartAgent(SubmitConfig()), TurnMove("", Submissions(n), NO_USAGE));
    assert w1.pc == CallsHook(Submissions(n));
  }

  ghost predicate OnlySubmissions(b: Batch, n: nat) {
    && b.calls == Submissions(n) && b.terminal == Positions(n) && |b.settled| == n && b.lanes == []
    && b.tnext == 0 && b.phase.Idle? && !b.over
  }

  lemma StartsSubmissions(n: nat)
    ensures OnlySubmissions(StartBatch(Submissions(n), Some("submit")), n)
  {
    AllTerminal(n);
  }

  lemma ReleasesNothing(w: World, b: Batch)
    requires w.pc == InBatch(b) && b.lanes == [] && !b.over && Unblocked(w)
    ensures var next := RunStep(w, BatchesMove(Release)); next.pc == InBatch(b.(released := true)) && Unblocked(next)
  {
    BatchStepQuiet(w, b, Release);
    NoEmission(w.handle);
  }

  lemma NoEmission(h: Handle)
    ensures EmitAll(h, ToolEvents([])) == h
  {
    assert ToolEvents([]) == [];
  }

  lemma PicksFirst(w: World, n: nat)
    requires n >= 1 && w.pc.InBatch? && OnlySubmissions(w.pc.batch, n) && w.pc.batch.released && Unblocked(w)
    ensures BeforeGate(RunStep(w, BatchesMove(TerminalPick(true, ""))), n)
  {
    var b := w.pc.batch;
    BatchStepQuiet(w, b, TerminalPick(true, ""));
    EmitAllOnlyEmits(w.handle, ToolEvents(Advance(b, TerminalPick(true, ""), false, GateOpen(w)).events));
  }

  lemma PicksSubmission(w: World, n: nat)
    requires n >= 1 && w.pc == InBatch(StartBatch(Submissions(n), Some("submit"))) && Unblocked(w)
    ensures BeforeGate(RunStep(RunStep(w, BatchesMove(Release)), BatchesMove(TerminalPick(true, ""))), n)
  {
    hide RunStep;
    hide StartBatch;
    hide Unblocked;
    hide BeforeGate;
    StartsSubmissions(n);
    ReleasesNothing(w, w.pc.batch);
    PicksFirst(RunStep(w, BatchesMove(Release)), n);
  }

  lemma ReachesGate(n: nat) returns (moves: seq<RunMove>)
    requires n >= 1
    ensures BeforeGate(ExecRun(SubmitConfig(), moves), n)
  {
    hide RunStep;
    hide StartAgent;
    hide BeforeGate;
    var c, calls := SubmitConfig(), Submissions(n);
    RunUnfolds(c, []);
    ReachesBatch(n);
    PicksSubmission(RunStep(RunStep(StartAgent(c), TurnMove("", calls, NO_USAGE)), HookReturnsMove), n);
    moves := [];
    ExecOne(c, moves, TurnMove("", calls, NO_USAGE));
    moves := moves + [TurnMove("", calls, NO_USAGE)];
    ExecOne(c, moves, HookReturnsMove);
    moves := moves + [HookReturnsMove];
    ExecOne(c, moves, BatchesMove(Release));
    moves := moves + [BatchesMove(Release)];
    ExecOne(c, moves, BatchesMove(TerminalPick(true, "")));
    moves := moves + [BatchesMove(TerminalPick(true, ""))];
  }

  /** The submission is with the host: `onSubmit` has been called and has not answered. */
  ghost predicate WithHost(w: World, n: nat) {
    AtFirst(w, n) && w.pc.batch.phase.Submitting? && w.accepted.None? && w.ledger.accepts == [] && w.submitting
  }

  lemma Submits(w: World, n: nat, steer: bool)
    requires BeforeGate(w, n)
    ensures var a := RunStep(w, BatchesMove(PreHookReturn(None)));
      var b := if steer then RunStep(a, SteerMove("wait")) else a;
      var c := RunStep(b, BatchesMove(PostHookReturn(None)));
      WithHost(c, n) && !c.handle.aborted && c.ledger.gap == (if steer then ["wait"] else [])
  {
    var a := RunStep(w, BatchesMove(PreHookReturn(None)));
    assert a.pc.InBatch? && a.pc.batch.phase.PostHook? && AtTerminal(a.pc.batch) && !a.pc.batch.over;
    var b := if steer then RunStep(a, SteerMove("wait")) else a;
    assert b.pc == a.pc && b.ledger.gap == (if steer then ["wait"] else []);
  }

  lemma ToHost(n: nat, steer: bool) returns (moves: seq<RunMove>)
    requires n >= 1
    ensures WithHost(ExecRun(SubmitConfig(), moves), n) && !ExecRun(SubmitConfig(), moves).handle.aborted
    ensures ExecRun(SubmitConfig(), moves).ledger.gap == (if steer then ["wait"] else [])
  {
    hide RunStep;
    hide StartAgent;
    hide BeforeGate;
    hide WithHost;
    var c := SubmitConfig();
    moves := ReachesGate(n);
    Submits(ExecRun(c, moves), n, steer);
    ExecOne(c, moves, BatchesMove(PreHookReturn(None)));
    moves := moves + [BatchesMove(PreHookReturn(None))];
    if steer {
      ExecOne(c, moves, SteerMove("wait"));
      moves := moves + [SteerMove("wait")];
    }
    ExecOne(c, moves, BatchesMove(PostHookReturn(None)));
    moves := moves + [BatchesMove(PostHookReturn(None))];
  }

  ghost predicate NoResult(b: Batch) {
    forall i :: 0 <= i < |b.settled| ==> b.settled[i].None?
  }

  lemma NothingRecorded(w: World, n: nat)
    requires AgentInv(w) && WithHost(w, n)
    ensures NoResult(w.pc.batch)
  {
    var b := w.pc.batch;
    assert ResultsOk(b);
    forall i | 0 <= i < |b.settled| ensures b.settled[i].None? {
      assert b.terminal[i] == i && !HasResult(b, b.terminal[i]);
    }
  }

  function AcceptedResult(): CallResult { CallResult("a", SUBMISSION_ACCEPTED, false, true) }

  /** The host has accepted "v"; the result is on its way back. */
  ghost predicate Accepted(w: World, n: nat) {
    && AtFirst(w, n) && NoResult(w.pc.batch) && w.pc.batch.phase == Returning(AcceptedResult())
    && w.accepted == Some("v") && w.ledger.accepts == ["v"] && w.submitting
  }

  lemma HostAccepts(w: World, n: nat)
    requires WithHost(w, n) && NoResult(w.pc.batch)
    ensures var next := RunStep(w, BatchesMove(VerdictReturn(Accepts("v"))));
      Accepted(next, n) && next.handle.aborted == w.handle.aborted && next.ledger.gap == w.ledger.gap
  {
    BatchStepQuiet(w, w.pc.batch, VerdictReturn(Accepts("v")));
  }

  /** The result is recorded and the submission done with. */
  ghost predicate Recorded(w: World, n: nat) {
    && n >= 1 && w.pc.InBatch? && w.pc.batch.calls == Submissions(n) && w.pc.batch.terminal == Positions(n)
    && |w.pc.batch.settled| == n && w.pc.batch.tnext == 1 && !w.pc.batch.over && w.pc.batch.released &&
      w.pc.batch.phase.Idle?
    && w.pc.batch.settled[0] == Some(AcceptedResult())
    && w.handle.finished.None? && w.config == SubmitConfig() && !w.handle.aborted
    && w.accepted == Some("v") && w.ledger.accepts == ["v"] && w.submitting
  }

  lemma Returns(w: World, n: nat)
    requires Accepted(w, n) && !w.handle.aborted
    ensures var next := RunStep(w, BatchesMove(DispatchReturn)); Recorded(next, n) && next.ledger.gap == w.ledger.gap
  {
    BatchStepQuiet(w, w.pc.batch, DispatchReturn);
  }

  lemma LoneReturns(w: World)
    requires Recorded(w, 1)
    ensures var n := RunStep(w, BatchesMove(TerminalPick(true, "")));
      && n.pc == BatchReturned(Submissions(1), [AcceptedResult()])
      && n.accepted == Some("v") && n.config == SubmitConfig() && n.handle.finished.None? &&
        n.ledger.gap == w.ledger.gap
  {
    BatchStepQuiet(w, w.pc.batch, TerminalPick(true, ""));
    assert Results(w.pc.batch) == [AcceptedResult()];
  }

  lemma CompletesWithIt(w: World)
    requires w.pc == BatchReturned(Submissions(1), [AcceptedResult()])
    requires w.accepted == Some("v") && w.config == SubmitConfig() && w.handle.finished.None?
    ensures var n := RunStep(w, BatchContinuesMove);
      Finished(n) && n.handle.finished.value.result == Completed("v") && n.ledger.gap == w.ledger.gap
  {
    var answers := NormalizeBatch(w.pc.calls, w.pc.results);
    assert answers[0].isTerminal;
    assert TerminalResult(answers);
  }

  /** The run was interrupted while the host was at it; the accepted result comes back too
      late. */
  lemma ReturnsTooLate(w: World)
    requires Accepted(w, 1) && w.handle.aborted
    ensures var n := RunStep(w, BatchesMove(DispatchReturn));
      && n.pc == BatchReturned(Submissions(1), [RunHistory.Interrupted("a")])
      && n.handle.aborted && n.handle.finished.None? && n.ledger.accepts == ["v"]
  {
    BatchStepQuiet(w, w.pc.batch, DispatchReturn);
    assert Results(w.pc.batch) == [RunHistory.Interrupted("a")];
  }

  lemma CancelsInstead(w: World)
    requires w.pc == BatchReturned(Submissions(1), [RunHistory.Interrupted("a")])
    requires w.handle.aborted && w.handle.finished.None?
    ensures var n := RunStep(w, BatchContinuesMove);
      Finished(n) && n.handle.finished.value.result == CancelledRun && n.ledger.accepts == w.ledger.accepts
  {
    var answers := NormalizeBatch(w.pc.calls, w.pc.results);
    assert forall i :: 0 <= i < |answers| ==> !answers[i].isTerminal;
  }

  lemma StaysWithHost(w: World, n: nat)
    requires WithHost(w, n)
    ensures var next := RunStep(w, InterruptMove); WithHost(next, n) && next.handle.aborted && next.pc == w.pc
  {
  }

  /** A steer accepted between the gate check and the latch is lost although the run
      completes. */
  lemma GapSteerIsLost() returns (moves: seq<RunMove>)
    ensures var w := ExecRun(SubmitConfig(), moves);
      && Finished(w) && w.handle.finished.value.result == Completed("v")
      && w.ledger.gap == ["wait"] && Steers(w.llm) != w.ledger.steered
  {
    hide RunStep;
    hide WithHost;
    hide Accepted;
    hide Recorded;
    hide AgentInv;
    var c := SubmitConfig();
    moves := ToHost(1, true);
    ExecKeepsInv(c, moves);
    NothingRecorded(ExecRun(c, moves), 1);
    HostAccepts(ExecRun(c, moves), 1);
    ExecOne(c, moves, BatchesMove(VerdictReturn(Accepts("v"))));
    moves := moves + [BatchesMove(VerdictReturn(Accepts("v")))];
    Returns(ExecRun(c, moves), 1);
    ExecOne(c, moves, BatchesMove(DispatchReturn));
    moves := moves + [BatchesMove(DispatchReturn)];
    LoneReturns(ExecRun(c, moves));
    ExecOne(c, moves, BatchesMove(TerminalPick(true, "")));
    moves := moves + [BatchesMove(TerminalPick(true, ""))];
    CompletesWithIt(ExecRun(c, moves));
    ExecOne(c, moves, BatchContinuesMove);
    moves := moves + [BatchContinuesMove];
    OnlyGapSteersAreLost(c, moves);
  }

  /** An interrupt while the submission is with the host cancels the run, although the host
      then accepts. */
  lemma AcceptedYetCancelled() returns (moves: seq<RunMove>)
    ensures var w := ExecRun(SubmitConfig(), moves);
      w.ledger.accepts == ["v"] && Finished(w) && w.handle.finished.value.result == CancelledRun
  {
    hide RunStep;
    hide WithHost;
    hide Accepted;
    hide AgentInv;
    var c := SubmitConfig();
    moves := ToHost(1, false);
    StaysWithHost(ExecRun(c, moves), 1);
    ExecOne(c, moves, InterruptMove);
    moves := moves + [InterruptMove];
    ExecKeepsInv(c, moves);
    NothingRecorded(ExecRun(c, moves), 1);
    HostAccepts(ExecRun(c, moves), 1);
    ExecOne(c, moves, BatchesMove(VerdictReturn(Accepts("v"))));
    moves := moves + [BatchesMove(VerdictReturn(Accepts("v")))];
    ReturnsTooLate(ExecRun(c, moves));
    ExecOne(c, moves, BatchesMove(DispatchReturn));
    moves := moves + [BatchesMove(DispatchReturn)];
    CancelsInstead(ExecRun(c, moves));
    ExecOne(c, moves, BatchContinuesMove);
    moves := moves + [BatchContinuesMove];
  }

  // ----- an accepted submission that gets hidden -----------------------------------------------------

  function DeniedResult(): CallResult { Refused("a", SUBMISSION_DENIED) }

  /** The second submission, of the same id, has met the closed gate. */
  ghost predicate Denied(w: World) {
    && w.pc.InBatch? && AtTerminal(w.pc.batch) && w.pc.batch.tnext == 1 && !w.pc.batch.over && w.pc.batch.released
    && w.pc.batch.calls == Submissions(2) && w.pc.batch.terminal == Positions(2)
    && |w.pc.batch.settled| == 2 && w.pc.batch.settled[0] == Some(AcceptedResult())
    && w.pc.batch.phase == Returning(DeniedResult())
    && w.handle.finished.None? && !w.handle.aborted && w.ledger.accepts == ["v"]
  }

  lemma MeetsClosedGate(w: World)
    requires Recorded(w, 2)
    ensures Denied(RunStep(RunStep(w, BatchesMove(TerminalPick(true, ""))), BatchesMove(PreHookReturn(None))))
  {
    var a := RunStep(w, BatchesMove(TerminalPick(true, "")));
    BatchStepQuiet(w, w.pc.batch, TerminalPick(true, ""));
    assert a.pc.InBatch? && a.pc.batch == w.pc.batch.(phase := PreHook, started := a.pc.batch.started) && a.submitting;
    BatchStepQuiet(a, a.pc.batch, PreHookReturn(None));
  }

  lemma HidesTheFirst(w: World)
    requires Denied(w)
    ensures var n := RunStep(RunStep(w, BatchesMove(DispatchReturn)), BatchesMove(TerminalPick(true, "")));
      && n.pc == BatchReturned(Submissions(2), [AcceptedResult(), DeniedResult()])
      && n.ledger.accepts == ["v"] && !n.handle.aborted
  {
    var a := RunStep(w, BatchesMove(DispatchReturn));
    BatchStepQuiet(w, w.pc.batch, DispatchReturn);
    assert a.pc.InBatch? && a.pc.batch.tnext == 2 && a.pc.batch.phase.Idle? && !a.pc.batch.over && a.pc.batch.released;
    assert a.pc.batch.settled == [Some(AcceptedResult()), Some(DeniedResult())];
    BatchStepQuiet(a, a.pc.batch, TerminalPick(true, ""));
    assert Results(a.pc.batch) == [AcceptedResult(), DeniedResult()];
  }

  lemma NoTerminalAnswer()
    ensures !TerminalResult(NormalizeBatch(Submissions(2), [AcceptedResult(), DeniedResult()]))
  {
    assert ResultFor([AcceptedResult(), DeniedResult()], "a") == Some(DeniedResult());
  }

  /** A message that repeats its submission's id: the first is accepted, the second, denied,
      hides its result, and whatever comes later the uninterrupted run never completes. */
  lemma HiddenSubmission() returns (moves: seq<RunMove>)
    ensures ExecRun(SubmitConfig(), moves).ledger.accepts == ["v"] && !ExecRun(SubmitConfig(), moves).handle.aborted
    ensures forall more :: NeverCompletes(moves, more)
  {
    hide RunStep;
    hide WithHost;
    hide Accepted;
    hide Recorded;
    hide Denied;
    hide AgentInv;
    var c := SubmitConfig();
    moves := ToHost(2, false);
    ExecKeepsInv(c, moves);
    NothingRecorded(ExecRun(c, moves), 2);
    HostAccepts(ExecRun(c, moves), 2);
    ExecOne(c, moves, BatchesMove(VerdictReturn(Accepts("v"))));
    moves := moves + [BatchesMove(VerdictReturn(Accepts("v")))];
    Returns(ExecRun(c, moves), 2);
    ExecOne(c, moves, BatchesMove(DispatchReturn));
    moves := moves + [BatchesMove(DispatchReturn)];
    MeetsClosedGate(ExecRun(c, moves));
    ExecOne(c, moves, BatchesMove(TerminalPick(true, "")));
    moves := moves + [BatchesMove(TerminalPick(true, ""))];
    ExecOne(c, moves, BatchesMove(PreHookReturn(None)));
    moves := moves + [BatchesMove(PreHookReturn(None))];
    HidesTheFirst(ExecRun(c, moves));
    ExecOne(c, moves, BatchesMove(DispatchReturn));
    moves := moves + [BatchesMove(DispatchReturn)];
    ExecOne(c, moves, BatchesMove(TerminalPick(true, "")));
    moves := moves + [BatchesMove(TerminalPick(true, ""))];
    NoTerminalAnswer();
    forall more ensures NeverCompletes(moves, more) { HiddenSubmissionNeverCompletes(c, moves, more); }
  }

  ghost predicate NeverCompletes(moves: seq<RunMove>, more: seq<RunMove>) {
    var later := ExecRun(SubmitConfig(), moves + more);
    Finished(later) ==> !later.handle.finished.value.result.Completed?
  }
}
