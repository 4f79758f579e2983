/** The main results about agent runs. */
module AgentRunTheorems {
  import opened Text
  import opened Notifications
  import opened RunHistory
  import opened TaskRegistry
  import opened ToolBatch
  import opened RunEvents
  import opened Wakeups
  import opened AgentRun
  import opened AgentRunInvariant
  import opened AgentRunDelivery
  import opened AgentRunParking
  import opened AgentRunCommit
  import opened AgentRunOutcome

  // `ExecRun(config, moves)` ranges over every reachable run: `moves` is an arbitrary
  // interleaving of everything the outside may do.

  ghost predicate AgentInv(w: World) {
    && HandleOk(w) && HistoryOk(w) && Delivered(w) && OrderOk(w) && WakeOk(w) && GateOk(w) && CompletedOk(w)
    && TextOk(w) && StreamingIsFresh(w)
  }

  lemma AssembledHandle(config: Config)
    ensures HandleOk(Assembled(config))
  {
    EmptyRegistry();
    hide RegistryInv;
  }

  lemma AssembledHistory(config: Config)
    ensures HistoryOk(Assembled(config)) && Steers(Assembled(config).llm) == [] && Notes(Assembled(config).llm) == []
  {
    InitialMessagesHold(config.initial);
    assert History(Assembled(config).llm);
    hide History;
  }

  lemma AssembledIsOk(config: Config)
    ensures AgentInv(Assembled(config)) && CommitOk(Assembled(config))
  {
    hide HandleOk;
    hide HistoryOk;
    hide Delivered;
    hide OrderOk;
    hide WakeOk;
    hide InitialMessages;
    AssembledHandle(config);
    AssembledHistory(config);
    AssembledQueues(config);
    AssembledWakers(config);
    hide LastTurn;
  }

  lemma AssembledQueues(config: Config)
    ensures Delivered(Assembled(config)) && OrderOk(Assembled(config))
  {
    AssembledHistory(config);
    NothingPublished();
    hide HistoryOk;
    hide Accounted;
    hide Steers;
    hide Notes;
    var none: seq<string> := [];
    assert none + none + none == none;
  }

  lemma AssembledWakers(config: Config)
    ensures WakeOk(Assembled(config))
  {
    hide InitialMessages;
  }

  lemma StepKeepsInv(w: World, m: RunMove)
    requires AgentInv(w)
    ensures AgentInv(RunStep(w, m))
  {
    hide HandleOk;
    hide HistoryOk;
    hide Delivered;
    hide OrderOk;
    hide WakeOk;
    hide GateOk;
    hide CompletedOk;
    hide TextOk;
    hide StreamingIsFresh;
    hide RunStep;
    StepIsOk(w, m);
    StepHistory(w, m);
    StepDelivers(w, m);
    StepOrders(w, m);
    StepWakes(w, m);
    StepGate(w, m);
    StepText(w, m);
    StepFresh(w, m);
  }

  lemma {:induction false} ExecKeepsInv(config: Config, moves: seq<RunMove>)
    ensures AgentInv(ExecRun(config, moves))
    ensures (forall m :: m in moves ==> WellNamed(m)) ==> CommitOk(ExecRun(config, moves))
  {
    hide AgentInv;
    hide RunStep;
    hide CommitOk;
    RunUnfolds(config, moves);
    if moves == [] {
      AssembledIsOk(config);
      StepKeepsInv(Assembled(config), HookReturnsMove);
      assert StartAgent(config) == RunStep(Assembled(config), HookReturnsMove) by { StartIsStep(config); }
      StepKeepsCommit(Assembled(config), HookReturnsMove);
    } else {
      var front := moves[..|moves| - 1];
      ExecKeepsInv(config, front);
      StepKeepsInv(ExecRun(config, front), moves[|moves| - 1]);
      if forall m :: m in moves ==> WellNamed(m) {
        assert forall m :: m in front ==> m in moves;
        StepKeepsCommit(ExecRun(config, front), moves[|moves| - 1]);
      }
    }
  }

  lemma StartIsStep(config: Config)
    ensures StartAgent(config) == RunStep(Assembled(config), HookReturnsMove)
  {
    hide TopOfLoop;
  }

  lemma StepKeepsCommit(w: World, m: RunMove)
    requires AgentInv(w) && CommitOk(w) && WellNamed(m)
    ensures KeepsCommit(w, RunStep(w, m))
    ensures CommitOk(RunStep(w, m))
  {
    hide HandleOk;
    hide GateOk;
    hide CommitOk;
    hide WellNamed;
    StepCommit(w, m);
    hide RunStep;
  }

  // ----- single commit ---------------------------------------------------------------------------

  /** Over any run at most one submission is accepted, and a run with a terminal tool
      completes only with that one. */
  lemma SingleCommit(config: Config, moves: seq<RunMove>)
    ensures var w := ExecRun(config, moves);
      && |w.ledger.accepts| <= 1
      && (config.terminalName.Some? && w.handle.finished.Some? && w.handle.finished.value.result.Completed? ==>
            w.ledger.accepts == [w.handle.finished.value.result.value])
  {
    ExecKeepsInv(config, moves);
    ConfigStays(config, moves);
    hide ExecRun;
  }

  lemma {:induction false} ConfigStays(config: Config, moves: seq<RunMove>)
    ensures ExecRun(config, moves).config == config
  {
    hide RunStep;
    hide TopOfLoop;
    RunUnfolds(config, moves);
    if moves == [] {
      StepConfig(Assembled(config), HookReturnsMove);
      StartIsStep(config);
    } else {
      ConfigStays(config, moves[..|moves| - 1]);
      StepConfig(ExecRun(config, moves[..|moves| - 1]), moves[|moves| - 1]);
    }
  }

  lemma StepConfig(w: World, m: RunMove)
    ensures RunStep(w, m).config == w.config
  {
    hide BatchStep;
    hide TaskStep;
    match m {
      case TasksMove(task) => TaskStepQuiet(w, task);
      case BatchesMove(bm) => if w.pc.InBatch? { BatchStepQuiet(w, w.pc.batch, bm); }
      case _ =>
    }
  }

  /** After a batch the loop never meets a terminal result without an accepted submission. */
  lemma NoTerminalWithoutSubmission(config: Config, moves: seq<RunMove>)
    requires ExecRun(config, moves).pc.BatchReturned?
    ensures var w := ExecRun(config, moves);
      var n := RunStep(w, BatchContinuesMove);
      n.handle.finished.Some? ==>
        n.handle.finished.value.result != FailedRun(InternalFailure(TERMINAL_WITHOUT_SUBMISSION))
  {
    ExecKeepsInv(config, moves);
    var w := ExecRun(config, moves);
    LiveUnlessDone(w);
    TerminalResultIsAccepted(w, w.pc.calls, w.pc.results);
    hide ExecRun;
    hide AgentInv;
    TopResult(w.(llm := w.llm + [ToolResults(NormalizeBatch(w.pc.calls, w.pc.results))]));
    hide TopOfLoop;
  }

  lemma TopResult(w: World)
    requires w.handle.finished.None?
    ensures var n := TopOfLoop(w);
      n.handle.finished.Some? ==>
        !n.handle.finished.value.result.FailedRun? || n.handle.finished.value.result.error.MaxTurnsSpent?
  {
  }

  lemma {:induction false} ExecFrom(config: Config, moves: seq<RunMove>, more: seq<RunMove>)
    requires forall m :: m in moves + more ==> WellNamed(m)
    ensures Committed(ExecRun(config, moves)) ==> Committed(ExecRun(config, moves + more))
    ensures CutOff(ExecRun(config, moves)) ==> CutOff(ExecRun(config, moves + more))
    ensures ExecRun(config, moves).ledger.accepts <= ExecRun(config, moves + more).ledger.accepts
    decreases |more|
  {
    hide AgentInv;
    hide CommitOk;
    hide Committed;
    hide CutOff;
    hide WellNamed;
    hide RunStep;
    if more == [] {
      assert moves + more == moves;
    } else {
      var front, m := more[..|more| - 1], more[|more| - 1];
      assert forall x :: x in moves + front ==> x in moves + more;
      ExecFrom(config, moves, front);
      assert moves + more == moves + front + [m];
      assert (moves + more)[..|moves + more| - 1] == moves + front;
      RunUnfolds(config, moves + more);
      assert m in moves + more;
      ExecKeepsInv(config, moves + front);
      StepKeepsCommit(ExecRun(config, moves + front), m);
      AcceptsGrow(ExecRun(config, moves + front), m);
      assert KeepsCommit(ExecRun(config, moves + front), ExecRun(config, moves + more));
    }
  }

  lemma AcceptsGrow(w: World, m: RunMove)
    ensures w.ledger.accepts <= RunStep(w, m).ledger.accepts
  {
    hide TaskStep;
    hide BatchStep;
    hide TopOfLoop;
    hide TurnArrives;
    hide BatchContinues;
    TopPc(w);
    match m {
      case TasksMove(task) => TaskStepQuiet(w, task);
      case WakeUp => if w.pc.Parked? { TopPc(w.(wakers := EndRace(w.wakers, w.pc.race))); }
      case BatchesMove(bm) => if w.pc.InBatch? { AcceptsAfter(w, w.pc.batch, bm); }
      case TurnMove(text, calls, usage) => TurnPc(w, text, calls, usage);
      case BatchContinuesMove => if w.pc.BatchReturned? { BatchContinuesPc(w, w.pc.calls, w.pc.results); }
      case _ =>
    }
  }

  /** When the accepted submission's result comes back, the run's outcome is decided: the
      run completes with the accepted value exactly if it had not been interrupted by then,
      and is cancelled otherwise, whatever happens later. */
  lemma AcceptedSubmissionDecides(config: Config, moves: seq<RunMove>, more: seq<RunMove>)
    requires forall m :: m in moves + [BatchesMove(DispatchReturn)] + more ==> WellNamed(m)
    requires AwaitsReturn(ExecRun(config, moves).pc)
    ensures var w := ExecRun(config, moves);
      var later := ExecRun(config, moves + [BatchesMove(DispatchReturn)] + more);
      && |w.ledger.accepts| == 1
      && (later.handle.finished.Some? ==>
            later.handle.finished.value.result == if w.handle.aborted then CancelledRun
              else Completed(w.ledger.accepts[0]))
  {
    hide WellNamed;
    var returned := moves + [BatchesMove(DispatchReturn)];
    assert forall m :: m in moves ==> m in returned + more;
    assert forall m :: m in returned ==> m in returned + more;
    ExecKeepsInv(config, moves);
    ExecKeepsInv(config, returned + more);
    ExecFrom(config, returned, more);
    ExecOne(config, moves, BatchesMove(DispatchReturn));
    var w := ExecRun(config, moves);
    hide ExecRun;
    hide BatchStep;
    LiveUnlessDone(w);
    ReturnDecides(w);
    DecidedOutcome(w, ExecRun(config, returned), ExecRun(config, returned + more));
  }

  lemma ExecOne(config: Config, moves: seq<RunMove>, m: RunMove)
    ensures ExecRun(config, moves + [m]) == RunStep(ExecRun(config, moves), m)
  {
    hide RunStep;
    RunUnfolds(config, moves + [m]);
    assert (moves + [m])[..|moves + [m]| - 1] == moves;
  }

  lemma ReturnDecides(w: World)
    requires AgentInv(w) && CommitOk(w) && AwaitsReturn(w.pc) && w.handle.finished.None?
    ensures var n := RunStep(w, BatchesMove(DispatchReturn));
      && |w.ledger.accepts| == 1 && n.ledger.accepts == w.ledger.accepts
      && (if w.handle.aborted then CutOff(n) else Committed(n))
  {
    var b := w.pc.batch;
    AcceptsAfter(w, b, DispatchReturn);
    BatchStepCommit(w, b, DispatchReturn);
    hide BatchStep;
    hide Committed;
    hide CutOff;
  }

  lemma DecidedOutcome(w: World, n: World, later: World)
    requires HandleOk(later) && |later.ledger.accepts| <= 1 && |w.ledger.accepts| == 1
    requires n.ledger.accepts == w.ledger.accepts && n.ledger.accepts <= later.ledger.accepts
    requires if w.handle.aborted then CutOff(later) else Committed(later)
    ensures later.handle.finished.Some? ==>
      later.handle.finished.value.result == if w.handle.aborted then CancelledRun else Completed(w.ledger.accepts[0])
  {
    hide HandleInv;
    hide RegistryInv;
    assert later.ledger.accepts == w.ledger.accepts;
  }

  /** The result at `i` ends the run, and no later call with its id hides it. */
  ghost predicate EndsRun(calls: seq<Call>, results: seq<CallResult>, i: int) {
    && 0 <= i < |calls| == |results| && results[i].isTerminal
    && forall j :: i < j < |calls| && calls[j].id == calls[i].id ==> results[j].isTerminal
  }

  lemma TerminalAnswerExactly(calls: seq<Call>, results: seq<CallResult>)
    requires Answers(calls, results)
    ensures TerminalResult(NormalizeBatch(calls, results)) <==> exists i :: EndsRun(calls, results, i)
  {
    var answers := NormalizeBatch(calls, results);
    if k :| 0 <= k < |answers| && answers[k].isTerminal {
      var i := ResultForIsLast(results, calls[k].id);
      assert EndsRun(calls, results, i);
    }
    if i :| EndsRun(calls, results, i) {
      assert results[i].id == calls[i].id;
      var last := ResultForIsLast(results, calls[i].id);
      assert answers[i] == results[last];
    }
  }

  /** Whatever ids the calls carry: after a batch the run completes, with the accepted value,
      exactly if a terminal result is there that no later call with its id hides. */
  lemma BatchCompletesExactly(config: Config, moves: seq<RunMove>)
    requires config.terminalName.Some? && ExecRun(config, moves).pc.BatchReturned?
    ensures var w := ExecRun(config, moves);
      var n := RunStep(w, BatchContinuesMove);
      && (n.handle.finished.Some? && n.handle.finished.value.result.Completed? <==>
        exists i :: EndsRun(w.pc.calls, w.pc.results, i))
      && (n.handle.finished.Some? && n.handle.finished.value.result.Completed? ==>
            w.ledger.accepts == [n.handle.finished.value.result.value])
  {
    ExecKeepsInv(config, moves);
    ConfigStays(config, moves);
    hide ExecRun;
    BatchEnds(ExecRun(config, moves));
  }

  lemma BatchEnds(w: World)
    requires AgentInv(w) && w.config.terminalName.Some? && w.pc.BatchReturned?
    ensures var n := RunStep(w, BatchContinuesMove);
      && (n.handle.finished.Some? && n.handle.finished.value.result.Completed? <==>
        exists i :: EndsRun(w.pc.calls, w.pc.results, i))
      && (n.handle.finished.Some? && n.handle.finished.value.result.Completed? ==>
            w.ledger.accepts == [n.handle.finished.value.result.value])
  {
    LiveUnlessDone(w);
    assert Answers(w.pc.calls, w.pc.results);
    TerminalAnswerExactly(w.pc.calls, w.pc.results);
    TerminalResultIsAccepted(w, w.pc.calls, w.pc.results);
    assert w.accepted.Some? ==> w.ledger.accepts == [w.accepted.value];
    hide AgentInv;
    hide TerminalResult;
    hide EndsRun;
    TopNeverSubmits(w.(llm := w.llm + [ToolResults(NormalizeBatch(w.pc.calls, w.pc.results))]));
    hide TopOfLoop;
  }

  /** If the accepted submission's result is hidden when its batch has returned, or was cut
      off, the run never completes: nothing is accepted and no steer is taken ever after. */
  lemma {:induction false} HiddenSubmissionNeverCompletes(config: Config, moves: seq<RunMove>, more: seq<RunMove>)
    requires var w := ExecRun(config, moves);
      w.pc.BatchReturned? && w.ledger.accepts != [] && !TerminalResult(NormalizeBatch(w.pc.calls, w.pc.results))
    ensures var w, later := ExecRun(config, moves), ExecRun(config, moves + more);
      && later.ledger.accepts == w.ledger.accepts && later.ledger.steered == w.ledger.steered
      && !TakesSteers(later.handle)
      && (later.handle.finished.Some? ==> !later.handle.finished.value.result.Completed?)
  {
    hide RunStep;
    hide ExecRun;
    StaysHiddenFor(config, moves, more);
    ExecKeepsInv(config, moves + more);
    var later := ExecRun(config, moves + more);
    if later.handle.finished.Some? { assert later.pc.Done?; }
    hide AgentInv;
  }

  lemma {:induction false} StaysHiddenFor(config: Config, moves: seq<RunMove>, more: seq<RunMove>)
    requires var w := ExecRun(config, moves);
      w.pc.BatchReturned? && w.ledger.accepts != [] && !TerminalResult(NormalizeBatch(w.pc.calls, w.pc.results))
    ensures StaysHidden(ExecRun(config, moves), ExecRun(config, moves + more))
    decreases |more|
  {
    hide RunStep;
    hide ExecRun;
    if more == [] {
      assert moves + more == moves;
      ExecKeepsInv(config, moves);
      StartsHidden(ExecRun(config, moves));
    } else {
      hide AgentInv;
      hide TerminalResult;
      var front, m := more[..|more| - 1], more[|more| - 1];
      StaysHiddenFor(config, moves, front);
      assert moves + more == moves + front + [m];
      ExecOne(config, moves + front, m);
      ExecKeepsInv(config, moves + front);
      StillHidden(ExecRun(config, moves + front), m);
    }
  }

  lemma StartsHidden(w: World)
    requires AgentInv(w) && w.pc.BatchReturned? && w.ledger.accepts != []
    requires !TerminalResult(NormalizeBatch(w.pc.calls, w.pc.results))
    ensures Hidden(w)
  {
  }

  lemma StillHidden(w: World, m: RunMove)
    requires AgentInv(w) && Hidden(w)
    ensures StaysHidden(w, RunStep(w, m))
  {
    hide HandleOk;
    hide GateOk;
    hide Hidden;
    hide RunStep;
    StepHidden(w, m);
  }

  /** A run with a terminal tool never completes at a boundary. */
  lemma TopNeverSubmits(w: World)
    requires w.handle.finished.None? && !TextMode(w)
    ensures var n := TopOfLoop(w); n.handle.finished.Some? ==> !n.handle.finished.value.result.Completed?
  {
  }

  // ----- the text exit -----------------------------------------------------------------------------

  /** A text run completes only with its gate open: nothing queued, no task open, every
      accepted steer in the history in order, every publish there too unless a later one
      with the same key replaced it first; its outcome is the text of its last turn. */
  lemma TextExitGate(config: Config, moves: seq<RunMove>)
    requires config.terminalName.None?
    requires ExecRun(config, moves).handle.finished.Some? &&
        ExecRun(config, moves).handle.finished.value.result.Completed?
    ensures var w := ExecRun(config, moves);
      && w.handle.steers == [] && w.inbox == [] && w.tasks.entries == []
      && Steers(w.llm) == w.ledger.steered
      && (forall i :: 0 <= i < |w.ledger.published| ==>
        (w.ledger.published[i] in Notes(w.llm) <==> !Superseded(w.ledger.published, i)))
      && LastTurn(w.llm) == Some(Assistant(w.handle.finished.value.result.value, []))
  {
    ExecKeepsInv(config, moves);
    ConfigStays(config, moves);
    var w := ExecRun(config, moves);
    hide ExecRun;
    assert TextExit(w) && HandleInv(w.handle);
    PublishFate(w.ledger.published, Notes(w.llm), w.inbox, w.window);
    assert Steers(w.llm) + [] + [] == Steers(w.llm);
    hide LastTurn;
  }

  /** While a run lives, nothing accepted is ever lost: steers are in the history or queued,
      in arrival order. A publish is in the history once its window has been drained, pending
      before that, and nowhere if a later one replaced it while it was pending. */
  lemma NothingIsLost(config: Config, moves: seq<RunMove>)
    ensures var w := ExecRun(config, moves);
      && (w.handle.finished.None? ==> Steers(w.llm) + w.handle.steers == w.ledger.steered)
      && DistinctStamps(Notes(w.llm) + w.inbox) && FromPublishes(w.ledger.published, Notes(w.llm) + w.inbox)
      && (forall i :: 0 <= i < |w.ledger.published| ==>
            && (w.ledger.published[i] in Notes(w.llm) <==>
              w.ledger.published[i].window < w.window && !Superseded(w.ledger.published, i))
            && (w.ledger.published[i] in w.inbox <==>
              w.ledger.published[i].window == w.window && !Superseded(w.ledger.published, i)))
  {
    ExecKeepsInv(config, moves);
    var w := ExecRun(config, moves);
    hide ExecRun;
    PublishFate(w.ledger.published, Notes(w.llm), w.inbox, w.window);
    hide Accounted;
    assert Steers(w.llm) + w.handle.steers + [] == Steers(w.llm) + w.handle.steers;
  }

  /** In the history of any run steers stand before notes between two neighbouring
      assistant or tool-result messages; the notes there are the queues the drains so far
      found, in order, and the steers a prefix of the accepted ones. */
  lemma SteersPrecedeNotes(config: Config, moves: seq<RunMove>)
    ensures var w := ExecRun(config, moves);
      && SteersFirst(w.llm)
      && Notes(w.llm) == DrainedBy(w.ledger.published, w.window) && w.inbox == QueueOf(w.ledger.published, w.window)
      && Steers(w.llm) <= w.ledger.steered
  {
    ExecKeepsInv(config, moves);
    var w := ExecRun(config, moves);
    hide ExecRun;
    assert Steers(w.llm) + w.handle.steers + w.ledger.dropped == Steers(w.llm) + (w.handle.steers + w.ledger.dropped);
    hide SteersFirst;
    hide NotesParted;
  }

  /** A run with a terminal tool that completed threw away exactly the steers that arrived
      between its gate check and its latch: it lost none if and only if none did. */
  lemma OnlyGapSteersAreLost(config: Config, moves: seq<RunMove>)
    requires config.terminalName.Some?
    requires ExecRun(config, moves).handle.finished.Some? &&
        ExecRun(config, moves).handle.finished.value.result.Completed?
    ensures var w := ExecRun(config, moves);
      && Steers(w.llm) + w.ledger.gap == w.ledger.steered
      && (Steers(w.llm) == w.ledger.steered <==> w.ledger.gap == [])
  {
    ExecKeepsInv(config, moves);
    ConfigStays(config, moves);
    var w := ExecRun(config, moves);
    hide ExecRun;
    assert HandleInv(w.handle) && CompletedOk(w);
    assert Steers(w.llm) + [] + w.ledger.gap == Steers(w.llm) + w.ledger.gap;
    if Steers(w.llm) == w.ledger.steered { assert |w.ledger.gap| == 0; }
    if w.ledger.gap == [] { assert Steers(w.llm) + [] == Steers(w.llm); }
  }

  // ----- what a finish loses ------------------------------------------------------------------------

  predicate Finished(w: World) { w.handle.finished.Some? }

  predicate SpentBudget(w: World) {
    Finished(w) && w.handle.finished.value.result == FailedRun(MaxTurnsSpent)
  }

  /** A finish by any step but the budget exit throws the queued steers away and leaves the
      pending notes; the budget exit has drained both just before. */
  ghost predicate LosesQueued(w: World, n: World) {
    Finished(n) ==>
      && n.ledger.dropped == (if SpentBudget(n) then [] else w.handle.steers)
      && n.inbox == (if SpentBudget(n) then [] else w.inbox)
  }

  lemma TopLoses(w: World)
    requires !Finished(w) && w.ledger.dropped == []
    ensures LosesQueued(w, TopOfLoop(w))
  {
  }

  lemma BatchContinuesLoses(w: World, calls: seq<Call>, results: seq<CallResult>)
    requires !Finished(w) && w.ledger.dropped == []
    ensures LosesQueued(w, BatchContinues(w, calls, results))
  {
    hide TopOfLoop;
    hide TerminalResult;
    TopLoses(w.(llm := w.llm + [ToolResults(NormalizeBatch(calls, results))]));
  }

  lemma FinishingStep(w: World, m: RunMove)
    requires !Finished(w) && w.ledger.dropped == []
    ensures LosesQueued(w, RunStep(w, m))
  {
    hide TopOfLoop;
    hide BatchContinues;
    hide BatchStep;
    hide TaskStep;
    match m {
      case TasksMove(task) => TaskStepQuiet(w, task);
      case WakeUp => if w.pc.Parked? { TopLoses(w.(wakers := EndRace(w.wakers, w.pc.race))); }
      case HookReturnsMove => TopLoses(w);
      case BatchesMove(bm) => if w.pc.InBatch? { BatchStepQuiet(w, w.pc.batch, bm); }
      case BatchContinuesMove => if w.pc.BatchReturned? { BatchContinuesLoses(w, w.pc.calls, w.pc.results); }
      case _ =>
    }
  }

  /** After its finish a run only settles tasks. */
  lemma FinishedStays(w: World, m: RunMove)
    requires AgentInv(w) && Finished(w)
    ensures var n := RunStep(w, m);
      n == w.(tasks := n.tasks, wakers := n.wakers,
        handle := w.handle.(nextSeq := n.handle.nextSeq, events := n.handle.events))
  {
    hide HistoryOk;
    hide GateOk;
    hide WakeOk;
    hide OrderOk;
    hide TaskStep;
    hide RegistryInv;
    if m.TasksMove? { TaskStepQuiet(w, m.task); }
  }

  /** Step `k` is the one that finishes the run. */
  ghost predicate FinishesAt(config: Config, moves: seq<RunMove>, k: nat) {
    k < |moves| && !Finished(ExecRun(config, moves[..k])) && Finished(ExecRun(config, moves[..k + 1]))
  }

  lemma {:induction false} FinishedRunStays(config: Config, moves: seq<RunMove>, k: nat)
    requires k <= |moves| && Finished(ExecRun(config, moves[..k]))
    ensures var a, b := ExecRun(config, moves[..k]), ExecRun(config, moves);
      b == a.(tasks := b.tasks, wakers := b.wakers,
        handle := a.handle.(nextSeq := b.handle.nextSeq, events := b.handle.events))
    decreases |moves|
  {
    hide RunStep;
    hide AgentInv;
    if k < |moves| {
      var front := moves[..|moves| - 1];
      RunUnfolds(config, moves);
      assert front[..k] == moves[..k];
      FinishedRunStays(config, front, k);
      ExecKeepsInv(config, front);
      FinishedStays(ExecRun(config, front), moves[|moves| - 1]);
    } else {
      assert moves[..k] == moves;
    }
  }

  /** Every finished run has a step that finished it, unless it had no turn to spend. */
  lemma {:induction false} SomeStepFinishes(config: Config, moves: seq<RunMove>) returns (k: nat)
    requires Finished(ExecRun(config, moves))
    ensures FinishesAt(config, moves, k) || SpentBudget(ExecRun(config, []))
    decreases |moves|
  {
    hide RunStep;
    if moves == [] {
      k := 0;
      RunUnfolds(config, []);
      hide DrainAll;
      DrainKeepsRest(Assembled(config));
    } else {
      var front := moves[..|moves| - 1];
      assert moves[..|moves|] == moves;
      if Finished(ExecRun(config, front)) {
        k := SomeStepFinishes(config, front);
        if FinishesAt(config, front, k) { assert front[..k] == moves[..k] && front[..k + 1] == moves[..k + 1]; }
      } else {
        k := |front|;
        assert moves[..k] == front;
      }
    }
  }

  /** What a finished run lost, whatever its outcome: unless it spent its turns, the steers
      queued before its last step are thrown away and the notes pending then are never
      delivered; nothing else is lost but notes replaced while they were pending. */
  lemma FinishLosesExactly(config: Config, moves: seq<RunMove>, k: nat)
    requires FinishesAt(config, moves, k)
    ensures var before, w := ExecRun(config, moves[..k]), ExecRun(config, moves);
      && Steers(w.llm) + (if SpentBudget(w) then [] else before.handle.steers) == w.ledger.steered
      && (Steers(w.llm) == w.ledger.steered <==> SpentBudget(w) || before.handle.steers == [])
      && w.inbox == (if SpentBudget(w) then [] else before.inbox)
      && (forall i :: 0 <= i < |w.ledger.published| ==>
            (w.ledger.published[i] !in Notes(w.llm) <==>
              w.ledger.published[i] in w.inbox || Superseded(w.ledger.published, i)))
  {
    hide RunStep;
    hide AgentInv;
    ExecKeepsInv(config, moves[..k]);
    ExecKeepsInv(config, moves);
    assert moves[..k + 1][..k] == moves[..k];
    FinishedRunStays(config, moves, k + 1);
    var before, n, w := ExecRun(config, moves[..k]), ExecRun(config, moves[..k + 1]), ExecRun(config, moves);
    RunUnfolds(config, moves[..k + 1]);
    assert n == RunStep(before, moves[k]);
    hide ExecRun;
    LiveDropsNothing(before);
    FinishingStep(before, moves[k]);
    FinishedAccount(w, if SpentBudget(w) then [] else before.handle.steers);
  }

  lemma LiveDropsNothing(w: World)
    requires AgentInv(w) && !Finished(w)
    ensures w.ledger.dropped == []
  {
  }

  lemma FinishedAccount(w: World, lost: seq<string>)
    requires AgentInv(w) && Finished(w) && w.ledger.dropped == lost
    ensures Steers(w.llm) + lost == w.ledger.steered && (Steers(w.llm) == w.ledger.steered <==> lost == [])
    ensures forall i :: 0 <= i < |w.ledger.published| ==>
      (w.ledger.published[i] !in Notes(w.llm) <==>
        w.ledger.published[i] in w.inbox || Superseded(w.ledger.published, i))
  {
    PublishFate(w.ledger.published, Notes(w.llm), w.inbox, w.window);
    hide RegistryInv;
    hide Accounted;
    hide HistoryOk;
    hide GateOk;
    hide WakeOk;
    hide OrderOk;
    hide TextOk;
    assert Steers(w.llm) + [] + lost == Steers(w.llm) + lost;
    if Steers(w.llm) == w.ledger.steered { assert |lost| == 0; }
    assert Steers(w.llm) + [] == Steers(w.llm);
  }

  // ----- what an interrupt decides --------------------------------------------------------------------

  /** The step that finishes an interrupted run: a text turn that still arrives completes
      it, a recorded terminal result completes it with the accepted submission, and every
      other finish is a cancellation. */
  lemma InterruptedFinish(config: Config, moves: seq<RunMove>, m: RunMove)
    requires ExecRun(config, moves).handle.aborted
    requires !Finished(ExecRun(config, moves)) && Finished(ExecRun(config, moves + [m]))
    ensures var w, r := ExecRun(config, moves), ExecRun(config, moves + [m]).handle.finished.value.result;
      if m.TurnMove? then r == Completed(m.text)
      else if ReturnsTerminal(w) then r.Completed? && w.ledger.accepts == [r.value]
      else r == CancelledRun
  {
    hide ExecRun;
    hide RunStep;
    ExecKeepsInv(config, moves);
    ExecOne(config, moves, m);
    hide HandleOk;
    hide HistoryOk;
    hide GateOk;
    InterruptedStep(ExecRun(config, moves), m);
  }

  ghost predicate ReturnsTerminal(w: World) {
    w.pc.BatchReturned? && TerminalResult(NormalizeBatch(w.pc.calls, w.pc.results))
  }

  /** How an interrupted run ends, if the step ends it. */
  ghost predicate EndsInterrupted(w: World, m: RunMove, n: World) {
    Finished(n) ==>
      var r := n.handle.finished.value.result;
      if m.TurnMove? then r == Completed(m.text)
      else if ReturnsTerminal(w) then r.Completed? && w.ledger.accepts == [r.value]
      else r == CancelledRun
  }

  lemma InterruptedTop(w: World)
    requires !Finished(w) && w.handle.aborted
    ensures var n := TopOfLoop(w); Finished(n) && n.handle.finished.value.result == CancelledRun
  {
  }

  lemma InterruptedBatch(w: World, m: RunMove)
    requires GateOk(w) && !Finished(w) && w.handle.aborted && w.pc.BatchReturned? && !m.TurnMove?
    ensures EndsInterrupted(w, m, BatchContinues(w, w.pc.calls, w.pc.results))
  {
    TerminalResultIsAccepted(w, w.pc.calls, w.pc.results);
    assert w.accepted.Some? ==> w.ledger.accepts == [w.accepted.value];
    hide GateOk;
    hide TerminalResult;
    hide TopOfLoop;
  }

  lemma InterruptedStep(w: World, m: RunMove)
    requires GateOk(w) && !Finished(w) && w.handle.aborted
    ensures EndsInterrupted(w, m, RunStep(w, m))
  {
    if w.pc.BatchReturned? && m.BatchContinuesMove? { InterruptedBatch(w, m); }
    hide GateOk;
    hide TopOfLoop;
    hide BatchContinues;
    hide BatchStep;
    hide TaskStep;
    hide TerminalResult;
    match m {
      case TasksMove(task) => TaskStepQuiet(w, task);
      case WakeUp => if w.pc.Parked? { InterruptedTop(w.(wakers := EndRace(w.wakers, w.pc.race))); }
      case HookReturnsMove => InterruptedTop(w);
      case BatchesMove(bm) => if w.pc.InBatch? { BatchStepQuiet(w, w.pc.batch, bm); }
      case _ =>
    }
  }

  /** Once interrupted, a run never fails, whatever comes later. */
  lemma {:induction false} InterruptedNeverFails(config: Config, moves: seq<RunMove>, more: seq<RunMove>)
    requires ExecRun(config, moves).handle.aborted && !Finished(ExecRun(config, moves))
    ensures var later := ExecRun(config, moves + more);
      later.handle.aborted && (Finished(later) ==> !later.handle.finished.value.result.FailedRun?)
    decreases |more|
  {
    hide RunStep;
    hide AgentInv;
    if more == [] {
      assert moves + more == moves;
    } else {
      var front, m := moves + more[..|more| - 1], more[|more| - 1];
      InterruptedNeverFails(config, moves, more[..|more| - 1]);
      assert moves + more == front + [m];
      ExecKeepsInv(config, front);
      ExecOne(config, front, m);
      AbortStays(ExecRun(config, front), m);
      if Finished(ExecRun(config, front)) { FinishedStays(ExecRun(config, front), m); }
      else if Finished(ExecRun(config, front + [m])) { InterruptedFinish(config, front, m); }
    }
  }

  lemma AbortStays(w: World, m: RunMove)
    ensures w.handle.aborted ==> RunStep(w, m).handle.aborted
  {
    hide BatchStep;
    hide TaskStep;
    if m.TasksMove? { TaskStepQuiet(w, m.task); }
    if w.pc.InBatch? && m.BatchesMove? { BatchStepQuiet(w, w.pc.batch, m.batch); }
  }

  // ----- parking ------------------------------------------------------------------------------------

  /** A parked loop has missed nothing: its race is won exactly if something came up since
      the capture; until then its wakers are out at handle, mailbox and registry and on the
      signal, and some task is open. */
  lemma NoLostWakeUp(config: Config, moves: seq<RunMove>)
    requires ExecRun(config, moves).pc.Parked?
    ensures var w := ExecRun(config, moves);
      && (Won(w.wakers, w.pc.race) <==>
            w.handle.steers != [] || w.inbox != [] || w.handle.aborted || w.tasks.changes != w.pc.since)
      && (!Won(w.wakers, w.pc.race) ==> Hooked(w.wakers, w.pc.race) && w.tasks.entries != [])
  {
    ExecKeepsInv(config, moves);
    var w := ExecRun(config, moves);
    hide ExecRun;
    if !Won(w.wakers, w.pc.race) { UnwonIsHooked(w.wakers, w.pc.race); }
    hide WakersOk;
    hide Won;
    hide Hooked;
  }

  /** The sources a move makes fire. */
  function WokenBy(w: World, m: RunMove): set<Source> {
    match m
    case SteerMove(_) => if TakesSteers(w.handle) then {SteerSource} else {}
    case PublishMove(_, _) => {NoteSource}
    case InterruptMove => {SteerSource, NoteSource, TaskSource}
    case TasksMove(task) => if |Move(w.tasks, task).registry.settled| > |w.tasks.settled| then {TaskSource} else {}
    case _ => {}
  }

  /** While nothing has woken the loop: a move resolves exactly the promises of the sources
      it concerns and leaves the other waits hooked; the loop stays parked until it resumes. */
  lemma EverySourceWakes(config: Config, moves: seq<RunMove>, m: RunMove)
    requires ExecRun(config, moves).pc.Parked? && !Won(ExecRun(config, moves).wakers, ExecRun(config, moves).pc.race)
    ensures var w, n := ExecRun(config, moves), ExecRun(config, moves + [m]);
      && n.pc == w.pc
      && (Won(n.wakers, w.pc.race) <==> WokenBy(w, m) != {})
      && (forall s: Source :: Waker(w.pc.race, s) in n.wakers.resolved <==> s in WokenBy(w, m))
      && (forall s: Source :: Waker(w.pc.race, s) in n.wakers.listeners <==> s !in WokenBy(w, m))
  {
    ExecKeepsInv(config, moves);
    ExecOne(config, moves, m);
    var w := ExecRun(config, moves);
    hide ExecRun;
    LiveUnlessDone(w);
    UnwonIsHooked(w.wakers, w.pc.race);
    ParkedStep(w, m);
  }

  lemma ParkedStep(w: World, m: RunMove)
    requires WakeOk(w) && w.pc.Parked? && !Finished(w) && !Won(w.wakers, w.pc.race) && Hooked(w.wakers, w.pc.race)
    ensures var n := RunStep(w, m);
      && n.pc == w.pc
      && (forall s: Source :: Waker(w.pc.race, s) in n.wakers.resolved <==> s in WokenBy(w, m))
      && (forall s: Source :: Waker(w.pc.race, s) in n.wakers.listeners <==> s !in WokenBy(w, m))
      && (Won(n.wakers, w.pc.race) <==> WokenBy(w, m) != {})
  {
    var n := RunStep(w, m);
    if m.TasksMove? { TaskStepQuiet(w, m.task); MoveAdvances(w.tasks, m.task); }
    hide Move;
    forall s: Source
      ensures Waker(w.pc.race, s) in n.wakers.resolved <==> s in WokenBy(w, m)
      ensures Waker(w.pc.race, s) in n.wakers.listeners <==> s !in WokenBy(w, m)
    {
      assert Waker(w.pc.race, s) !in w.wakers.resolved;
    }
    if s :| s in WokenBy(w, m) { assert Waker(w.pc.race, s) in n.wakers.resolved; }
  }

  /** A run that is not parked has no waker left at any source or signal, and no promise of
      an earlier park is still open. */
  lemma NoWakerLeaks(config: Config, moves: seq<RunMove>)
    requires !ExecRun(config, moves).pc.Parked?
    ensures var k := ExecRun(config, moves).wakers;
      && k.steer == {} && k.note == {} && k.task == {} && k.listeners == {}
      && (forall race: nat, s: Source :: race < k.races ==> Waker(race, s) in k.resolved)
  {
    ExecKeepsInv(config, moves);
    var k := ExecRun(config, moves).wakers;
    hide ExecRun;
    forall race: nat, s: Source | race < k.races ensures Waker(race, s) in k.resolved {
      assert Waker(race, s).race < k.races;
    }
  }

  /** Resuming hands the queues to the history, steers first, and leaves no waker of the old
      race behind, even when the loop parks again at once. */
  lemma ResumeCleansUp(config: Config, moves: seq<RunMove>)
    requires ExecRun(config, moves).pc.Parked? && Won(ExecRun(config, moves).wakers, ExecRun(config, moves).pc.race)
    ensures var w, n := ExecRun(config, moves), ExecRun(config, moves + [WakeUp]);
      && (forall s: Source :: Waker(w.pc.race, s) in n.wakers.resolved && Waker(w.pc.race, s) !in n.wakers.listeners)
      && (n.pc.Parked? ==> n.pc.race == w.pc.race + 1 && n.pc.since == w.tasks.changes && !Won(n.wakers, n.pc.race))
      && (if w.handle.aborted then
            && n.llm == w.llm
            && n.handle.finished.Some? && n.handle.finished.value.result == CancelledRun
          else
            && n.llm == w.llm + SteerMessages(w.handle.steers) + NoteMessages(w.inbox)
            && n.handle.steers == [] && n.inbox == [])
  {
    hide ExecRun;
    hide AgentInv;
    ExecKeepsInv(config, moves);
    ExecKeepsInv(config, moves + [WakeUp]);
    ExecOne(config, moves, WakeUp);
    var w, n := ExecRun(config, moves), ExecRun(config, moves + [WakeUp]);
    InvWakers(w);
    InvWakers(n);
    ResumedTop(w.(wakers := EndRace(w.wakers, w.pc.race)));
    hide TopOfLoop;
    OldRaceIsOver(n.wakers, w.pc.race);
    hide WakersOk;
  }

  lemma InvWakers(w: World)
    requires AgentInv(w)
    ensures WakersOk(w.wakers)
    ensures w.pc.Parked? ==>
      !Finished(w) && w.pc.race + 1 == w.wakers.races && OnlyRace(w.wakers, w.pc.race) &&
        (Won(w.wakers, w.pc.race) <==> Awake(w, w.pc.since))
    ensures !w.pc.Parked? ==> w.wakers.listeners == {}
  {
    hide WakersOk;
    hide Won;
    hide HistoryOk;
    hide GateOk;
  }

  /** Once no waker of `race` is out, all its promises have resolved. */
  lemma OldRaceIsOver(k: Wakers, race: nat)
    requires WakersOk(k) && race < k.races && forall w :: w in k.listeners ==> w.race != race
    ensures forall s: Source :: Waker(race, s) in k.resolved && Waker(race, s) !in k.listeners
  {
    forall s: Source ensures Waker(race, s) in k.resolved && Waker(race, s) !in k.listeners {
      assert Waker(race, s).race < k.races;
    }
  }

  lemma ResumedTop(w: World)
    requires !Finished(w)
    ensures var n := TopOfLoop(w);
      && n.wakers.races >= w.wakers.races
      && (n.pc.Parked? ==>
            && n.pc.race == w.wakers.races && n.pc.since == n.tasks.changes == w.tasks.changes
            && n.handle.steers == [] && n.inbox == [] && !n.handle.aborted)
      && (if w.handle.aborted then
            && n.llm == w.llm
            && n.handle.finished.Some? && n.handle.finished.value.result == CancelledRun
          else
            && n.llm == w.llm + SteerMessages(w.handle.steers) + NoteMessages(w.inbox)
            && n.handle.steers == [] && n.inbox == [])
  {
  }

  /** The park is level-triggered: from any state, and for any captured count, it is over at
      once exactly if steers or notes are pending, the run is aborted, or a task went since
      the capture. */
  lemma ParkIsLevelTriggered(w: World, since: nat)
    requires WakersOk(w.wakers)
    ensures var n := Park(w, since);
      && n.pc == Parked(since, w.wakers.races) && WakersOk(n.wakers)
      && (Won(n.wakers, w.wakers.races) <==>
            w.handle.steers != [] || w.inbox != [] || w.handle.aborted || w.tasks.changes != since)
      && (Won(n.wakers, w.wakers.races) || Hooked(n.wakers, w.wakers.races))
  {
    var steers, notes := w.handle.steers != [] || w.handle.aborted, w.inbox != [] || w.handle.aborted;
    var changed := w.tasks.changes != since || w.handle.aborted;
    RaceKeeps(w.wakers, steers, notes, changed);
    RaceStarts(w.wakers, steers, notes, changed);
    hide WakersOk;
    hide Won;
    hide StartRace;
  }

  // ----- progress --------------------------------------------------------------------------------------

  /** A move of the loop itself, of its turn or of its batch. */
  predicate LoopMove(m: RunMove) {
    m.WakeUp? || m.TurnMove? || m.HookReturnsMove? || m.BatchesMove? || m.BatchContinuesMove?
  }

  ghost predicate Enabled(w: World, m: RunMove) {
    LoopMove(m) && RunStep(w, m).pc != w.pc
  }

  function OfTasks(ms: seq<TaskMove>): (moves: seq<RunMove>)
    ensures |moves| == |ms| && forall i :: 0 <= i < |ms| ==> moves[i] == TasksMove(ms[i])
  {
    seq(|ms|, i requires 0 <= i < |ms| => TasksMove(ms[i]))
  }

  /** A run never gets stuck: until it has finished some move of the loop is enabled. Only a
      parked loop nobody has woken needs more, and then at most two moves of an open task
      wake it. */
  lemma RunNeverSticks(config: Config, moves: seq<RunMove>) returns (ms: seq<TaskMove>, m: RunMove)
    requires !Finished(ExecRun(config, moves))
    ensures Enabled(ExecRun(config, moves + OfTasks(ms)), m)
    ensures var w := ExecRun(config, moves);
      if w.pc.Parked? && !Won(w.wakers, w.pc.race) then 1 <= |ms| <= 2 && w.tasks.entries != [] else ms == []
  {
    hide RunStep;
    hide Enabled;
    hide Won;
    ExecKeepsInv(config, moves);
    var w := ExecRun(config, moves);
    if w.pc.Parked? && !Won(w.wakers, w.pc.race) {
      ms := OpenTaskWakes(config, moves);
      ExecKeepsInv(config, moves + OfTasks(ms));
      m := WonParkResumes(ExecRun(config, moves + OfTasks(ms)));
    } else {
      ms := [];
      assert moves + OfTasks([]) == moves;
      m := SomeLoopMove(w);
    }
  }

  lemma WonParkResumes(w: World) returns (m: RunMove)
    requires AgentInv(w) && w.pc.Parked? && Won(w.wakers, w.pc.race)
    ensures Enabled(w, m)
  {
    m := WakeUp;
    LiveUnlessDone(w);
    ResumedTop(w.(wakers := EndRace(w.wakers, w.pc.race)));
    TopPc(w.(wakers := EndRace(w.wakers, w.pc.race)));
    hide TopOfLoop;
  }

  lemma BatchMoves(w: World) returns (m: RunMove)
    requires AgentInv(w) && w.pc.InBatch?
    ensures Enabled(w, m)
  {
    var s := BatchState(w.pc.batch, w.handle.aborted);
    var bm := NextMove(s);
    m := BatchesMove(bm);
    BatchMovesOn(w, bm);
  }

  lemma BatchMovesOn(w: World, bm: BatchMove)
    requires w.pc.InBatch? && Proceeds(BatchState(w.pc.batch, w.handle.aborted), bm)
    ensures RunStep(w, BatchesMove(bm)).pc != w.pc
  {
    hide Advance;
    hide GateEffects;
    assert Advance(w.pc.batch, bm, w.handle.aborted, GateOpen(w)).batch != w.pc.batch;
  }

  lemma TurnArrivesNext(w: World)
    requires w.pc.Streaming?
    ensures Enabled(w, TurnMove("", [], NO_USAGE))
  {
    TurnPc(w, "", [], NO_USAGE);
    hide TurnArrives;
  }

  lemma HookReturnsNext(w: World)
    requires w.pc.RestHook? || w.pc.CallsHook?
    ensures Enabled(w, HookReturnsMove)
  {
    TopPc(w);
    hide TopOfLoop;
  }

  lemma BatchContinuesNext(w: World)
    requires w.pc.BatchReturned?
    ensures Enabled(w, BatchContinuesMove)
  {
    BatchContinuesPc(w, w.pc.calls, w.pc.results);
    hide BatchContinues;
  }

  lemma SomeLoopMove(w: World) returns (m: RunMove)
    requires AgentInv(w) && !Finished(w) && (w.pc.Parked? ==> Won(w.wakers, w.pc.race))
    ensures Enabled(w, m)
  {
    hide AgentInv;
    hide Enabled;
    hide Won;
    NotDone(w);
    match w.pc {
      case Parked(_, _) => m := WonParkResumes(w);
      case Streaming => m := TurnMove("", [], NO_USAGE); TurnArrivesNext(w);
      case RestHook => m := HookReturnsMove; HookReturnsNext(w);
      case CallsHook(_) => m := HookReturnsMove; HookReturnsNext(w);
      case InBatch(_) => m := BatchMoves(w);
      case BatchReturned(_, _) => m := BatchContinuesMove; BatchContinuesNext(w);
      case Done => assert false;
    }
  }

  lemma NotDone(w: World)
    requires AgentInv(w) && !Finished(w)
    ensures !w.pc.Done?
  {
    hide HistoryOk;
    hide GateOk;
    hide RegistryInv;
  }

  /** The first open task settles after at most two moves of its own. */
  lemma FirstTaskSettles(r: Registry) returns (ms: seq<TaskMove>)
    requires r.entries != []
    ensures if |ms| == 1 then |Move(r, ms[0]).registry.settled| > |r.settled|
            else |ms| == 2 && Move(r, ms[0]).registry.settled == r.settled
                 && |Move(Move(r, ms[0]).registry, ms[1]).registry.settled| > |r.settled|
  {
    var e := r.entries[0];
    assert FindId(r.entries, e.id) == 0;
    match e.stage {
      case Completing(_) => ms := [CompletionDone(e.id)];
      case Active => ms := BeginsFirst(r, TaskDone(e.id, TaskOutcome(TaskSuccess, "")), TaskOutcome(TaskSuccess, ""));
      case TearingDown(pending) => ms := BeginsFirst(r, TeardownDone(e.id), pending);
    }
  }

  lemma BeginsFirst(r: Registry, m: TaskMove, outcome: TaskOutcome) returns (ms: seq<TaskMove>)
    requires r.entries != [] && FindId(r.entries, r.entries[0].id) == 0
    requires Move(r, m) == BeginComplete(r, 0, outcome)
    ensures if |ms| == 1 then |Move(r, ms[0]).registry.settled| > |r.settled|
            else |ms| == 2 && Move(r, ms[0]).registry.settled == r.settled
                 && |Move(Move(r, ms[0]).registry, ms[1]).registry.settled| > |r.settled|
  {
    if r.entries[0].silent {
      ms := [m];
    } else {
      var n := Move(r, m).registry;
      ms := [m, CompletionDone(r.entries[0].id)];
      assert n.entries[0].id == r.entries[0].id && n.entries[0].stage == Completing(outcome);
      assert FindId(n.entries, n.entries[0].id) == 0;
    }
  }

  lemma OpenTaskWakes(config: Config, moves: seq<RunMove>) returns (ms: seq<TaskMove>)
    requires ExecRun(config, moves).pc.Parked? && !Won(ExecRun(config, moves).wakers, ExecRun(config, moves).pc.race)
    ensures 1 <= |ms| <= 2 && ExecRun(config, moves).tasks.entries != []
    ensures var w, n := ExecRun(config, moves), ExecRun(config, moves + OfTasks(ms));
      n.pc == w.pc && Won(n.wakers, n.pc.race)
  {
    hide ExecRun;
    hide RunStep;
    hide Move;
    hide Won;
    NoLostWakeUp(config, moves);
    var w := ExecRun(config, moves);
    ms := FirstTaskSettles(w.tasks);
    EverySourceWakes(config, moves, TasksMove(ms[0]));
    if |ms| == 1 {
      assert OfTasks(ms) == [TasksMove(ms[0])];
    } else {
      var next := moves + [TasksMove(ms[0])];
      ExecOne(config, moves, TasksMove(ms[0]));
      MovesTask(w, ms[0]);
      EverySourceWakes(config, next, TasksMove(ms[1]));
      assert moves + OfTasks(ms) == next + [TasksMove(ms[1])];
    }
  }

  lemma MovesTask(w: World, m: TaskMove)
    ensures RunStep(w, TasksMove(m)).tasks == Move(w.tasks, m).registry
  {
  }

  // ----- history and budget ---------------------------------------------------------------------------

  /** In every request sent to the provider each assistant message with tool uses is followed
      at once by one message answering exactly those, in order; there are never more
      requests than turns allowed, nor committed turns, and the usage is the sum over these. */
  lemma RequestsAreAnswered(config: Config, moves: seq<RunMove>)
    ensures var w := ExecRun(config, moves);
      && (forall i :: 0 <= i < |w.ledger.requests| ==> History(w.ledger.requests[i]))
      && |w.ledger.requests| <= config.maxTurns && w.turns <= config.maxTurns
      && w.turns == TurnCount(w.llm) == |w.ledger.usages| && w.usage == SumUsage(w.ledger.usages)
  {
    ExecKeepsInv(config, moves);
    ConfigStays(config, moves);
    hide ExecRun;
    hide History;
  }

  // ----- tasks and events ---------------------------------------------------------------------------------

  /** Sequence numbers are dense, the finish is reported exactly once, and after it the log
      holds only settled tasks; the registry is disposed exactly when the run has finished. */
  lemma EventsAreOrdered(config: Config, moves: seq<RunMove>)
    ensures var w := ExecRun(config, moves);
      && (forall i :: 0 <= i < |w.handle.events| ==> w.handle.events[i].sequence == i)
      && (w.handle.finished.None? ==> forall i :: 0 <= i < |w.handle.events| ==> !IsFinish(w.handle.events[i]))
      && (w.handle.finished.Some? ==> exists at :: EndsAt(w.handle.events, at))
      && (w.tasks.disposed.Some? <==> w.handle.finished.Some?)
  {
    ExecKeepsInv(config, moves);
    hide ExecRun;
    hide EndsAt;
  }

  /** Open tags are unique; each task settles at most once and its handler runs at most
      once; adopted minus settled is the registry's size, settled is the change counter;
      after the finish nothing is adopted and everything still open is settling. */
  lemma TaskLifecycleHolds(config: Config, moves: seq<RunMove>, m: TaskMove)
    ensures var w := ExecRun(config, moves);
      var r := w.tasks;
      && DistinctTags(r.entries) && Distinct(r.settled) && Distinct(r.handled)
      && |r.registered| - |r.settled| == |r.entries| && r.changes == |r.settled|
      && (w.handle.finished.Some? ==>
            (forall i :: 0 <= i < |r.entries| ==> Settling(r.entries[i])) &&
              Move(r, m).registry.registered == r.registered)
  {
    ExecKeepsInv(config, moves);
    MoveAdvances(ExecRun(config, moves).tasks, m);
    hide ExecRun;
    hide Move;
  }
}
