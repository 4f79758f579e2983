/** No message of a run gets lost on the way, and the history keeps its order: what every
    step keeps about steers and notes, from the queue they wait in to the place they get. */
module AgentRunDelivery {
  import opened Text
  import opened Notifications
  import opened RunHistory
  import opened TaskRegistry
  import opened ToolBatch
  import opened RunEvents
  import opened Wakeups
  import opened AgentRun
  import opened AgentRunInvariant

  // ----- steers and notes --------------------------------------------------------------------

  /** Every accepted steer is in the history, queued, or was thrown away by the finish, in
      this order; every publish is accounted for. */
  ghost predicate Delivered(w: World) {
    && Steers(w.llm) + w.handle.steers + w.ledger.dropped == w.ledger.steered
    && Accounted(w.ledger.published, Notes(w.llm), w.inbox, w.window)
    && (w.handle.finished.None? ==> w.ledger.dropped == [])
  }

  lemma DrainDelivers(w: World)
    requires Delivered(w) && w.handle.finished.None?
    ensures Delivered(DrainAll(w))
    ensures Steers(DrainAll(w).llm) == w.ledger.steered
    ensures Notes(DrainAll(w).llm) == Notes(w.llm) + w.inbox
  {
    hide Accounted;
    var a, b := SteerMessages(w.handle.steers), NoteMessages(w.inbox);
    SteerMessagesHold(w.handle.steers);
    NoteMessagesHold(w.inbox);
    HistoryHolds(w.llm, a);
    HistoryHolds(w.llm + a, b);
    hide Steers;
    hide Notes;
    hide TurnCount;
    hide SteerMessages;
    hide NoteMessages;
    DrainKeeps(w.ledger.published, Notes(w.llm), w.inbox, w.window);
    assert Notes(w.llm) + [] + w.inbox == Notes(w.llm) + w.inbox;
    assert Steers(w.llm) + w.handle.steers + [] == w.ledger.steered;
  }

  lemma FinishDelivers(w: World, result: Result)
    requires Delivered(w) && w.handle.finished.None?
    ensures Delivered(FinishWith(w, result))
  {
    hide Accounted;
    assert Steers(w.llm) + [] + w.handle.steers == Steers(w.llm) + w.handle.steers + [];
  }

  lemma TakeTurnDelivers(w: World)
    requires Delivered(w) && w.handle.finished.None?
    ensures Delivered(TakeTurn(w))
  {
    hide Accounted;
    hide FinishWith;
    FinishDelivers(w, FailedRun(MaxTurnsSpent));
  }

  lemma RestDelivers(w: World, since: nat)
    requires Delivered(w) && w.handle.finished.None?
    ensures Delivered(RestStep(w, since))
  {
    hide Accounted;
    hide FinishWith;
    hide TakeTurn;
    TakeTurnDelivers(w);
    if w.pendingText.Some? { FinishDelivers(w, Completed(w.pendingText.value)); }
  }

  lemma TopDelivers(w: World)
    requires Delivered(w) && w.handle.finished.None?
    ensures Delivered(TopOfLoop(w))
  {
    hide Delivered;
    hide FinishWith;
    hide TakeTurn;
    hide RestStep;
    FinishDelivers(w, CancelledRun);
    DrainDelivers(w);
    DrainKeepsRest(w);
    hide DrainAll;
    TakeTurnDelivers(DrainAll(w));
    RestDelivers(DrainAll(w), w.tasks.changes);
  }

  lemma OtherMessage(h: seq<Message>, m: Message)
    requires !m.Steered? && !m.Notified?
    ensures Steers(h + [m]) == Steers(h) && Notes(h + [m]) == Notes(h)
  {
    assert (h + [m])[..|h|] == h;
  }

  /** `n` is `w` with one more message that is neither a steer nor a note. */
  lemma OtherDelivers(w: World, n: World, m: Message)
    requires Delivered(w) && w.handle.finished.None? && !m.Steered? && !m.Notified?
    requires n.llm == w.llm + [m] && n.inbox == w.inbox && n.window == w.window && n.handle == w.handle
    requires n.ledger.steered == w.ledger.steered && n.ledger.published == w.ledger.published &&
        n.ledger.dropped == w.ledger.dropped
    ensures Delivered(n)
  {
    OtherMessage(w.llm, m);
    hide Accounted;
  }

  lemma TurnDelivers(w: World, text: string, calls: seq<Call>, usage: Usage)
    requires Delivered(w) && w.handle.finished.None?
    ensures Delivered(TurnArrives(w, text, calls, usage))
  {
    var c := CommitTurn(w, text, calls, usage);
    OtherDelivers(w, c, Assistant(text, calls));
    hide Delivered;
    hide ExitGate;
    if calls == [] && TextMode(w) && ExitGate(w) {
      FinishDelivers(c, Completed(text));
    } else {
      QuietDelivers(c, TurnArrives(w, text, calls, usage));
    }
  }

  lemma BatchContinuesDelivers(w: World, calls: seq<Call>, results: seq<CallResult>)
    requires Delivered(w) && w.handle.finished.None?
    ensures Delivered(BatchContinues(w, calls, results))
  {
    hide FinishWith;
    hide TopOfLoop;
    hide Delivered;
    var c := w.(llm := w.llm + [ToolResults(NormalizeBatch(calls, results))]);
    OtherDelivers(w, c, ToolResults(NormalizeBatch(calls, results)));
    TopDelivers(c);
    FinishDelivers(c, CancelledRun);
    var taken := c.(accepted := None);
    QuietDelivers(c, taken);
    FinishDelivers(taken, FailedRun(InternalFailure(TERMINAL_WITHOUT_SUBMISSION)));
    if c.accepted.Some? { FinishDelivers(taken, Completed(c.accepted.value)); }
  }

  lemma SteerDelivers(w: World, text: string)
    requires Delivered(w)
    ensures Delivered(SteerRun(w, text))
  {
    hide Accounted;
    if TakesSteers(w.handle) {
      assert Steers(w.llm) + (w.handle.steers + [text]) + [] == Steers(w.llm) + w.handle.steers + [] + [text];
    }
  }

  lemma PublishDelivers(w: World, message: string, key: Option<string>)
    requires Delivered(w)
    ensures Delivered(PublishNote(w, message, key))
  {
    hide Accounted;
    PublishKeeps(w.ledger.published, Notes(w.llm), w.inbox, w.window,
      Note(message, key, |w.ledger.published|, w.window));
  }

  /** Moves that touch neither history nor queues. */
  lemma QuietDelivers(w: World, n: World)
    requires Delivered(w) && n.llm == w.llm && n.inbox == w.inbox && n.window == w.window
    requires n.handle.steers == w.handle.steers && n.handle.finished == w.handle.finished
    requires n.ledger.steered == w.ledger.steered && n.ledger.published == w.ledger.published &&
        n.ledger.dropped == w.ledger.dropped
    ensures Delivered(n)
  {
  }

  lemma BatchStepQuiet(w: World, b: Batch, m: BatchMove)
    ensures var n := BatchStep(w, b, m);
      && n.llm == w.llm && n.inbox == w.inbox && n.window == w.window && n.tasks == w.tasks && n.config == w.config &&
        n.wakers == w.wakers
      && n.handle.steers == w.handle.steers && n.handle.finished == w.handle.finished &&
        n.handle.aborted == w.handle.aborted
      && n.ledger.steered == w.ledger.steered && n.ledger.published == w.ledger.published &&
        n.ledger.dropped == w.ledger.dropped
      && !n.pc.Parked? && !n.pc.Done?
  {
    hide Advance;
    hide AtTerminal;
    hide GateOpen;
    EmitAllOnlyEmits(GateEffects(w, b, m).handle, ToolEvents(Advance(b, m, w.handle.aborted, GateOpen(w)).events));
  }

  lemma StepDelivers(w: World, m: RunMove)
    requires HandleOk(w) && Delivered(w)
    ensures Delivered(RunStep(w, m))
  {
    hide HandleInv;
    hide RegistryInv;
    hide Delivered;
    hide TopOfLoop;
    hide TurnArrives;
    hide BatchContinues;
    hide BatchStep;
    hide TaskStep;
    hide FinishWith;
    hide SteerRun;
    hide PublishNote;
    match m {
      case SteerMove(text) => SteerDelivers(w, text);
      case PublishMove(message, key) => PublishDelivers(w, message, key);
      case InterruptMove => QuietDelivers(w, AgentRun.InterruptRun(w));
      case TasksMove(task) =>
        TaskStepQuiet(w, task);
        QuietDelivers(w, TaskStep(w, task));
      case WakeUp =>
        if w.pc.Parked? {
          QuietDelivers(w, w.(wakers := EndRace(w.wakers, w.pc.race)));
          TopDelivers(w.(wakers := EndRace(w.wakers, w.pc.race)));
        }
      case StreamMove(delta) => if w.pc.Streaming? { QuietDelivers(w, RunStep(w, m)); }
      case TurnMove(text, calls, usage) => if w.pc.Streaming? { TurnDelivers(w, text, calls, usage); }
      case TurnFailsMove(error) => if w.pc.Streaming? { FinishDelivers(w, ClassifyLoopError(error, w.handle.aborted)); }
      case HookReturnsMove =>
        if w.pc.RestHook? { TopDelivers(w); }
        else if w.pc.CallsHook? { QuietDelivers(w, RunStep(w, m)); }
      case BatchesMove(bm) =>
        if w.pc.InBatch? {
          BatchStepQuiet(w, w.pc.batch, bm);
          QuietDelivers(w, BatchStep(w, w.pc.batch, bm));
        }
      case BatchContinuesMove => if w.pc.BatchReturned? { BatchContinuesDelivers(w, w.pc.calls, w.pc.results); }
    }
  }

  // ----- the order of the history ----------------------------------------------------------------

  /** Steers before notes at every boundary; unless a turn is out, the last boundary's notes
      are behind an assistant or tool-result message. */
  ghost predicate OrderOk(w: World) {
    SteersFirst(w.llm) && (w.pc.Streaming? || w.pc.Done? || NotesParted(w.llm))
  }

  lemma TopOrders(w: World)
    requires SteersFirst(w.llm) && NotesParted(w.llm)
    ensures OrderOk(TopOfLoop(w))
  {
    DrainOrders(w.llm, w.handle.steers, w.inbox);
    hide SteersFirst;
    hide NotesParted;
    if w.handle.steers == [] && w.inbox == [] { assert w.llm + SteerMessages([]) + NoteMessages([]) == w.llm; }
  }

  lemma TurnOrders(w: World, text: string, calls: seq<Call>, usage: Usage)
    requires SteersFirst(w.llm)
    ensures OrderOk(TurnArrives(w, text, calls, usage))
  {
    MarkOrders(w.llm, Assistant(text, calls));
    hide SteersFirst;
    hide NotesParted;
  }

  lemma BatchContinuesOrders(w: World, calls: seq<Call>, results: seq<CallResult>)
    requires SteersFirst(w.llm)
    ensures OrderOk(BatchContinues(w, calls, results))
  {
    var answers := NormalizeBatch(calls, results);
    MarkOrders(w.llm, ToolResults(answers));
    TopOrders(w.(llm := w.llm + [ToolResults(answers)]));
    hide SteersFirst;
    hide NotesParted;
    hide TopOfLoop;
  }

  lemma StepOrders(w: World, m: RunMove)
    requires OrderOk(w)
    ensures OrderOk(RunStep(w, m))
  {
    hide SteersFirst;
    hide NotesParted;
    hide TopOfLoop;
    hide TurnArrives;
    hide BatchContinues;
    hide BatchStep;
    hide TaskStep;
    match m {
      case SteerMove(text) =>
      case PublishMove(message, key) =>
      case InterruptMove =>
      case TasksMove(task) => TaskStepQuiet(w, task);
      case WakeUp => if w.pc.Parked? { TopOrders(w.(wakers := EndRace(w.wakers, w.pc.race))); }
      case StreamMove(delta) =>
      case TurnMove(text, calls, usage) => TurnOrders(w, text, calls, usage);
      case TurnFailsMove(error) =>
      case HookReturnsMove => if w.pc.RestHook? { TopOrders(w); }
      case BatchesMove(bm) => if w.pc.InBatch? { BatchStepQuiet(w, w.pc.batch, bm); }
      case BatchContinuesMove => if w.pc.BatchReturned? { BatchContinuesOrders(w, w.pc.calls, w.pc.results); }
    }
  }
}
