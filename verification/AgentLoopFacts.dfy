/** What the loop's stretches and the moves of the outside do to a run, in the form the loop
    object needs it: the new state spelled out, and what a caller may rely on afterwards. */
module AgentLoopFacts {
  import opened Text
  import opened Notifications
  import opened RunHistory
  import opened TaskRegistry
  import opened ToolBatch
  import opened RunEvents
  import opened Wakeups
  import opened AgentRun
  import opened AgentRunInvariant
  import opened AgentRunDelivery
  import opened AgentRunParking
  import opened AgentRunCommit
  import opened AgentRunOutcome
  import opened AgentRunTheorems

  lemma FireNone(k: Wakers)
    ensures Fire(k, {}) == k
  {
  }

  lemma TurnIsTaken(w: World)
    requires HandleOk(w) && w.handle.finished.None?
    ensures HandleOk(TakeTurn(w))
    ensures w.turns < w.config.maxTurns ==> HandleInv(w.handle)
  {
    TakeTurnIsOk(w);
  }

  lemma DrainIsOk(w: World)
    requires HandleOk(w) && w.handle.finished.None?
    ensures HandleOk(DrainAll(w))
  {
    hide RegistryInv;
  }

  lemma CommitOnly(w: World, text: string, calls: seq<Call>, usage: Usage)
    ensures var c := CommitTurn(w, text, calls, usage);
      c == w.(llm := c.llm, turns := c.turns, usage := c.usage, ledger := c.ledger)
  {
  }

  lemma ParkIsOk(w: World, since: nat)
    requires HandleOk(w) && w.handle.finished.None?
    ensures HandleOk(AgentRun.Park(w, since))
  {
    LivePc(w);
    SameHandleIsOk(w, AgentRun.Park(w, since));
  }

  lemma LivePc(w: World)
    requires HandleOk(w) && w.handle.finished.None?
    ensures !w.pc.Done?
  {
  }

  lemma SameHandleIsOk(w: World, n: World)
    requires HandleOk(w) && n.handle == w.handle && n.tasks == w.tasks && (n.pc.Done? <==> w.pc.Done?)
    ensures HandleOk(n)
  {
  }

  // ----- what the loop's caller may rely on ------------------------------------------------------

  /** A completed outcome: in a text run the last turn's text, with everything accepted
      delivered and nothing open; else the one accepted submission. */
  ghost predicate OutcomeHolds(w: World) {
    Finished(w) && w.handle.finished.value.result.Completed? ==>
      var value := w.handle.finished.value.result.value;
      if TextMode(w) then
        w.inbox == [] && w.tasks.entries == [] && Steers(w.llm) == w.ledger.steered &&
          LastTurn(w.llm) == Some(Assistant(value, []))
      else w.ledger.accepts == [value] && Steers(w.llm) + w.ledger.gap == w.ledger.steered
  }

  /** The loop's top: an aborted run is cancelled; any other has handed both queues to the
      history, steers first, and if it parks, it waits on every source with a task open. */
  ghost predicate AfterTop(w: World, n: World) {
    && (if w.handle.aborted then
          n.llm == w.llm && Finished(n) && n.handle.finished.value.result == CancelledRun
        else
          && n.llm == w.llm + SteerMessages(w.handle.steers) + NoteMessages(w.inbox)
          && n.handle.steers == [] && n.inbox == [])
    && (n.pc.Done? || n.pc.Streaming? || (n.pc.Parked? && Hooked(n.wakers, n.pc.race) && n.tasks.entries != []))
  }

  lemma InvMeans(w: World)
    requires AgentInv(w)
    ensures HandleOk(w) && HandleInv(w.handle) && WakersOk(w.wakers) && OutcomeHolds(w)
    ensures w.handle.finished.Some? <==> w.pc.Done?
    ensures w.wakers.steer <= w.wakers.listeners && w.wakers.note <= w.wakers.listeners &&
        w.wakers.task <= w.wakers.listeners
  {
    SourcesListen(w.wakers);
    hide WakersOk;
    hide HandleInv;
    hide RegistryInv;
    hide LastTurn;
    assert Steers(w.llm) + [] + w.ledger.dropped == Steers(w.llm) + w.ledger.dropped;
    assert Steers(w.llm) + [] == Steers(w.llm);
    if Finished(w) { FinishedQueue(w.handle); }
  }

  lemma FinishedQueue(h: Handle)
    requires HandleInv(h) && h.finished.Some?
    ensures h.steers == []
  {
  }

  lemma TopMeans(w: World, n: World)
    requires !Finished(w) && n == TopOfLoop(w) && AgentInv(n)
    ensures AfterTop(w, n)
  {
    ResumedTop(w);
    TopPc(w);
    hide TopOfLoop;
    if n.pc.Parked? && !Won(n.wakers, n.pc.race) { UnwonIsHooked(n.wakers, n.pc.race); }
    hide WakersOk;
  }

  lemma RaceIsOver(w: World, n: World)
    requires AgentInv(w) && w.pc.Parked? && n == Resume(w, w.pc.race) && AgentInv(n) && !Finished(w)
    ensures forall s: Source :: Waker(w.pc.race, s) !in n.wakers.listeners && Waker(w.pc.race, s) in n.wakers.resolved
  {
    ResumedTop(w.(wakers := EndRace(w.wakers, w.pc.race)));
    hide TopOfLoop;
    forall s: Source ensures Waker(w.pc.race, s) in n.wakers.resolved && Waker(w.pc.race, s) !in n.wakers.listeners {
      assert Waker(w.pc.race, s).race < n.wakers.races;
    }
  }

  lemma CallsStart(w: World, calls: seq<Call>)
    requires PcHistory(w) && w.pc == CallsHook(calls)
    ensures Open(w.llm, calls)
    ensures RunStep(w, HookReturnsMove) == w.(pc := InBatch(StartBatch(calls, w.config.terminalName)))
  {
    hide Open;
    hide StartBatch;
  }

  lemma InvHistory(w: World)
    requires AgentInv(w)
    ensures PcHistory(w)
  {
  }

  lemma TurnMeans(w: World, text: string, calls: seq<Call>, usage: Usage)
    requires !Finished(w) && PcHistory(TurnArrives(w, text, calls, usage))
    ensures var n := TurnArrives(w, text, calls, usage);
      && (if calls == [] then History(n.llm) else Open(n.llm, calls))
      && (Finished(n) <==> TextMode(w) && calls == [] && ExitGate(w))
      && (Finished(n) ==> n.handle.finished.value.result == Completed(text))
  {
    hide History;
    hide Open;
    hide BatchInv;
  }

  lemma FinishReports(w: World, result: Result)
    requires !Finished(w)
    ensures Finished(FinishWith(w, result)) && FinishWith(w, result).handle.finished.value.result == result
  {
  }

  lemma ContinueMeans(w: World, n: World)
    requires w.pc.BatchReturned? && n == BatchContinues(w, w.pc.calls, w.pc.results) && PcHistory(n)
    ensures History(n.llm)
  {
    BatchContinuesPc(w, w.pc.calls, w.pc.results);
    hide BatchContinues;
    hide History;
  }

  // ----- a submission's steps -------------------------------------------------------------------

  predicate AtPhase(pc: Pc, phase: Phase) {
    pc.InBatch? && AtTerminal(pc.batch) && pc.batch.phase == phase
  }

  predicate Returned(pc: Pc, result: CallResult) {
    AtPhase(pc, Returning(result))
  }

  predicate Refuses(pc: Pc, reason: string) {
    pc.InBatch? && AtTerminal(pc.batch) && pc.batch.phase == Returning(Refused(TerminalId(pc.batch), reason))
  }

  function PhaseAfter(b: Batch, refused: Option<string>, next: Phase): Phase
    requires AtTerminal(b)
  {
    if refused.Some? then Returning(Refused(TerminalId(b), refused.value)) else next
  }

  /** A batch out, with a submission at hand. */
  ghost predicate Submission(w: World) {
    && w.pc.InBatch? && BatchInv(w.pc.batch, w.handle.aborted) && !w.pc.batch.over && !w.pc.batch.phase.Idle?
    && AtTerminal(w.pc.batch) && w.handle.finished.None?
  }

  function GateRefusal(w: World, denied: Option<string>): Option<string> {
    if denied.Some? then denied else if GateOpen(w) then None else Some(SUBMISSION_DENIED)
  }

  ghost function PastGate(w: World, denied: Option<string>): World
    requires Submission(w)
  {
    var refused := GateRefusal(w, denied);
    w.(pc := InBatch(w.pc.batch.(phase := PhaseAfter(w.pc.batch, refused, PostHook))),
       ledger := if refused.None? then w.ledger.(gap := []) else w.ledger)
  }

  ghost function PastHooks(w: World, denied: Option<string>): World
    requires Submission(w)
  {
    var moved := w.(pc := InBatch(w.pc.batch.(phase := PhaseAfter(w.pc.batch, denied, Submitting))));
    if denied.Some? then moved else moved.(submitting := true, handle := w.handle.(finishing := true))
  }

  ghost function PastHost(w: World, v: Verdict): World
    requires Submission(w)
  {
    var moved := w.(pc := InBatch(w.pc.batch.(phase := Returning(VerdictResult(TerminalId(w.pc.batch), v)))));
    if v.Accepts? then moved.(accepted := Some(v.value), ledger := w.ledger.(accepts := w.ledger.accepts + [v.value]))
    else moved.(submitting := false, handle := RunEvents.CancelFinishing(w.handle))
  }

  lemma SubmissionIsLive(w: World)
    requires AgentInv(w) && w.pc.InBatch? && !w.pc.batch.phase.Idle?
    ensures Submission(w) && HandleOk(w)
  {
    BatchIsLive(w);
    hide HandleOk;
    hide HistoryOk;
    hide WakeOk;
    hide TextOk;
    hide GateOk;
  }

  lemma NoEvents(h: Handle)
    ensures EmitAll(h, ToolEvents([])) == h
  {
    assert ToolEvents([]) == [];
  }

  lemma PreHookMeans(w: World, denied: Option<string>)
    requires AgentInv(w) && AtPhase(w.pc, PreHook)
    ensures Submission(w) && HandleOk(RunStep(w, BatchesMove(PreHookReturn(denied))))
    ensures var n, refused := RunStep(w, BatchesMove(PreHookReturn(denied))), GateRefusal(w, denied);
      && n == PastGate(w, denied) && n.ledger.published == w.ledger.published
      && (if refused.Some? then Refuses(n.pc, refused.value) && !AtPhase(n.pc, PostHook)
          else AtPhase(n.pc, PostHook) && ExitGate(n) && n.ledger.accepts == [] && n.ledger.gap == [])
  {
    hide HandleOk;
    hide AgentInv;
    hide BatchInv;
    hide RunStep;
    SubmissionIsLive(w);
    PreHookGate(w);
    StepIsOk(w, BatchesMove(PreHookReturn(denied)));
    PreHookStep(w, denied);
  }

  lemma PreHookStep(w: World, denied: Option<string>)
    requires Submission(w) && AtPhase(w.pc, PreHook)
    ensures RunStep(w, BatchesMove(PreHookReturn(denied))) == PastGate(w, denied)
  {
    NoEvents(w.handle);
    hide BatchInv;
    hide ExitGate;
  }

  lemma PreHookGate(w: World)
    requires AgentInv(w) && AtPhase(w.pc, PreHook)
    ensures GateOpen(w) ==> w.ledger.accepts == []
  {
    hide HandleOk;
    hide HistoryOk;
    hide BatchInv;
    hide WakeOk;
    hide TextOk;
    LiveUnlessDone(w);
  }

  lemma PostHookMeans(w: World, denied: Option<string>)
    requires AgentInv(w) && AtPhase(w.pc, PostHook)
    ensures Submission(w) && HandleOk(RunStep(w, BatchesMove(PostHookReturn(denied))))
    ensures var n := RunStep(w, BatchesMove(PostHookReturn(denied)));
      && n == PastHooks(w, denied) && n.ledger == w.ledger
      && (if denied.Some? then Refuses(n.pc, denied.value) && TakesSteers(n.handle)
          else AtPhase(n.pc, Submitting) && !TakesSteers(n.handle))
  {
    hide HandleOk;
    hide AgentInv;
    hide BatchInv;
    hide RunStep;
    SubmissionIsLive(w);
    NotSubmitting(w);
    StepIsOk(w, BatchesMove(PostHookReturn(denied)));
    PostHookStep(w, denied);
  }

  lemma PostHookStep(w: World, denied: Option<string>)
    requires Submission(w) && AtPhase(w.pc, PostHook)
    ensures RunStep(w, BatchesMove(PostHookReturn(denied))) == PastHooks(w, denied)
  {
    NoEvents(w.handle);
    NoEvents(w.handle.(finishing := true));
    hide BatchInv;
    hide GateOpen;
  }

  lemma NotSubmitting(w: World)
    requires AgentInv(w) && AtPhase(w.pc, PostHook)
    ensures TakesSteers(w.handle)
  {
    hide HandleOk;
    hide HistoryOk;
    hide BatchInv;
    hide WakeOk;
    hide TextOk;
    LiveUnlessDone(w);
  }

  lemma VerdictMeans(w: World, v: Verdict)
    requires AgentInv(w) && AtPhase(w.pc, Submitting)
    ensures Submission(w) && HandleOk(RunStep(w, BatchesMove(VerdictReturn(v))))
    ensures var n, result := RunStep(w, BatchesMove(VerdictReturn(v))), VerdictResult(TerminalId(w.pc.batch), v);
      && n == PastHost(w, v) && n.ledger.published == w.ledger.published
      && result.id == TerminalId(w.pc.batch) && (result.isTerminal <==> v.Accepts?) && Returned(n.pc, result)
      && (if v.Accepts? then n.ledger.accepts == [v.value] && n.accepted == Some(v.value) && !TakesSteers(n.handle)
          else n.ledger.accepts == [] && TakesSteers(n.handle))
  {
    hide HandleOk;
    hide AgentInv;
    hide BatchInv;
    hide RunStep;
    SubmissionIsLive(w);
    AtHost(w);
    StepIsOk(w, BatchesMove(VerdictReturn(v)));
    VerdictStep(w, v);
  }

  lemma VerdictStep(w: World, v: Verdict)
    requires Submission(w) && AtPhase(w.pc, Submitting)
    ensures RunStep(w, BatchesMove(VerdictReturn(v))) == PastHost(w, v)
  {
    NoEvents(w.handle);
    NoEvents(RunEvents.CancelFinishing(w.handle));
    hide BatchInv;
    hide VerdictResult;
    hide GateOpen;
  }

  lemma AtHost(w: World)
    requires AgentInv(w) && AtPhase(w.pc, Submitting)
    ensures w.ledger.accepts == [] && w.handle.finishing
  {
    hide HandleOk;
    hide HistoryOk;
    hide BatchInv;
    hide WakeOk;
    hide TextOk;
    LiveUnlessDone(w);
  }

  // ----- the executor's steps -------------------------------------------------------------------

  lemma BatchIsLive(w: World)
    requires AgentInv(w) && w.pc.InBatch?
    ensures BatchInv(w.pc.batch, w.handle.aborted) && !w.pc.batch.over && w.handle.finished.None?
    ensures |w.pc.batch.settled| == |w.pc.batch.calls| && w.pc.batch.tnext <= |w.pc.batch.terminal|
    ensures w.pc.batch.cursor <= |w.pc.batch.ordinary|
  {
    LiveUnlessDone(w);
    hide HandleOk;
    hide HistoryOk;
    hide WakeOk;
    hide TextOk;
  }

  lemma PickAdvances(b: Batch, l: nat, aborted: bool, gateOpen: bool)
    requires BatchInv(b, aborted) && !b.over && l < |b.lanes| && b.lanes[l].Ready?
    ensures Advance(b, LanePick(l), aborted, gateOpen) == Pick(b, l, aborted)
    ensures var n := Pick(b, l, aborted).batch; !n.over && |n.lanes| == |b.lanes| && n.ordinary == b.ordinary
    ensures Pick(b, l, aborted).batch.lanes[l].Ended? <==> b.cursor == |b.ordinary| || aborted
  {
    if b.cursor < |b.ordinary| { assert b.ordinary[b.cursor] in b.ordinary; }
  }

  lemma ReturnAdvances(b: Batch, l: nat, content: string, isError: bool, aborted: bool, gateOpen: bool)
    requires BatchInv(b, aborted) && !b.over && l < |b.lanes| && b.lanes[l].Busy?
    ensures Advance(b, LaneReturn(l, content, isError), aborted, gateOpen) == Return(b, l, content, isError, aborted)
    ensures var n := Return(b, l, content, isError, aborted).batch; !n.over && |n.lanes| == |b.lanes|
    ensures Return(b, l, content, isError, aborted).batch.lanes[l].Ended? <==> aborted
  {
    assert b.lanes[l].call in b.ordinary;
  }

  lemma ReleaseAdvances(b: Batch, aborted: bool, gateOpen: bool)
    requires !b.over && (aborted || AllEnded(b.lanes))
    ensures Advance(b, Release, aborted, gateOpen) == Stay(b.(released := true))
  {
  }

  lemma StartAdvances(b: Batch, valid: bool, refusal: string, aborted: bool, gateOpen: bool)
    requires BatchInv(b, aborted) && !b.over && b.released && b.phase.Idle?
    ensures Advance(b, TerminalPick(valid, refusal), aborted, gateOpen) == StartTerminal(b, valid, refusal, aborted)
    ensures var n := StartTerminal(b, valid, refusal, aborted).batch;
      n.terminal == b.terminal && |n.settled| == |n.calls|
    ensures StartTerminal(b, valid, refusal, aborted).batch.over <==> b.tnext >= |b.terminal| || aborted
  {
    if b.tnext < |b.terminal| { assert b.terminal[b.tnext] in b.terminal; }
  }

  lemma FinishAdvances(b: Batch, aborted: bool, gateOpen: bool)
    requires BatchInv(b, aborted) && !b.over && b.phase.Returning?
    ensures AtTerminal(b) && Advance(b, DispatchReturn, aborted, gateOpen) == FinishTerminal(b, b.phase.result, aborted)
    ensures var n := FinishTerminal(b, b.phase.result, aborted).batch; |n.settled| == |n.calls|
    ensures FinishTerminal(b, b.phase.result, aborted).batch.over <==> aborted
  {
  }

  lemma StillLinked(b: Batch)
    ensures AfterBatch(b).InBatch? ==> AfterBatch(b) == InBatch(b)
  {
  }

  lemma RelayMeans(w: World, m: BatchMove)
    requires w.pc.InBatch? && !m.PreHookReturn? && !m.PostHookReturn? && !m.VerdictReturn?
    ensures var s := Advance(w.pc.batch, m, w.handle.aborted, GateOpen(w));
      RunStep(w, BatchesMove(m)) == w.(handle := EmitAll(w.handle, ToolEvents(s.events)), pc := AfterBatch(s.batch))
  {
    hide Advance;
    hide AtTerminal;
    hide GateOpen;
    hide AfterBatch;
  }

  // ----- what the outside may rely on -----------------------------------------------------------

  ghost predicate PendingNote(entries: seq<Note>, message: string, key: Option<string>) {
    exists x :: 0 <= x < |entries| && entries[x].message == message && entries[x].key == key
  }

  lemma QueuedIsPending(entries: seq<Note>, note: Note)
    ensures PendingNote(Queue(entries, note), note.message, note.key)
  {
    var at := PendingIndex(entries, note.key);
    assert Queue(entries, note)[at] == note;
  }

  /** A parked loop to which something came up is due to resume. */
  lemma ParkedIsWon(n: World)
    requires AgentInv(n)
    ensures n.pc.Parked? && Awake(n, n.pc.since) ==> Won(n.wakers, n.pc.race)
  {
    hide WakersOk;
    hide Won;
  }

  function SteerNoted(w: World, text: string): Ledger {
    w.ledger.(steered := w.ledger.steered + [text], gap := if InGap(w.pc) then w.ledger.gap + [text] else w.ledger.gap)
  }

  lemma SteerMeans(w: World, text: string)
    requires AgentInv(w) && AgentInv(RunStep(w, SteerMove(text)))
    ensures var n := RunStep(w, SteerMove(text));
      && n == SteerRun(w, text) && HandleOk(n) && WakersOk(w.wakers) && w.wakers.steer <= w.wakers.listeners &&
        n.ledger.published == w.ledger.published
      && (TakesSteers(w.handle) ==>
            && n.handle.steers == w.handle.steers + [text] && n.ledger.steered == w.ledger.steered + [text]
            && (w.pc.Parked? ==> Won(n.wakers, w.pc.race)))
      && (!TakesSteers(w.handle) ==> n == w)
  {
    InvMeans(w);
    ParkedIsWon(RunStep(w, SteerMove(text)));
    hide HandleOk;
    hide WakersOk;
    hide Won;
    hide Fire;
  }

  lemma PublishMeans(w: World, message: string, key: Option<string>)
    requires AgentInv(w) && AgentInv(RunStep(w, PublishMove(message, key)))
    ensures var n := RunStep(w, PublishMove(message, key));
      var note := Note(message, key, |w.ledger.published|, w.window);
      && n == PublishNote(w, message, key) &&
        n.ledger.published == w.ledger.published + (if Finished(w) then [] else [note])
      && HandleOk(n) && WakersOk(w.wakers) && w.wakers.note <= w.wakers.listeners
      && (w.handle.finished.None? ==>
            && n.inbox == Queue(w.inbox, note)
            && (w.pc.Parked? ==> Won(n.wakers, w.pc.race)))
      && (w.handle.finished.Some? ==> n == w)
  {
    InvMeans(w);
    ParkedIsWon(RunStep(w, PublishMove(message, key)));
    QueuedIsPending(w.inbox, Note(message, key, |w.ledger.published|, w.window));
    hide HandleOk;
    hide WakersOk;
    hide Won;
    hide Fire;
  }

  lemma InterruptMeans(w: World)
    requires AgentInv(w) && AgentInv(RunStep(w, InterruptMove))
    ensures var n := RunStep(w, InterruptMove);
      && n == AgentRun.InterruptRun(w) && HandleOk(n) && WakersOk(w.wakers) && n.ledger == w.ledger
      && (w.handle.finished.None? ==>
            && n.handle == w.handle.(aborted := true)
            && n.wakers.listeners == {}
            && (w.pc.Parked? ==> Won(n.wakers, w.pc.race)))
      && (w.handle.finished.Some? ==> n == w)
  {
    InvMeans(w);
    ParkedIsWon(RunStep(w, InterruptMove));
    hide HandleOk;
    hide WakersOk;
    hide Won;
  }

  lemma TaskMeans(w: World, m: TaskMove)
    requires AgentInv(w) && AgentInv(RunStep(w, TasksMove(m)))
    ensures var n, moved := RunStep(w, TasksMove(m)), Move(w.tasks, m);
      && HandleOk(n) && WakersOk(w.wakers) && w.wakers.task <= w.wakers.listeners
      && |moved.events| <= 1
      && n == w.(tasks := moved.registry,
                 handle := if moved.events == [] then w.handle else Emit(w.handle, TaskLifecycle(moved.events[0])),
                 wakers := if moved.registry.changes != w.tasks.changes then Fire(w.wakers, w.wakers.task)
                   else w.wakers)
      && (moved.events != [] ==> MayEmit(w.handle, TaskLifecycle(moved.events[0])))
      && (|moved.registry.settled| > |w.tasks.settled| && w.pc.Parked? ==> Won(n.wakers, w.pc.race))
  {
    hide AgentInv;
    hide HandleOk;
    hide WakersOk;
    hide Move;
    hide Won;
    hide Fire;
    hide TaskStep;
    InvMeans(w);
    InvMeans(RunStep(w, TasksMove(m)));
    TaskStepIs(w, m);
    MoveAdvances(w.tasks, m);
    ParkedIsWon(TaskStep(w, m));
    WakeBound(w);
    FinishedIsDisposed(w);
  }

  lemma TaskStepIs(w: World, m: TaskMove)
    ensures var n, moved := TaskStep(w, m), Move(w.tasks, m);
      && |moved.events| <= 1
      && n == w.(tasks := moved.registry,
                 handle := if moved.events == [] then w.handle else Emit(w.handle, TaskLifecycle(moved.events[0])),
                 wakers := if moved.registry.changes != w.tasks.changes then Fire(w.wakers, w.wakers.task)
                   else w.wakers)
  {
    AtMostOneEvent(w.tasks, m);
    hide Move;
    hide Fire;
    var events := Move(w.tasks, m).events;
    if events == [] { assert TaskEvents(events) == []; }
    else { OneEvent(w.handle, TaskLifecycle(events[0])); assert TaskEvents(events) == [TaskLifecycle(events[0])]; }
  }

  lemma WakeBound(w: World)
    requires AgentInv(w)
    ensures w.pc.Parked? ==> w.tasks.changes >= w.pc.since
  {
  }

  lemma FinishedIsDisposed(w: World)
    requires AgentInv(w)
    ensures Finished(w) <==> w.tasks.disposed.Some?
  {
  }

  lemma OneEvent(h: Handle, body: EventBody)
    ensures EmitAll(h, [body]) == Emit(h, body)
  {
    assert [body][1..] == [];
  }

  lemma AtMostOneEvent(r: Registry, m: TaskMove)
    ensures |Move(r, m).events| <= 1
  {
  }
}
