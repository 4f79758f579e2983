/** One agent run as a state machine. Every stretch of code between two awaits is one step;
    the environment decides which step comes next and with what: model turns, steers,
    publishes, task endings, interrupts, hook decisions and submission verdicts. */
module AgentRun {
  import opened Text
  import opened Notifications
  import opened RunHistory
  import opened TaskRegistry
  import opened ToolBatch
  import opened RunEvents
  import opened Wakeups

  /** What the loop awaits; a parked one awaits its race, and knows the change count that
      was captured for it. */
  datatype Pc =
    | Parked(since: nat, race: nat)
    | Streaming
    | RestHook
    | CallsHook(calls: seq<Call>)
    | InBatch(batch: Batch)
    | BatchReturned(calls: seq<Call>, results: seq<CallResult>)
    | Done

  /** What a run is started with; a terminal tool makes submissions its only way to
      complete. */
  datatype Config = Config(terminalName: Option<string>, maxTurns: nat, initial: seq<string>)

  /** Facts the statements below speak of: accepted steers, publishes, values `onSubmit`
      accepted, the requests sent to the provider, the usage of each committed turn, the
      steers that arrived between the gate and the latch, and those a finish threw away. */
  datatype Ledger = Ledger(
    steered: seq<string>,
    published: seq<Note>,
    accepts: seq<string>,
    requests: seq<seq<Message>>,
    usages: seq<Usage>,
    gap: seq<string>,
    dropped: seq<string>)

  datatype World = World(
    config: Config,
    handle: Handle,
    inbox: seq<Note>,
    window: nat,
    tasks: Registry,
    wakers: Wakers,
    llm: seq<Message>,
    pc: Pc,
    turns: nat,
    usage: Usage,
    pendingText: Option<string>,
    atRest: bool,
    submitting: bool,
    accepted: Option<string>,
    ledger: Ledger)

  const RUN_FINISHED_DISPOSE_REASON := "run finished"
  const TERMINAL_WITHOUT_SUBMISSION := "terminal result without an accepted submission"

  predicate TextMode(w: World) { w.config.terminalName.None? }

  // ----- finishing ------------------------------------------------------------------------

  /** The atomic finish and the run-end disposal that follows it at once. */
  function FinishWith(w: World, result: Result): World {
    w.(handle := Finish(w.handle, AgentOutcome(w.usage, w.turns, result)),
       tasks := Dispose(w.tasks, RUN_FINISHED_DISPOSE_REASON),
       ledger := w.ledger.(dropped := w.ledger.dropped + w.handle.steers),
       pc := Done)
  }

  datatype TurnError = ProviderError(message: string) | OtherError(message: string)

  function ClassifyLoopError(error: TurnError, aborted: bool): Result {
    if aborted then CancelledRun
    else
      match error
      case ProviderError(m) => FailedRun(ProviderFailure(m))
      case OtherError(m) => FailedRun(InternalFailure(m))
  }

  // ----- the loop's stretches ----------------------------------------------------------------

  /** Steers first, then notes, into the history. */
  function DrainAll(w: World): World {
    w.(llm := w.llm + SteerMessages(w.handle.steers) + NoteMessages(w.inbox),
       handle := w.handle.(steers := []),
       inbox := [],
       window := w.window + 1)
  }

  function OpenedTurn(w: World): World {
    w.(atRest := false, pendingText := None,
       handle := Emit(w.handle, TurnStarted(w.turns + 1)),
       ledger := w.ledger.(requests := w.ledger.requests + [w.llm]),
       pc := Streaming)
  }

  function TakeTurn(w: World): World {
    if w.turns >= w.config.maxTurns then FinishWith(w, FailedRun(MaxTurnsSpent)) else OpenedTurn(w)
  }

  /** The race of the three waits; `since` is the change count captured at the loop's top. */
  function Park(w: World, since: nat): World {
    w.(wakers := StartRace(w.wakers, w.handle.steers != [] || w.handle.aborted, w.inbox != [] || w.handle.aborted,
                           w.tasks.changes != since || w.handle.aborted),
       pc := Parked(since, w.wakers.races))
  }

  function RestStep(w: World, since: nat): World {
    if w.tasks.entries != [] then Park(w, since)
    else if TextMode(w) && w.pendingText.Some? then FinishWith(w, Completed(w.pendingText.value))
    else TakeTurn(w)
  }

  /** From the top of the loop to its next await. */
  function TopOfLoop(w: World): World {
    if w.handle.aborted then FinishWith(w, CancelledRun)
    else
      var since, d := w.tasks.changes, DrainAll(w);
      if w.atRest && w.handle.steers == [] && w.inbox == [] then RestStep(d, since) else TakeTurn(d)
  }

  predicate ExitGate(w: World) {
    w.handle.steers == [] && w.tasks.entries == [] && w.inbox == []
  }

  function CommitTurn(w: World, text: string, calls: seq<Call>, usage: Usage): World {
    w.(llm := w.llm + [Assistant(text, calls)], turns := w.turns + 1, usage := AddUsage(w.usage, usage),
       ledger := w.ledger.(usages := w.ledger.usages + [usage]))
  }

  function TurnArrives(w: World, text: string, calls: seq<Call>, usage: Usage): World {
    var c := CommitTurn(w, text, calls, usage);
    if calls != [] then c.(pc := CallsHook(calls))
    else if TextMode(w) && ExitGate(w) then FinishWith(c, Completed(text))
    else c.(pendingText := if TextMode(w) then Some(text) else None, atRest := true, pc := RestHook)
  }

  function TerminalResult(results: seq<CallResult>): bool {
    exists i :: 0 <= i < |results| && results[i].isTerminal
  }

  function BatchContinues(w: World, calls: seq<Call>, results: seq<CallResult>): World {
    var answers := NormalizeBatch(calls, results);
    var c := w.(llm := w.llm + [ToolResults(answers)]);
    if TerminalResult(answers) then
      var taken := c.(accepted := None);
      if c.config.terminalName.Some? && c.accepted.Some? then FinishWith(taken, Completed(c.accepted.value))
      else FinishWith(taken, FailedRun(InternalFailure(TERMINAL_WITHOUT_SUBMISSION)))
    else if c.handle.aborted then FinishWith(c, CancelledRun)
    else TopOfLoop(c)
  }

  // ----- the batch, and the submission gate around it --------------------------------------------

  predicate GateOpen(w: World) {
    ExitGate(w) && !w.submitting
  }

  /** What a batch move does to the gate, the latch and the accepted submission. */
  ghost function GateEffects(w: World, b: Batch, m: BatchMove): World {
    if !AtTerminal(b) || b.over then w
    else
      match m
      case PreHookReturn(denied) => if b.phase.PreHook? && denied.None? && GateOpen(w)
        then w.(ledger := w.ledger.(gap := [])) else w
      case PostHookReturn(denied) =>
        if b.phase.PostHook? && denied.None? then w.(submitting := true, handle := w.handle.(finishing := true)) else w
      case VerdictReturn(v) =>
        if !b.phase.Submitting? then w
        else if v.Accepts? then w.(accepted := Some(v.value),
          ledger := w.ledger.(accepts := w.ledger.accepts + [v.value]))
        else w.(submitting := false, handle := CancelFinishing(w.handle))
      case _ => w
  }

  function ToolEvents(events: seq<BatchEvent>): (bodies: seq<EventBody>)
    ensures |bodies| == |events| && forall i :: 0 <= i < |events| ==> bodies[i] == ToolEvent(events[i])
  {
    seq(|events|, i requires 0 <= i < |events| => ToolEvent(events[i]))
  }

  ghost function AfterBatch(b: Batch): Pc {
    if b.over && |b.settled| == |b.calls| then BatchReturned(b.calls, Results(b)) else InBatch(b)
  }

  ghost function BatchStep(w: World, b: Batch, m: BatchMove): World {
    var s := Advance(b, m, w.handle.aborted, GateOpen(w));
    var g := GateEffects(w, b, m);
    g.(handle := EmitAll(g.handle, ToolEvents(s.events)), pc := AfterBatch(s.batch))
  }

  // ----- the environment -----------------------------------------------------------------------

  predicate InGap(pc: Pc) {
    pc.InBatch? && pc.batch.phase.PostHook?
  }

  function SteerRun(w: World, text: string): World {
    if !TakesSteers(w.handle) then w
    else
      w.(handle := Steer(w.handle, text), wakers := Fire(w.wakers, w.wakers.steer),
         ledger := w.ledger.(steered := w.ledger.steered + [text],
                             gap := if InGap(w.pc) then w.ledger.gap + [text] else w.ledger.gap))
  }

  function PublishNote(w: World, message: string, key: Option<string>): World {
    if w.handle.finished.Some? then w
    else
      var note := Note(message, key, |w.ledger.published|, w.window);
      w.(inbox := Queue(w.inbox, note), wakers := Fire(w.wakers, w.wakers.note),
         ledger := w.ledger.(published := w.ledger.published + [note]))
  }

  /** The run's abort reaches every signal that hangs on it. */
  function InterruptRun(w: World): World {
    if w.handle.finished.Some? then w
    else w.(handle := Interrupt(w.handle), wakers := Fire(w.wakers, w.wakers.listeners))
  }

  function TaskEvents(events: seq<TaskEvent>): (bodies: seq<EventBody>)
    ensures |bodies| == |events| && forall i :: 0 <= i < |events| ==> bodies[i] == TaskLifecycle(events[i])
  {
    seq(|events|, i requires 0 <= i < |events| => TaskLifecycle(events[i]))
  }

  function TaskStep(w: World, m: TaskMove): World {
    var moved := Move(w.tasks, m);
    w.(tasks := moved.registry, handle := EmitAll(w.handle, TaskEvents(moved.events)),
       wakers := if moved.registry.changes != w.tasks.changes then Fire(w.wakers, w.wakers.task) else w.wakers)
  }

  /** The race is over: its signal aborts, and the loop goes back to its top. */
  function Resume(w: World, race: nat): World {
    TopOfLoop(w.(wakers := EndRace(w.wakers, race)))
  }

  datatype RunMove =
    | SteerMove(text: string)
    | PublishMove(message: string, key: Option<string>)
    | InterruptMove
    | TasksMove(task: TaskMove)
    | WakeUp
    | StreamMove(delta: string)
    | TurnMove(text: string, calls: seq<Call>, usage: Usage)
    | TurnFailsMove(error: TurnError)
    | HookReturnsMove
    | BatchesMove(batch: BatchMove)
    | BatchContinuesMove

  /** One step; a move the run is not waiting for changes nothing. */
  ghost function RunStep(w: World, m: RunMove): World {
    match m
    case SteerMove(text) => SteerRun(w, text)
    case PublishMove(message, key) => PublishNote(w, message, key)
    case InterruptMove => InterruptRun(w)
    case TasksMove(task) => TaskStep(w, task)
    case WakeUp => if w.pc.Parked? && Won(w.wakers, w.pc.race) then Resume(w, w.pc.race) else w
    case StreamMove(delta) => if w.pc.Streaming? then w.(handle := Emit(w.handle, StreamDelta(delta))) else w
    case TurnMove(text, calls, usage) => if w.pc.Streaming? then TurnArrives(w, text, calls, usage) else w
    case TurnFailsMove(error) => if w.pc.Streaming? then FinishWith(w, ClassifyLoopError(error, w.handle.aborted))
      else w
    case HookReturnsMove =>
      if w.pc.RestHook? then TopOfLoop(w)
      else if w.pc.CallsHook? then w.(pc := InBatch(StartBatch(w.pc.calls, w.config.terminalName)))
      else w
    case BatchesMove(bm) => if w.pc.InBatch? then BatchStep(w, w.pc.batch, bm) else w
    case BatchContinuesMove => if w.pc.BatchReturned? then BatchContinues(w, w.pc.calls, w.pc.results) else w
  }

  /** A run before its loop starts; its top comes next, as after a boundary hook. */
  function Assembled(config: Config): World {
    World(config, Emit(NEW_HANDLE, RunStarted), [], 0, NO_TASKS, NO_WAKERS, InitialMessages(config.initial),
          RestHook, 0, NO_USAGE, None, false, false, None, Ledger([], [], [], [], [], [], []))
  }

  /** Started, and run up to the loop's first await. */
  function StartAgent(config: Config): World {
    TopOfLoop(Assembled(config))
  }

  /** The run after any interleaving of moves: played from its start, one move after the
      other, as `RunUnfolds` says in one equation. */
  ghost function ExecRun(config: Config, moves: seq<RunMove>): World
    decreases |moves|, 2
  {
    PlayedRun(config, moves)
  }

  ghost function PlayedRun(config: Config, moves: seq<RunMove>): World
    decreases |moves|, 1
  {
    StartedOrMoved(config, moves)
  }

  ghost function StartedOrMoved(config: Config, moves: seq<RunMove>): World
    decreases |moves|, 0
  {
    if moves == [] then StartAgent(config)
    else RunStep(ExecRun(config, moves[..|moves| - 1]), moves[|moves| - 1])
  }

  lemma RunUnfolds(config: Config, moves: seq<RunMove>)
    ensures ExecRun(config, moves) ==
            if moves == [] then StartAgent(config)
            else RunStep(ExecRun(config, moves[..|moves| - 1]), moves[|moves| - 1])
  {
    hide StartAgent;
    hide RunStep;
    assert ExecRun(config, moves) == PlayedRun(config, moves);
    assert PlayedRun(config, moves) == StartedOrMoved(config, moves);
  }
}
