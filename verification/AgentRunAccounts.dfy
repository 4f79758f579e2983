/** What a run holds is what came in. */
module AgentRunAccounts {
  import opened Text
  import opened Notifications
  import opened RunHistory
  import opened TaskRegistry
  import opened ToolBatch
  import opened RunEvents
  import opened Wakeups
  import opened AgentRun
  import opened AgentRunInvariant
  import opened AgentRunDelivery
  import opened AgentRunTheorems

  // Each list is read off the moves themselves, in the order they came, and compared with
  // what the run recorded.

  // ----- the history, message by message ---------------------------------------------------

  /** What the move itself adds to the history. */
  function Said(w: World, m: RunMove): seq<Message> {
    match m
    case TurnMove(text, calls, _) => if w.pc.Streaming? then [Assistant(text, calls)] else []
    case BatchContinuesMove =>
      if w.pc.BatchReturned? then [ToolResults(NormalizeBatch(w.pc.calls, w.pc.results))] else []
    case _ => []
  }

  function Queued(w: World): seq<Message> {
    SteerMessages(w.handle.steers) + NoteMessages(w.inbox)
  }

  /** `n` is `h`, or `h` with everything queued in `w`, steers first. */
  predicate AppendsQueued(w: World, h: seq<Message>, n: seq<Message>) {
    n == h || n == h + Queued(w)
  }

  lemma TopAppends(w: World)
    ensures AppendsQueued(w, w.llm, TopOfLoop(w).llm)
  {
    assert w.llm + SteerMessages(w.handle.steers) + NoteMessages(w.inbox) == w.llm + Queued(w);
  }

  /** The history only grows: by the turn or the answers that came, and then by what was
      queued. */
  lemma StepAppends(w: World, m: RunMove)
    ensures AppendsQueued(w, w.llm + Said(w, m), RunStep(w, m).llm)
  {
    hide TopOfLoop;
    hide Queued;
    assert w.llm + [] == w.llm;
    match m {
      case SteerMove(text) =>
      case PublishMove(message, key) =>
      case InterruptMove =>
      case TasksMove(task) => TaskStepQuiet(w, task);
      case WakeUp =>
        if w.pc.Parked? {
          TopAppends(w.(wakers := EndRace(w.wakers, w.pc.race)));
          SameQueued(w, w.(wakers := EndRace(w.wakers, w.pc.race)));
        }
      case StreamMove(delta) =>
      case TurnMove(text, calls, usage) =>
      case TurnFailsMove(error) =>
      case HookReturnsMove => if w.pc.RestHook? { TopAppends(w); }
      case BatchesMove(bm) => if w.pc.InBatch? { BatchStepQuiet(w, w.pc.batch, bm); }
      case BatchContinuesMove =>
        if w.pc.BatchReturned? {
          var c := w.(llm := w.llm + Said(w, m));
          TopAppends(c);
          SameQueued(w, c);
        }
    }
  }

  lemma SameQueued(w: World, c: World)
    requires c.handle.steers == w.handle.steers && c.inbox == w.inbox
    ensures Queued(c) == Queued(w)
  {
  }

  // ----- what came in -----------------------------------------------------------------------------

  /** The steers that came while the run took them. */
  ghost function SteersTaken(config: Config, moves: seq<RunMove>): seq<string> {
    if moves == [] then []
    else
      var front, m := moves[..|moves| - 1], moves[|moves| - 1];
      var h := ExecRun(config, front).handle;
      SteersTaken(config, front) + (if m.SteerMove? && !h.finishing && h.finished.None? then [m.text] else [])
  }

  datatype Publish = Publish(message: string, key: Option<string>)

  /** The publishes that came before the finish. */
  ghost function PublishesTaken(config: Config, moves: seq<RunMove>): seq<Publish> {
    if moves == [] then []
    else
      var front, m := moves[..|moves| - 1], moves[|moves| - 1];
      PublishesTaken(config, front) +
        (if m.PublishMove? && !Finished(ExecRun(config, front)) then [Publish(m.message, m.key)] else [])
  }

  datatype Turn = Turn(text: string, calls: seq<Call>)

  /** The turns that came while a request was out. */
  ghost function TurnsTaken(config: Config, moves: seq<RunMove>): seq<Turn> {
    if moves == [] then []
    else
      var front, m := moves[..|moves| - 1], moves[|moves| - 1];
      TurnsTaken(config, front) +
        (if m.TurnMove? && ExecRun(config, front).pc.Streaming? then [Turn(m.text, m.calls)] else [])
  }

  ghost function UsagesTaken(config: Config, moves: seq<RunMove>): seq<Usage> {
    if moves == [] then []
    else
      var front, m := moves[..|moves| - 1], moves[|moves| - 1];
      UsagesTaken(config, front) + (if m.TurnMove? && ExecRun(config, front).pc.Streaming? then [m.usage] else [])
  }

  predicate WithHost(pc: Pc) {
    pc.InBatch? && AtTerminal(pc.batch) && !pc.batch.over && pc.batch.phase.Submitting?
  }

  /** The values that the host accepted when it was asked. */
  ghost function ValuesTaken(config: Config, moves: seq<RunMove>): seq<string> {
    if moves == [] then []
    else
      var front, m := moves[..|moves| - 1], moves[|moves| - 1];
      ValuesTaken(config, front) +
        (if WithHost(ExecRun(config, front).pc) && m.BatchesMove? && m.batch.VerdictReturn? && m.batch.verdict.Accepts?
         then [m.batch.verdict.value] else [])
  }

  // ----- what the run holds --------------------------------------------------------------------------

  function Turns(h: seq<Message>): seq<Turn> {
    if h == [] then []
    else
      var last := h[|h| - 1];
      Turns(h[..|h| - 1]) + (if last.Assistant? then [Turn(last.text, last.calls)] else [])
  }

  lemma {:induction false} TurnsAppendOn(a: seq<Message>, b: seq<Message>)
    ensures Turns(a + b) == Turns(a) + Turns(b)
    decreases |b|
  {
    if b == [] {
      assert a + b == a;
    } else {
      LastOfBoth(a, b);
      TurnsAppendOn(a, b[..|b| - 1]);
    }
  }

  lemma {:induction false} NoTurns(h: seq<Message>)
    requires forall i :: 0 <= i < |h| ==> !h[i].Assistant?
    ensures Turns(h) == []
  {
    if h != [] { NoTurns(h[..|h| - 1]); }
  }

  lemma QueuedHasNoTurns(w: World)
    ensures Turns(Queued(w)) == []
  {
    NoTurns(Queued(w));
  }

  /** What the move brings to the ledger. */
  predicate LedgerTells(w: World, m: RunMove, l: Ledger) {
    && l.usages == w.ledger.usages + (if m.TurnMove? && w.pc.Streaming? then [m.usage] else [])
    && l.steered == w.ledger.steered +
         (if m.SteerMove? && !w.handle.finishing && w.handle.finished.None? then [m.text] else [])
    && (if m.PublishMove? && !Finished(w)
        then |l.published| == |w.ledger.published| + 1 && w.ledger.published < l.published &&
             PublishIs(l.published[|w.ledger.published|], m.message, m.key)
        else l.published == w.ledger.published)
    && l.accepts == w.ledger.accepts +
         (if WithHost(w.pc) && m.BatchesMove? && m.batch.VerdictReturn? && m.batch.verdict.Accepts?
          then [m.batch.verdict.value] else [])
  }

  /** What the move brings to the history's turns and to the ledger. */
  ghost predicate StepTells(w: World, m: RunMove, n: World) {
    && Turns(n.llm) == Turns(w.llm) + (if m.TurnMove? && w.pc.Streaming? then [Turn(m.text, m.calls)] else [])
    && LedgerTells(w, m, n.ledger)
  }

  predicate PublishIs(note: Note, message: string, key: Option<string>) {
    note.message == message && note.key == key
  }

  lemma StepTurns(w: World, m: RunMove)
    ensures Turns(RunStep(w, m).llm) ==
            Turns(w.llm) + (if m.TurnMove? && w.pc.Streaming? then [Turn(m.text, m.calls)] else [])
  {
    StepAppends(w, m);
    hide RunStep;
    hide AppendsQueued;
    var h := w.llm + Said(w, m);
    TurnsAppendOn(w.llm, Said(w, m));
    SaidTurns(w, m);
    TurnsAppendOn(h, Queued(w));
    QueuedHasNoTurns(w);
    assert Turns(h) + [] == Turns(h);
    QueuedOrNot(w, h, RunStep(w, m).llm);
  }

  lemma QueuedOrNot(w: World, h: seq<Message>, n: seq<Message>)
    requires AppendsQueued(w, h, n)
    ensures n == h || n == h + Queued(w)
  {
  }

  lemma SaidTurns(w: World, m: RunMove)
    ensures Turns(Said(w, m)) == if m.TurnMove? && w.pc.Streaming? then [Turn(m.text, m.calls)] else []
  {
    var said := Said(w, m);
    if said != [] { assert said[..|said| - 1] == []; }
  }

  /** What the ledger says came in stays as it was. */
  predicate SameIntake(a: Ledger, b: Ledger) {
    b.usages == a.usages && b.steered == a.steered && b.published == a.published && b.accepts == a.accepts
  }

  lemma TopKeepsIntake(w: World)
    ensures SameIntake(w.ledger, TopOfLoop(w).ledger)
  {
    hide SteerMessages;
    hide NoteMessages;
  }

  lemma BatchIntake(w: World, bm: BatchMove)
    requires w.pc.InBatch?
    ensures var n := BatchStep(w, w.pc.batch, bm);
      n.ledger.accepts == w.ledger.accepts +
        (if WithHost(w.pc) && bm.VerdictReturn? && bm.verdict.Accepts? then [bm.verdict.value] else [])
      && n.ledger.usages == w.ledger.usages && n.ledger.steered == w.ledger.steered
      && n.ledger.published == w.ledger.published
  {
    hide Advance;
    hide GateOpen;
  }

  predicate BringsIntake(m: RunMove) {
    m.SteerMove? || m.PublishMove? || m.TurnMove? || m.BatchesMove?
  }

  lemma OtherIntake(w: World, m: RunMove)
    requires !BringsIntake(m)
    ensures SameIntake(w.ledger, RunStep(w, m).ledger)
  {
    hide TopOfLoop;
    hide NormalizeBatch;
    hide Move;
    hide BatchContinues;
    match m {
      case WakeUp => if w.pc.Parked? { TopKeepsIntake(w.(wakers := EndRace(w.wakers, w.pc.race))); }
      case HookReturnsMove => if w.pc.RestHook? { TopKeepsIntake(w); }
      case BatchContinuesMove =>
        if w.pc.BatchReturned? { ContinueIntake(w); }
      case _ => QuietIntake(w, m);
    }
  }

  lemma QuietIntake(w: World, m: RunMove)
    requires m.InterruptMove? || m.TasksMove? || m.StreamMove? || m.TurnFailsMove?
    ensures SameIntake(w.ledger, RunStep(w, m).ledger)
  {
    hide Move;
  }

  lemma ContinueIntake(w: World)
    requires w.pc.BatchReturned?
    ensures SameIntake(w.ledger, BatchContinues(w, w.pc.calls, w.pc.results).ledger)
  {
    TopKeepsIntake(w.(llm := w.llm + [ToolResults(NormalizeBatch(w.pc.calls, w.pc.results))]));
    hide TopOfLoop;
    hide NormalizeBatch;
  }

  lemma StepIntake(w: World, m: RunMove)
    ensures StepTells(w, m, RunStep(w, m))
  {
    StepTurns(w, m);
    if BringsIntake(m) { BroughtIntake(w, m); } else { OtherIntake(w, m); }
    hide Turns;
    hide RunStep;
  }

  lemma BroughtIntake(w: World, m: RunMove)
    requires BringsIntake(m)
    ensures LedgerTells(w, m, RunStep(w, m).ledger)
  {
    if m.BatchesMove? && w.pc.InBatch? { BatchIntake(w, m.batch); }
    if m.TurnMove? && w.pc.Streaming? { TurnIntake(w, m.text, m.calls, m.usage); }
    hide BatchStep;
    hide TurnArrives;
  }

  lemma TurnIntake(w: World, text: string, calls: seq<Call>, usage: Usage)
    ensures var l := TurnArrives(w, text, calls, usage).ledger;
      l.usages == w.ledger.usages + [usage] && l.steered == w.ledger.steered &&
      l.published == w.ledger.published && l.accepts == w.ledger.accepts
  {
    hide Dispose;
    hide ExitGate;
  }

  /** The history and the ledger are what the moves brought, in their order. */
  ghost predicate TellsMoves(config: Config, moves: seq<RunMove>) {
    var w, published := ExecRun(config, moves), PublishesTaken(config, moves);
    && Turns(w.llm) == TurnsTaken(config, moves)
    && w.ledger.steered == SteersTaken(config, moves)
    && |w.ledger.published| == |published|
    && (forall i :: 0 <= i < |published| ==>
          PublishIs(w.ledger.published[i], published[i].message, published[i].key))
    && w.ledger.usages == UsagesTaken(config, moves)
    && w.ledger.accepts == ValuesTaken(config, moves)
  }

  /** The assistant messages of the history are the turns that arrived; the steers, publishes,
      usages and accepted values that the ledger speaks of are the ones that came in. */
  lemma {:induction false} LedgerTellsMoves(config: Config, moves: seq<RunMove>)
    ensures TellsMoves(config, moves)
  {
    hide RunStep;
    hide ExecRun;
    RunUnfolds(config, moves);
    if moves == [] {
      StartTells(config);
    } else {
      var front := moves[..|moves| - 1];
      LedgerTellsMoves(config, front);
      StepIntake(ExecRun(config, front), moves[|moves| - 1]);
      MoreTaken(config, moves, ExecRun(config, front), moves[|moves| - 1]);
      hide TurnsTaken;
      hide SteersTaken;
      hide PublishesTaken;
      hide UsagesTaken;
      hide ValuesTaken;
      hide Turns;
    }
  }

  lemma MoreTaken(config: Config, moves: seq<RunMove>, w: World, m: RunMove)
    requires moves != [] && w == ExecRun(config, moves[..|moves| - 1]) && m == moves[|moves| - 1]
    ensures var front := moves[..|moves| - 1];
      && TurnsTaken(config, moves) ==
           TurnsTaken(config, front) + (if m.TurnMove? && w.pc.Streaming? then [Turn(m.text, m.calls)] else [])
      && UsagesTaken(config, moves) ==
           UsagesTaken(config, front) + (if m.TurnMove? && w.pc.Streaming? then [m.usage] else [])
      && SteersTaken(config, moves) ==
           SteersTaken(config, front) +
             (if m.SteerMove? && !w.handle.finishing && w.handle.finished.None? then [m.text] else [])
      && PublishesTaken(config, moves) ==
           PublishesTaken(config, front) +
             (if m.PublishMove? && !Finished(w) then [Publish(m.message, m.key)] else [])
      && ValuesTaken(config, moves) ==
           ValuesTaken(config, front) +
             (if WithHost(w.pc) && m.BatchesMove? && m.batch.VerdictReturn? && m.batch.verdict.Accepts?
              then [m.batch.verdict.value] else [])
  {
    hide ExecRun;
    hide WithHost;
  }

  lemma StartTells(config: Config)
    ensures var w := StartAgent(config);
      Turns(w.llm) == [] && w.ledger.steered == [] && w.ledger.published == [] && w.ledger.usages == [] &&
      w.ledger.accepts == []
  {
    var a := Assembled(config);
    TopKeepsIntake(a);
    TopAppends(a);
    NoTurns(a.llm);
    TurnsAppendOn(a.llm, Queued(a));
    QueuedHasNoTurns(a);
    hide TopOfLoop;
    hide Turns;
  }

  /** An interrupt came before the finish. */
  ghost predicate Interrupts(config: Config, moves: seq<RunMove>) {
    exists t: nat :: InterruptedAt(config, moves, t)
  }

  ghost predicate InterruptedAt(config: Config, moves: seq<RunMove>, t: nat) {
    t < |moves| && moves[t].InterruptMove? && !Finished(ExecRun(config, moves[..t]))
  }

  lemma InterruptsGrow(config: Config, moves: seq<RunMove>, m: RunMove)
    ensures Interrupts(config, moves + [m]) <==>
      Interrupts(config, moves) || (m.InterruptMove? && !Finished(ExecRun(config, moves)))
  {
    hide ExecRun;
    hide Finished;
    var all := moves + [m];
    assert all[..|moves|] == moves && all[|moves|] == m;
    forall t: nat | t < |moves| ensures InterruptedAt(config, all, t) <==> InterruptedAt(config, moves, t) {
      assert all[t] == moves[t] && all[..t] == moves[..t];
    }
    assert InterruptedAt(config, all, |moves|) <==> m.InterruptMove? && !Finished(ExecRun(config, moves));
  }

  lemma TopAborts(w: World)
    ensures TopOfLoop(w).handle.aborted == w.handle.aborted
  {
    hide SteerMessages;
    hide NoteMessages;
    hide Dispose;
  }

  lemma StepAborts(w: World, m: RunMove)
    ensures RunStep(w, m).handle.aborted <==> w.handle.aborted || (m.InterruptMove? && !Finished(w))
  {
    hide BatchStep;
    hide TaskStep;
    hide TopOfLoop;
    hide NormalizeBatch;
    hide TerminalResult;
    hide Dispose;
    match m {
      case TasksMove(task) => TaskStepQuiet(w, task);
      case WakeUp => if w.pc.Parked? { TopAborts(w.(wakers := EndRace(w.wakers, w.pc.race))); }
      case HookReturnsMove => TopAborts(w);
      case BatchesMove(bm) => if w.pc.InBatch? { BatchStepQuiet(w, w.pc.batch, bm); }
      case BatchContinuesMove =>
        if w.pc.BatchReturned? {
          TopAborts(w.(llm := w.llm + [ToolResults(NormalizeBatch(w.pc.calls, w.pc.results))]));
        }
      case _ =>
    }
  }

  /** A run is aborted exactly if it was interrupted before it finished. */
  lemma {:induction false} AbortedExactly(config: Config, moves: seq<RunMove>)
    ensures ExecRun(config, moves).handle.aborted <==> Interrupts(config, moves)
  {
    RunUnfolds(config, moves);
    if moves == [] {
      StartNotAborted(config);
    } else {
      hide ExecRun;
      hide RunStep;
      hide Finished;
      var front, m := moves[..|moves| - 1], moves[|moves| - 1];
      assert front + [m] == moves;
      AbortedExactly(config, front);
      InterruptsGrow(config, front, m);
      StepAborts(ExecRun(config, front), m);
      hide Interrupts;
    }
  }

  lemma StartNotAborted(config: Config)
    ensures !StartAgent(config).handle.aborted
  {
    TopAborts(Assembled(config));
    hide TopOfLoop;
  }

  // ----- the order of the notes -------------------------------------------------------------------

  /** The notes of the history and then the pending ones stand by the drain that took them,
      and for one drain in the order in which their keys were first published: a replacing
      note has the place of the one it replaced. */
  lemma NotesKeepPlaces(config: Config, moves: seq<RunMove>)
    ensures var w := ExecRun(config, moves); InOrder(w.ledger.published, Notes(w.llm) + w.inbox)
  {
    ExecKeepsInv(config, moves);
    var w := ExecRun(config, moves);
    hide ExecRun;
    hide InOrder;
    AllInOrder(w.ledger.published, Notes(w.llm), w.inbox, w.window);
  }

  // ----- the totals -----------------------------------------------------------------------------------

  function Sum(ns: seq<nat>): nat {
    if ns == [] then 0 else Sum(ns[..|ns| - 1]) + ns[|ns| - 1]
  }

  function Each(usages: seq<Usage>, field: Usage -> nat): (ns: seq<nat>)
    ensures |ns| == |usages| && forall i :: 0 <= i < |usages| ==> ns[i] == field(usages[i])
  {
    seq(|usages|, i requires 0 <= i < |usages| => field(usages[i]))
  }

  lemma {:induction false} SumsUp(usages: seq<Usage>)
    ensures var total := SumUsage(usages);
      && total.input == Sum(Each(usages, (u: Usage) => u.input))
      && total.output == Sum(Each(usages, (u: Usage) => u.output))
      && total.cacheRead == Sum(Each(usages, (u: Usage) => u.cacheRead))
      && total.cacheCreation == Sum(Each(usages, (u: Usage) => u.cacheCreation))
  {
    if usages != [] {
      var front := usages[..|usages| - 1];
      SumsUp(front);
      EachFront(usages, (u: Usage) => u.input);
      EachFront(usages, (u: Usage) => u.output);
      EachFront(usages, (u: Usage) => u.cacheRead);
      EachFront(usages, (u: Usage) => u.cacheCreation);
    }
  }

  lemma EachFront(usages: seq<Usage>, field: Usage -> nat)
    requires usages != []
    ensures var n := |usages| - 1;
      Each(usages, field)[..n] == Each(usages[..n], field) && Each(usages, field)[n] == field(usages[n])
  {
  }

  /** Each part of the reported usage is the sum of that part over the turns that arrived. */
  lemma UsageIsTheSum(config: Config, moves: seq<RunMove>)
    ensures var total, usages := ExecRun(config, moves).usage, UsagesTaken(config, moves);
      && total.input == Sum(Each(usages, (u: Usage) => u.input))
      && total.output == Sum(Each(usages, (u: Usage) => u.output))
      && total.cacheRead == Sum(Each(usages, (u: Usage) => u.cacheRead))
      && total.cacheCreation == Sum(Each(usages, (u: Usage) => u.cacheCreation))
  {
    hide ExecRun;
    hide UsagesTaken;
    ExecKeepsInv(config, moves);
    LedgerTellsMoves(config, moves);
    SumsUp(UsagesTaken(config, moves));
  }
}
