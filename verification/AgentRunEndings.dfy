/** What a run does next, and how it ends, in terms of its history. */
module AgentRunEndings {
  import opened Text
  import opened Notifications
  import opened RunHistory
  import opened TaskRegistry
  import opened ToolBatch
  import opened RunEvents
  import opened Wakeups
  import opened AgentRun
  import opened AgentRunInvariant
  import opened AgentRunDelivery
  import opened AgentRunCommit
  import opened AgentRunTheorems
  import opened AgentRunAccounts

  // ----- resting on a text turn -------------------------------------------------------------

  /** The text of the last turn, if it made no calls and nothing but user input follows. */
  function RestText(h: seq<Message>): Option<string> {
    if h == [] then None
    else
      match h[|h| - 1]
      case Assistant(text, calls) => if calls == [] then Some(text) else None
      case ToolResults(_) => None
      case _ => RestText(h[..|h| - 1])
  }

  lemma {:induction false} InputKeepsRest(h: seq<Message>, more: seq<Message>)
    requires forall i :: 0 <= i < |more| ==> !Marks(more[i])
    ensures RestText(h + more) == RestText(h)
    decreases |more|
  {
    if more == [] {
      assert h + more == h;
    } else {
      LastOfBoth(h, more);
      InputKeepsRest(h, more[..|more| - 1]);
    }
  }

  lemma QueuedKeepsRest(w: World, h: seq<Message>)
    ensures RestText(h + Queued(w)) == RestText(h)
  {
    InputKeepsRest(h, Queued(w));
  }

  lemma MarkRests(h: seq<Message>, m: Message)
    requires Marks(m)
    ensures RestText(h + [m]) == if m.Assistant? && m.calls == [] then Some(m.text) else None
  {
    assert (h + [m])[..|h|] == h;
  }

  /** The flags of a loop at a boundary say whether the history rests. */
  predicate RestsAtBoundary(w: World) {
    (w.atRest <==> RestText(w.llm).Some?) && w.pendingText == if TextMode(w) then RestText(w.llm) else None
  }

  predicate RestOk(w: World) {
    if w.pc.RestHook? || w.pc.Parked? then RestsAtBoundary(w)
    else w.pc.Done? || (!w.atRest && w.pendingText == None)
  }

  // ----- what the loop decides ------------------------------------------------------------------

  predicate EndsWith(n: World, r: Result) {
    n.pc.Done? && n.handle.finished == Some(AgentOutcome(n.usage, n.turns, r))
  }

  /** At the top of the loop, with history `h`: an interrupted run is cancelled; a resting one
      with nothing queued waits for its tasks, or completes with its text; any other takes a
      turn, if one is left. */
  predicate TopDecides(w: World, h: seq<Message>, n: World) {
    var rests := RestText(h).Some? && w.handle.steers == [] && w.inbox == [];
    if w.handle.aborted then EndsWith(n, CancelledRun) && n.llm == h && n.ledger.requests == w.ledger.requests
    else
      && n.llm == h + Queued(w)
      && if rests && w.tasks.entries != [] then n.pc.Parked? && n.ledger.requests == w.ledger.requests
         else if rests && w.config.terminalName.None? then
           EndsWith(n, Completed(RestText(h).value)) && n.ledger.requests == w.ledger.requests
         else if w.turns == w.config.maxTurns then
           EndsWith(n, FailedRun(MaxTurnsSpent)) && n.ledger.requests == w.ledger.requests
         else n.pc.Streaming? && n.ledger.requests == w.ledger.requests + [n.llm]
  }

  lemma TurnTaken(d: World)
    requires d.turns <= d.config.maxTurns && d.handle.finished.None?
    ensures var n := TakeTurn(d);
      && n.llm == d.llm && RestOk(n)
      && if d.turns == d.config.maxTurns then
           EndsWith(n, FailedRun(MaxTurnsSpent)) && n.ledger.requests == d.ledger.requests
         else n.pc.Streaming? && n.ledger.requests == d.ledger.requests + [d.llm]
  {
    hide RestText;
    hide Dispose;
  }

  lemma RestTaken(d: World, since: nat)
    requires RestsAtBoundary(d) && RestText(d.llm).Some? && d.turns <= d.config.maxTurns && d.handle.finished.None?
    ensures var n := RestStep(d, since);
      && n.llm == d.llm && RestOk(n)
      && (d.tasks.entries != [] ==> n.pc.Parked? && n.ledger.requests == d.ledger.requests)
      && (d.tasks.entries == [] && d.config.terminalName.None? ==>
            EndsWith(n, Completed(RestText(d.llm).value)) && n.ledger.requests == d.ledger.requests)
      && (d.tasks.entries == [] && d.config.terminalName.Some? ==> n == TakeTurn(d))
  {
    TurnTaken(d);
    hide RestText;
    hide Dispose;
    hide TakeTurn;
  }

  lemma TopUnfolds(w: World)
    ensures TopOfLoop(w) ==
            if w.handle.aborted then FinishWith(w, CancelledRun)
            else if w.atRest && w.handle.steers == [] && w.inbox == [] then RestStep(DrainAll(w), w.tasks.changes)
            else TakeTurn(DrainAll(w))
  {
    hide FinishWith;
    hide RestStep;
    hide TakeTurn;
  }

  lemma DrainDoes(w: World)
    ensures var d := DrainAll(w);
      && d == w.(llm := d.llm, handle := d.handle, inbox := [], window := d.window)
      && d.handle.finished == w.handle.finished && d.llm == w.llm + Queued(w) && RestText(d.llm) == RestText(w.llm)
  {
    QueuedKeepsRest(w, w.llm);
    assert w.llm + SteerMessages(w.handle.steers) + NoteMessages(w.inbox) == w.llm + Queued(w);
    hide RestText;
  }

  lemma TopDoes(w: World)
    requires RestsAtBoundary(w) && w.turns <= w.config.maxTurns && w.handle.finished.None?
    ensures TopDecides(w, w.llm, TopOfLoop(w)) && RestOk(TopOfLoop(w))
  {
    var d := DrainAll(w);
    TopUnfolds(w);
    DrainDoes(w);
    TurnTaken(d);
    hide TopOfLoop;
    hide DrainAll;
    hide Queued;
    hide RestText;
    hide TakeTurn;
    hide RestStep;
    if w.handle.aborted { CancelsAtTop(w); }
    else if RestText(w.llm).Some? { RestTaken(d, w.tasks.changes); }
    hide FinishWith;
  }

  lemma CancelsAtTop(w: World)
    requires w.handle.finished.None?
    ensures var n := FinishWith(w, CancelledRun);
      EndsWith(n, CancelledRun) && n.llm == w.llm && n.ledger.requests == w.ledger.requests && RestOk(n)
  {
    hide Dispose;
  }

  predicate QueuesAndTasksEmpty(w: World) {
    w.handle.steers == [] && w.inbox == [] && w.tasks.entries == []
  }

  predicate Awaits(w: World, m: RunMove) {
    match m
    case TurnMove(_, _, _) => w.pc.Streaming?
    case TurnFailsMove(_) => w.pc.Streaming?
    case WakeUp => w.pc.Parked? && Won(w.wakers, w.pc.race)
    case HookReturnsMove => w.pc.RestHook? || w.pc.CallsHook?
    case BatchesMove(_) => w.pc.InBatch?
    case BatchContinuesMove => w.pc.BatchReturned?
    case _ => false
  }

  /** What the run does next: where it waits and how it ends. Only what it waits for moves it
      on; a batch only goes on or returns. */
  ghost predicate Decides(w: World, m: RunMove, n: World) {
    if !Awaits(w, m) then n.pc == w.pc && n.handle.finished == w.handle.finished && n.llm == w.llm
    else
      match m
      case TurnMove(text, calls, _) =>
        if calls != [] then n.pc == CallsHook(calls)
        else if w.config.terminalName.None? && QueuesAndTasksEmpty(w) then EndsWith(n, Completed(text))
        else n.pc == RestHook
      case TurnFailsMove(error) =>
        EndsWith(n, if w.handle.aborted then CancelledRun
                    else match error
                         case ProviderError(text) => FailedRun(ProviderFailure(text))
                         case OtherError(text) => FailedRun(InternalFailure(text)))
      case HookReturnsMove =>
        if w.pc.CallsHook? then n.pc.InBatch? && n.pc.batch.calls == w.pc.calls else TopDecides(w, w.llm, n)
      case BatchContinuesMove =>
        if ReturnsTerminal(w) then |w.ledger.accepts| == 1 && EndsWith(n, Completed(w.ledger.accepts[0]))
        else TopDecides(w, w.llm + Said(w, m), n)
      case WakeUp => TopDecides(w, w.llm, n)
      case _ => (n.pc.InBatch? || n.pc.BatchReturned?) && n.handle.finished == w.handle.finished && n.llm == w.llm
  }

  lemma TurnDoes(w: World, text: string, calls: seq<Call>, usage: Usage)
    requires w.handle.finished.None? && RestOk(w) && w.pc.Streaming?
    ensures var n := TurnArrives(w, text, calls, usage); Decides(w, TurnMove(text, calls, usage), n) && RestOk(n)
  {
    MarkRests(w.llm, Assistant(text, calls));
    hide RestText;
    hide Dispose;
  }

  lemma ContinueDoes(w: World)
    requires GateOk(w) && RestOk(w) && w.pc.BatchReturned? && w.handle.finished.None? && w.turns <= w.config.maxTurns
    ensures var n := BatchContinues(w, w.pc.calls, w.pc.results); Decides(w, BatchContinuesMove, n) && RestOk(n)
  {
    TerminalResultIsAccepted(w, w.pc.calls, w.pc.results);
    var c := w.(llm := w.llm + Said(w, BatchContinuesMove));
    MarkRests(w.llm, ToolResults(NormalizeBatch(w.pc.calls, w.pc.results)));
    TopDoes(c);
    SameQueued(w, c);
    CancelDoes(c);
    hide RestText;
    hide TopOfLoop;
    hide Dispose;
    hide TerminalResult;
    hide NormalizeBatch;
    hide Queued;
  }

  /** An interrupted top is the cancellation. */
  lemma CancelDoes(c: World)
    ensures c.handle.aborted ==> TopOfLoop(c) == FinishWith(c, CancelledRun)
  {
    hide FinishWith;
  }

  lemma WakeDoes(w: World)
    requires w.pc.Parked? && RestOk(w) && w.handle.finished.None? && w.turns <= w.config.maxTurns
    ensures var n := Resume(w, w.pc.race); TopDecides(w, w.llm, n) && RestOk(n)
  {
    var c := w.(wakers := EndRace(w.wakers, w.pc.race));
    TopDoes(c);
    SameQueued(w, c);
    hide TopOfLoop;
    hide RestText;
    hide Queued;
  }

  lemma StepDoes(w: World, m: RunMove)
    requires GateOk(w) && RestOk(w) && w.turns <= w.config.maxTurns && (w.handle.finished.Some? <==> w.pc.Done?)
    ensures Decides(w, m, RunStep(w, m)) && RestOk(RunStep(w, m))
  {
    hide TopOfLoop;
    hide TurnArrives;
    hide BatchContinues;
    hide BatchStep;
    hide TaskStep;
    hide RestText;
    hide GateOk;
    hide TopDecides;
    hide ReturnsTerminal;
    hide Dispose;
    hide Resume;
    match m {
      case TasksMove(task) => TaskStepQuiet(w, task);
      case WakeUp => if w.pc.Parked? { WakeDoes(w); }
      case TurnMove(text, calls, usage) => if w.pc.Streaming? { TurnDoes(w, text, calls, usage); }
      case HookReturnsMove => if w.pc.RestHook? { TopDoes(w); }
      case BatchesMove(bm) => if w.pc.InBatch? { BatchDoes(w, bm); }
      case BatchContinuesMove => if w.pc.BatchReturned? { ContinueDoes(w); }
      case _ =>
    }
  }

  lemma BatchDoes(w: World, bm: BatchMove)
    requires w.pc.InBatch? && RestOk(w)
    ensures var n := BatchStep(w, w.pc.batch, bm);
      RestOk(n) && n.handle.finished == w.handle.finished && n.llm == w.llm && (n.pc.InBatch? || n.pc.BatchReturned?)
  {
    BatchStepQuiet(w, w.pc.batch, bm);
    hide Advance;
    hide AtTerminal;
    hide GateOpen;
    hide RestText;
  }

  // ----- over whole runs ------------------------------------------------------------------------

  lemma {:induction false} RunRests(config: Config, moves: seq<RunMove>)
    ensures RestOk(ExecRun(config, moves))
  {
    RunUnfolds(config, moves);
    hide ExecRun;
    hide RestText;
    if moves == [] {
      var a := Assembled(config);
      InputKeepsRest([], InitialMessages(config.initial));
      assert [] + InitialMessages(config.initial) == a.llm;
      EmptyRests();
      TopDoes(a);
      hide TopOfLoop;
    } else {
      var front := moves[..|moves| - 1];
      RunRests(config, front);
      InvGates(config, front);
      StepDoes(ExecRun(config, front), moves[|moves| - 1]);
    }
  }

  lemma EmptyRests()
    ensures RestText([]) == None
  {
  }

  lemma InvGates(config: Config, moves: seq<RunMove>)
    ensures var w := ExecRun(config, moves);
      GateOk(w) && HistoryOk(w) && w.config == config && w.turns <= w.config.maxTurns &&
      (w.handle.finished.Some? <==> w.pc.Done?)
  {
    ExecKeepsInv(config, moves);
    ConfigStays(config, moves);
    hide ExecRun;
    hide GateOk;
    hide PcHistory;
    hide RequestsOk;
  }

  /** In any run, the next move decides as its history says. */
  lemma NextDecides(config: Config, moves: seq<RunMove>, m: RunMove)
    ensures Decides(ExecRun(config, moves), m, ExecRun(config, moves + [m]))
  {
    hide ExecRun;
    hide RunStep;
    hide Decides;
    hide GateOk;
    hide HistoryOk;
    RunRests(config, moves);
    InvGates(config, moves);
    ExecOne(config, moves, m);
    StepDoes(ExecRun(config, moves), m);
  }

  /** Why the run ended. */
  ghost predicate EndsFor(w: World, m: RunMove, r: Result) {
    match r
    case FailedRun(ProviderFailure(text)) =>
      w.pc.Streaming? && m == TurnFailsMove(ProviderError(text)) && !w.handle.aborted
    case FailedRun(InternalFailure(text)) =>
      w.pc.Streaming? && m == TurnFailsMove(OtherError(text)) && !w.handle.aborted
    case FailedRun(MaxTurnsSpent) =>
      w.turns == w.config.maxTurns && !w.handle.aborted && !m.TurnMove? && !m.TurnFailsMove?
    case CancelledRun => w.handle.aborted && !m.TurnMove?
    case Completed(text) =>
      if w.config.terminalName.Some? then ReturnsTerminal(w) && m.BatchContinuesMove? && w.ledger.accepts == [text]
      else if m.TurnMove? then w.pc.Streaming? && m.text == text && m.calls == [] && QueuesAndTasksEmpty(w)
      else QueuesAndTasksEmpty(w) && !w.handle.aborted && RestText(w.llm) == Some(text)
  }

  lemma EndingTells(w: World, m: RunMove, n: World)
    requires GateOk(w) && Decides(w, m, n) && (w.handle.finished.Some? <==> w.pc.Done?)
    requires !Finished(w) && Finished(n) && n.pc.Done?
    ensures n.handle.finished.value == AgentOutcome(n.usage, n.turns, n.handle.finished.value.result)
    ensures EndsFor(w, m, n.handle.finished.value.result)
  {
    TerminalNeedsTool(w);
    if m.BatchContinuesMove? && w.pc.BatchReturned? { AnswersEndRest(w, m); }
    hide GateOk;
    hide RestText;
    hide ReturnsTerminal;
    hide Said;
    hide Queued;
  }

  /** The outcome of a finished run tells why its finishing step ended it, its turns and its
      usage. */
  lemma OutcomeTells(config: Config, moves: seq<RunMove>, k: nat)
    requires FinishesAt(config, moves, k)
    ensures var before, w := ExecRun(config, moves[..k]), ExecRun(config, moves);
      && w.handle.finished.Some?
      && w.handle.finished.value == AgentOutcome(w.usage, w.turns, w.handle.finished.value.result)
      && EndsFor(before, moves[k], w.handle.finished.value.result)
  {
    hide ExecRun;
    hide EndsFor;
    hide Decides;
    hide GateOk;
    hide HistoryOk;
    assert moves[..k] + [moves[k]] == moves[..k + 1];
    assert moves[..k + 1][..k] == moves[..k];
    FinishedRunStays(config, moves, k + 1);
    NextDecides(config, moves[..k], moves[k]);
    InvGates(config, moves[..k]);
    InvGates(config, moves[..k + 1]);
    EndingTells(ExecRun(config, moves[..k]), moves[k], ExecRun(config, moves[..k + 1]));
  }

  lemma TerminalNeedsTool(w: World)
    requires GateOk(w)
    ensures ReturnsTerminal(w) ==> w.config.terminalName.Some?
  {
    if w.pc.BatchReturned? { TerminalResultIsAccepted(w, w.pc.calls, w.pc.results); }
  }

  lemma AnswersEndRest(w: World, m: RunMove)
    requires m.BatchContinuesMove? && w.pc.BatchReturned?
    ensures RestText(w.llm + Said(w, m)) == None
  {
    MarkRests(w.llm, ToolResults(NormalizeBatch(w.pc.calls, w.pc.results)));
  }

  // ----- what the provider is sent --------------------------------------------------------------

  /** Request `k` was the history of its moment: everything before turn `k`, or all of it
      while that turn has not come. */
  predicate SentAt(h: seq<Message>, request: seq<Message>, k: nat) {
    && request <= h && TurnCount(request) == k
    && if k < TurnCount(h) then |request| < |h| && h[|request|].Assistant? else request == h
  }

  ghost predicate SentOk(w: World) {
    forall k: nat :: k < |w.ledger.requests| ==> SentAt(w.llm, w.ledger.requests[k], k)
  }

  /** While a request is out, and after the end, only its turn enters the history. */
  lemma NothingQueues(w: World, m: RunMove)
    requires w.pc.Streaming? || w.pc.Done?
    ensures RunStep(w, m).llm == w.llm + Said(w, m)
  {
    assert w.llm + [] == w.llm;
    if m.TasksMove? { TaskStepQuiet(w, m.task); }
    hide TaskStep;
    hide Dispose;
    hide TopOfLoop;
  }

  /** A request keeps its place in a history that grows behind it. */
  lemma StillSent(h: seq<Message>, more: seq<Message>, request: seq<Message>, k: nat)
    requires SentAt(h, request, k) && (k < TurnCount(h) || more == [] || more[0].Assistant?)
    ensures SentAt(h + more, request, k)
  {
    TurnsAppend(h, more);
    if more == [] {
      assert h + more == h;
    } else if k == TurnCount(h) {
      TurnsAppend([more[0]], more[1..]);
      assert [more[0]] + more[1..] == more;
      assert TurnCount([more[0]]) == 1 by { assert [more[0]][..0] == []; }
    }
  }

  lemma SentNow(h: seq<Message>)
    ensures SentAt(h, h, TurnCount(h))
  {
  }

  lemma StepSends(w: World, m: RunMove, n: World)
    requires SentOk(w) && Budget(w) && Budget(n) && w.ledger.requests <= n.ledger.requests
    requires AppendsQueued(w, w.llm + Said(w, m), n.llm)
    requires w.pc.Streaming? || w.pc.Done? ==> n.llm == w.llm + Said(w, m)
    requires |n.ledger.requests| > |w.ledger.requests| ==>
      n.pc.Streaming? && n.ledger.requests == w.ledger.requests + [n.llm]
    ensures SentOk(n)
  {
    hide TurnCount;
    hide SumUsage;
    hide Queued;
    forall k: nat | k < |n.ledger.requests| ensures SentAt(n.llm, n.ledger.requests[k], k) {
      if k == |w.ledger.requests| {
        SentNow(n.llm);
      } else {
        var more := n.llm[|w.llm|..];
        assert n.llm == w.llm + more;
        assert k < TurnCount(w.llm) || more == [] || more[0].Assistant?;
        StillSent(w.llm, more, w.ledger.requests[k], k);
      }
    }
  }

  predicate AsksWith(w: World, n: World) {
    n.ledger.requests == w.ledger.requests || (n.pc.Streaming? && n.ledger.requests == w.ledger.requests + [n.llm])
  }

  lemma TopAsks(w: World)
    ensures AsksWith(w, TopOfLoop(w))
  {
    hide SteerMessages;
    hide NoteMessages;
    hide Dispose;
  }

  lemma StepAsks(w: World, m: RunMove)
    ensures AsksWith(w, RunStep(w, m))
  {
    hide TopOfLoop;
    hide BatchStep;
    hide NormalizeBatch;
    hide Dispose;
    match m {
      case TasksMove(task) =>
        hide TaskStep;
        TaskStepQuiet(w, task);
      case WakeUp => if w.pc.Parked? { TopAsks(w.(wakers := EndRace(w.wakers, w.pc.race))); }
      case HookReturnsMove => if w.pc.RestHook? { TopAsks(w); }
      case BatchesMove(bm) => if w.pc.InBatch? { BatchAsks(w, bm); }
      case BatchContinuesMove =>
        if w.pc.BatchReturned? {
          TopAsks(w.(llm := w.llm + [ToolResults(NormalizeBatch(w.pc.calls, w.pc.results))]));
        }
      case _ =>
    }
  }

  lemma BatchAsks(w: World, bm: BatchMove)
    requires w.pc.InBatch?
    ensures BatchStep(w, w.pc.batch, bm).ledger.requests == w.ledger.requests
  {
    hide Advance;
    hide GateOpen;
    hide AtTerminal;
  }

  /** Every request sent to the provider is the whole history of its moment: the one for a
      turn is everything that stands before that turn. */
  lemma {:induction false} RequestsTellHistory(config: Config, moves: seq<RunMove>)
    ensures SentOk(ExecRun(config, moves))
  {
    hide ExecRun;
    hide RunStep;
    hide HistoryOk;
    hide GateOk;
    hide AppendsQueued;
    hide SentAt;
    RunUnfolds(config, moves);
    InvGates(config, moves);
    if moves == [] {
      FirstRequest(config);
    } else {
      var front, m := moves[..|moves| - 1], moves[|moves| - 1];
      assert front + [m] == moves;
      var w := ExecRun(config, front);
      RequestsTellHistory(config, front);
      InvGates(config, front);
      StepAppends(w, m);
      StepAsks(w, m);
      if w.pc.Streaming? || w.pc.Done? { NothingQueues(w, m); }
      BudgetHolds(w);
      BudgetHolds(ExecRun(config, moves));
      StepSends(w, m, ExecRun(config, moves));
    }
  }

  lemma BudgetHolds(w: World)
    requires HistoryOk(w)
    ensures Budget(w)
  {
    hide PcHistory;
    hide Budget;
    hide RequestsOk;
  }

  lemma FirstRequest(config: Config)
    requires HistoryOk(StartAgent(config))
    ensures SentOk(StartAgent(config))
  {
    BudgetHolds(StartAgent(config));
    TopAsks(Assembled(config));
    SentNow(StartAgent(config).llm);
    hide TopOfLoop;
    hide HistoryOk;
    hide TurnCount;
  }

  /** The history starts with the messages the run was started with. */
  lemma {:induction false} InitialFirst(config: Config, moves: seq<RunMove>)
    ensures var h, n := ExecRun(config, moves).llm, |config.initial|;
      n <= |h| && (forall i :: 0 <= i < n ==> h[i] == Initial(config.initial[i])) &&
      forall i :: n <= i < |h| ==> !h[i].Initial?
  {
    RunUnfolds(config, moves);
    hide ExecRun;
    hide RunStep;
    if moves == [] {
      TopAppends(Assembled(config));
      hide TopOfLoop;
    } else {
      var front, m := moves[..|moves| - 1], moves[|moves| - 1];
      InitialFirst(config, front);
      StepAppends(ExecRun(config, front), m);
    }
  }
}
