/** Whose results a run's history holds. */
module AgentRunAnswers {
  import opened Text
  import opened Notifications
  import opened RunHistory
  import opened TaskRegistry
  import opened ToolBatch
  import opened BatchResults
  import opened RunEvents
  import opened Wakeups
  import opened AgentRun
  import opened AgentRunInvariant
  import opened AgentRunDelivery
  import opened AgentRunTheorems
  import opened AgentRunAccounts

  // An assistant message with calls is answered by the next message of the history; `x` is
  // the place of the answer.

  /** The move gave call `i` of `calls` this result: an ordinary call's tool returned it, or
      the gate gave it to a terminal call. */
  predicate GivesHere(w: World, m: RunMove, x: nat, calls: seq<Call>, i: nat, r: CallResult) {
    && m.BatchesMove? && w.pc.InBatch? && |w.llm| == x && w.pc.batch.calls == calls && i < |calls|
    && if IsTerminalCall(calls[i], w.config.terminalName) then GateGave(w.pc.batch, m.batch, GateOpen(w), i, r)
       else ToolGave(w.pc.batch, m.batch, i, r)
  }

  ghost predicate GivenAtMove(config: Config, moves: seq<RunMove>, t: nat, x: nat, calls: seq<Call>, i: nat,
      r: CallResult)
  {
    t < |moves| && GivesHere(ExecRun(config, moves[..t]), moves[t], x, calls, i, r)
  }

  ghost predicate Came(config: Config, moves: seq<RunMove>, x: nat, calls: seq<Call>, i: nat, r: CallResult) {
    exists t: nat :: GivenAtMove(config, moves, t, x, calls, i, r)
  }

  /** Given by a move, or made up because the run was interrupted. */
  ghost predicate CameOrCut(config: Config, moves: seq<RunMove>, x: nat, calls: seq<Call>, i: nat, r: CallResult) {
    && i < |calls|
    && (Came(config, moves, x, calls, i, r) ||
        (r == Interrupted(calls[i].id) && ExecRun(config, moves).handle.aborted))
  }

  lemma CameStays(config: Config, moves: seq<RunMove>, m: RunMove, x: nat, calls: seq<Call>, i: nat, r: CallResult)
    requires Came(config, moves, x, calls, i, r)
    ensures Came(config, moves + [m], x, calls, i, r)
  {
    hide GivesHere;
    hide ExecRun;
    var t: nat :| GivenAtMove(config, moves, t, x, calls, i, r);
    assert (moves + [m])[..t] == moves[..t];
    assert GivenAtMove(config, moves + [m], t, x, calls, i, r);
  }

  lemma CameNow(config: Config, moves: seq<RunMove>, m: RunMove, x: nat, calls: seq<Call>, i: nat, r: CallResult)
    requires GivesHere(ExecRun(config, moves), m, x, calls, i, r)
    ensures Came(config, moves + [m], x, calls, i, r)
  {
    hide GivesHere;
    hide ExecRun;
    assert (moves + [m])[..|moves|] == moves;
    assert GivenAtMove(config, moves + [m], |moves|, x, calls, i, r);
  }

  lemma CutStays(config: Config, moves: seq<RunMove>, m: RunMove, x: nat, calls: seq<Call>, i: nat, r: CallResult)
    requires CameOrCut(config, moves, x, calls, i, r)
    ensures CameOrCut(config, moves + [m], x, calls, i, r)
  {
    ExecOne(config, moves, m);
    AbortStays(ExecRun(config, moves), m);
    hide RunStep;
    hide ExecRun;
    if Came(config, moves, x, calls, i, r) { CameStays(config, moves, m, x, calls, i, r); }
    hide Came;
  }

  // ----- the batch at work ---------------------------------------------------------------

  /** The batch's split into ordinary and terminal calls is by the run's terminal tool. */
  predicate KindsFit(b: Batch, terminalName: Option<string>) {
    b.ordinary == Indices(b.calls, terminalName, false) && b.terminal == Indices(b.calls, terminalName, true)
  }

  /** Where the batch at work comes from. */
  ghost predicate BatchGoesOn(w: World, m: RunMove, n: World) {
    match n.pc
    case InBatch(b) =>
      || (n.pc == w.pc && n.llm == w.llm)
      || (w.pc.CallsHook? && b == StartBatch(w.pc.calls, n.config.terminalName))
      || (w.pc.InBatch? && m.BatchesMove? && n.llm == w.llm &&
          b == Advance(w.pc.batch, m.batch, w.handle.aborted, GateOpen(w)).batch)
    case BatchReturned(calls, results) =>
      || (n.pc == w.pc && n.llm == w.llm)
      || (w.pc.InBatch? && m.BatchesMove? && n.llm == w.llm &&
          var b := Advance(w.pc.batch, m.batch, w.handle.aborted, GateOpen(w)).batch;
          b.over && |b.settled| == |b.calls| && calls == b.calls && results == Results(b))
    case _ => true
  }

  predicate NotInBatch(pc: Pc) {
    !pc.InBatch? && !pc.BatchReturned?
  }

  lemma TopNotInBatch(w: World)
    ensures NotInBatch(TopOfLoop(w).pc)
  {
  }

  lemma StepGoesOn(w: World, m: RunMove)
    ensures BatchGoesOn(w, m, RunStep(w, m)) && RunStep(w, m).config == w.config
  {
    StepConfig(w, m);
    hide TopOfLoop;
    hide StartBatch;
    hide Advance;
    hide GateOpen;
    hide Results;
    match m {
      case TasksMove(task) =>
        hide TaskStep;
        TaskStepQuiet(w, task);
      case WakeUp => if w.pc.Parked? { TopNotInBatch(w.(wakers := EndRace(w.wakers, w.pc.race))); }
      case HookReturnsMove => if w.pc.RestHook? { TopNotInBatch(w); }
      case BatchesMove(bm) => if w.pc.InBatch? { BatchStepQuiet(w, w.pc.batch, bm); }
      case BatchContinuesMove => if w.pc.BatchReturned? { ContinuesNotInBatch(w); }
      case _ =>
    }
  }

  lemma ContinuesNotInBatch(w: World)
    requires w.pc.BatchReturned?
    ensures NotInBatch(BatchContinues(w, w.pc.calls, w.pc.results).pc)
  {
    hide NormalizeBatch;
    hide TerminalResult;
    hide TopOfLoop;
    TopNotInBatch(w.(llm := w.llm + [ToolResults(NormalizeBatch(w.pc.calls, w.pc.results))]));
  }

  // ----- the account ------------------------------------------------------------------------

  ghost predicate SlotsCame(config: Config, moves: seq<RunMove>, x: nat, b: Batch) {
    && KindsFit(b, config.terminalName)
    && (forall i: nat :: HasResult(b, i) ==> Came(config, moves, x, b.calls, i, b.settled[i].value))
    && (b.phase.Returning? ==>
          b.tnext < |b.terminal| && Came(config, moves, x, b.calls, b.terminal[b.tnext], b.phase.result))
  }

  ghost predicate ResultsCame(config: Config, moves: seq<RunMove>, x: nat, calls: seq<Call>, results: seq<CallResult>) {
    Answers(calls, results) && forall i: nat :: i < |calls| ==> CameOrCut(config, moves, x, calls, i, results[i])
  }

  /** The last call of `calls` with the id of call `i`. */
  predicate LastNamesake(calls: seq<Call>, i: nat, j: nat) {
    i < |calls| && i <= j < |calls| && calls[j].id == calls[i].id &&
    forall k :: j < k < |calls| ==> calls[k].id != calls[i].id
  }

  ghost predicate AnswerCame(config: Config, moves: seq<RunMove>, x: nat, calls: seq<Call>, i: nat, r: CallResult) {
    exists j: nat :: LastNamesake(calls, i, j) && CameOrCut(config, moves, x, calls, j, r)
  }

  /** The answers at `x` are those of the calls just before it. */
  ghost predicate AnswersCame(config: Config, moves: seq<RunMove>, h: seq<Message>, x: nat)
    requires x < |h| && h[x].ToolResults?
  {
    && 0 < x && h[x - 1].Assistant? && |h[x].results| == |h[x - 1].calls|
    && forall i: nat :: i < |h[x].results| ==> AnswerCame(config, moves, x, h[x - 1].calls, i, h[x].results[i])
  }

  ghost predicate PcCame(config: Config, moves: seq<RunMove>, w: World) {
    match w.pc
    case InBatch(b) => SlotsCame(config, moves, |w.llm|, b)
    case BatchReturned(calls, results) => ResultsCame(config, moves, |w.llm|, calls, results)
    case _ => true
  }

  ghost predicate AllCame(config: Config, moves: seq<RunMove>) {
    var w := ExecRun(config, moves);
    && PcCame(config, moves, w)
    && forall x: nat :: x < |w.llm| && w.llm[x].ToolResults? ==> AnswersCame(config, moves, w.llm, x)
  }

  lemma SlotsStay(config: Config, moves: seq<RunMove>, m: RunMove, x: nat, b: Batch)
    requires SlotsCame(config, moves, x, b)
    ensures SlotsCame(config, moves + [m], x, b)
  {
    hide Came;
    hide KindsFit;
    forall i: nat | HasResult(b, i) ensures Came(config, moves + [m], x, b.calls, i, b.settled[i].value) {
      CameStays(config, moves, m, x, b.calls, i, b.settled[i].value);
    }
    if b.phase.Returning? { CameStays(config, moves, m, x, b.calls, b.terminal[b.tnext], b.phase.result); }
  }

  lemma ResultsStayCame(config: Config, moves: seq<RunMove>, m: RunMove, x: nat, calls: seq<Call>,
      results: seq<CallResult>)
    requires ResultsCame(config, moves, x, calls, results)
    ensures ResultsCame(config, moves + [m], x, calls, results)
  {
    hide CameOrCut;
    forall i: nat | i < |calls| ensures CameOrCut(config, moves + [m], x, calls, i, results[i]) {
      CutStays(config, moves, m, x, calls, i, results[i]);
    }
  }

  lemma AnswersStay(config: Config, moves: seq<RunMove>, m: RunMove, h: seq<Message>, more: seq<Message>, x: nat)
    requires x < |h| && h[x].ToolResults? && AnswersCame(config, moves, h, x)
    ensures AnswersCame(config, moves + [m], h + more, x)
  {
    hide CameOrCut;
    var calls, results := h[x - 1].calls, h[x].results;
    forall i: nat | i < |results| ensures AnswerCame(config, moves + [m], x, calls, i, results[i]) {
      assert AnswerCame(config, moves, x, calls, i, results[i]);
      var j: nat :| LastNamesake(calls, i, j) && CameOrCut(config, moves, x, calls, j, results[i]);
      CutStays(config, moves, m, x, calls, j, results[i]);
    }
  }

  // ----- one step -------------------------------------------------------------------------

  /** A new batch has no results. */
  lemma FreshSlots(config: Config, moves: seq<RunMove>, x: nat, calls: seq<Call>)
    ensures SlotsCame(config, moves, x, StartBatch(calls, config.terminalName))
  {
  }

  lemma AdvanceSlots(config: Config, moves: seq<RunMove>, m: RunMove)
    requires AllCame(config, moves) && AgentInv(ExecRun(config, moves)) && ExecRun(config, moves).config == config
    requires ExecRun(config, moves).pc.InBatch? && m.BatchesMove?
    ensures var w := ExecRun(config, moves);
      SlotsCame(config, moves + [m], |w.llm|, Advance(w.pc.batch, m.batch, w.handle.aborted, GateOpen(w)).batch)
  {
    hide Came;
    hide ExecRun;
    var w := ExecRun(config, moves);
    var b := w.pc.batch;
    assert BatchInv(b, w.handle.aborted) by { hide BatchInv; }
    SlotsStay(config, moves, m, |w.llm|, b);
    AdvanceKeepsCalls(b, m.batch, w.handle.aborted, GateOpen(w));
    AdvanceGives(b, m.batch, w.handle.aborted, GateOpen(w));
    AdvanceAwaits(b, m.batch, w.handle.aborted, GateOpen(w));
    hide Advance;
    hide GateOpen;
    hide GateGave;
    hide AgentInv;
    var n := Advance(b, m.batch, w.handle.aborted, GateOpen(w)).batch;
    forall i: nat | HasResult(n, i) ensures Came(config, moves + [m], |w.llm|, n.calls, i, n.settled[i].value) {
      var r := n.settled[i].value;
      if ToolGave(b, m.batch, i, r) {
        LaneIsOrdinary(b, w.handle.aborted, m.batch.lane);
        CameNow(config, moves, m, |w.llm|, b.calls, i, r);
      }
    }
    if n.phase.Returning? && n.phase != b.phase {
      assert b.terminal[b.tnext] in b.terminal;
      CameNow(config, moves, m, |w.llm|, b.calls, b.terminal[b.tnext], n.phase.result);
    }
  }

  /** What a batch returns came, or its run was interrupted. */
  lemma OverCame(config: Config, moves: seq<RunMove>, x: nat, b: Batch)
    requires SlotsCame(config, moves, x, b) && BatchInv(b, ExecRun(config, moves).handle.aborted)
    requires b.over && |b.settled| == |b.calls|
    ensures ResultsCame(config, moves, x, b.calls, Results(b))
  {
    hide Came;
    hide ExecRun;
    hide KindsFit;
    forall i: nat | i < |b.calls| ensures CameOrCut(config, moves, x, b.calls, i, Results(b)[i]) {
      if !ExecRun(config, moves).handle.aborted { NoneMissing(b, i); }
    }
  }

  /** A batch that is over without an interrupt has every result. */
  lemma NoneMissing(b: Batch, i: nat)
    requires BatchInv(b, false) && b.over && i < |b.calls|
    ensures HasResult(b, i)
  {
    if i in b.ordinary {
      var k :| 0 <= k < |b.ordinary| && b.ordinary[k] == i;
      assert AtWork(b, i) || HasResult(b, i);
    } else {
      var k :| 0 <= k < |b.terminal| && b.terminal[k] == i;
    }
  }

  /** The recorded answer to call `i` is the returned result of its last namesake. */
  lemma NormalizedCame(config: Config, moves: seq<RunMove>, x: nat, calls: seq<Call>, results: seq<CallResult>, i: nat)
    requires ResultsCame(config, moves, x, calls, results) && i < |calls|
    ensures AnswerCame(config, moves, x, calls, i, NormalizeBatch(calls, results)[i])
  {
    hide CameOrCut;
    var id := calls[i].id;
    assert results[i].id == id;
    var j := ResultForIsLast(results, id);
    assert calls[j].id == results[j].id;
    assert LastNamesake(calls, i, j) by {
      forall k | j < k < |calls| ensures calls[k].id != id { assert results[k].id != id; }
    }
    assert CameOrCut(config, moves, x, calls, j, results[j]);
  }

  lemma PcStep(config: Config, moves: seq<RunMove>, m: RunMove)
    requires AllCame(config, moves) && AgentInv(ExecRun(config, moves)) && ExecRun(config, moves).config == config
    requires AgentInv(ExecRun(config, moves + [m]))
    ensures PcCame(config, moves + [m], ExecRun(config, moves + [m]))
  {
    ExecOne(config, moves, m);
    var w := ExecRun(config, moves);
    var n := ExecRun(config, moves + [m]);
    StepGoesOn(w, m);
    AbortStays(w, m);
    hide ExecRun;
    hide RunStep;
    hide Advance;
    hide GateOpen;
    hide SlotsCame;
    hide ResultsCame;
    match n.pc {
      case InBatch(b) =>
        if n.pc == w.pc && n.llm == w.llm { SlotsStay(config, moves, m, |w.llm|, b); }
        else if w.pc.CallsHook? { FreshSlots(config, moves + [m], |n.llm|, w.pc.calls); }
        else { AdvanceSlots(config, moves, m); }
      case BatchReturned(calls, results) =>
        if n.pc == w.pc && n.llm == w.llm { ResultsStayCame(config, moves, m, |w.llm|, calls, results); }
        else {
          AdvanceSlots(config, moves, m);
          InvHistory(w);
          BatchOver(w, m.batch, n);
          OverCame(config, moves + [m], |w.llm|, Advance(w.pc.batch, m.batch, w.handle.aborted, GateOpen(w)).batch);
        }
      case _ =>
    }
  }

  lemma BatchOver(w: World, bm: BatchMove, n: World)
    requires HistoryOk(w) && w.pc.InBatch? && n == RunStep(w, BatchesMove(bm))
    ensures BatchInv(Advance(w.pc.batch, bm, w.handle.aborted, GateOpen(w)).batch, n.handle.aborted)
  {
    hide BatchStep;
    hide Advance;
    hide GateOpen;
    hide BatchInv;
    hide Open;
    hide Budget;
    hide RequestsOk;
    AdvanceKeeps(w.pc.batch, bm, w.handle.aborted, GateOpen(w));
    BatchStepQuiet(w, w.pc.batch, bm);
  }

  /** The message a move says, if it is an answer, came. */
  lemma SaidCame(config: Config, moves: seq<RunMove>, m: RunMove, rest: seq<Message>)
    requires AllCame(config, moves) && HistoryOk(ExecRun(config, moves))
    requires m.BatchContinuesMove? && ExecRun(config, moves).pc.BatchReturned?
    ensures var w := ExecRun(config, moves);
      AnswersCame(config, moves + [m], w.llm + Said(w, m) + rest, |w.llm|)
  {
    var w := ExecRun(config, moves);
    hide ExecRun;
    hide History;
    hide Budget;
    hide RequestsOk;
    hide ResultsCame;
    hide AnswerCame;
    var calls, results := w.pc.calls, w.pc.results;
    var h := w.llm + Said(w, m);
    forall i: nat | i < |calls|
      ensures AnswerCame(config, moves, |w.llm|, calls, i, NormalizeBatch(calls, results)[i])
    {
      NormalizedCame(config, moves, |w.llm|, calls, results, i);
    }
    AnswersStay(config, moves, m, h, rest, |w.llm|);
  }

  lemma QueuedAnswersNothing(w: World)
    ensures forall i :: 0 <= i < |Queued(w)| ==> !Queued(w)[i].ToolResults?
  {
  }

  lemma MessagesStep(config: Config, moves: seq<RunMove>, m: RunMove, x: nat)
    requires AllCame(config, moves) && HistoryOk(ExecRun(config, moves))
    requires var n := ExecRun(config, moves + [m]); x < |n.llm| && n.llm[x].ToolResults?
    ensures AnswersCame(config, moves + [m], ExecRun(config, moves + [m]).llm, x)
  {
    ExecOne(config, moves, m);
    var w := ExecRun(config, moves);
    var n := ExecRun(config, moves + [m]);
    StepAppends(w, m);
    QueuedAnswersNothing(w);
    hide ExecRun;
    hide RunStep;
    hide HistoryOk;
    hide AnswersCame;
    hide PcCame;
    hide Queued;
    var h := w.llm + Said(w, m);
    var rest := if n.llm == h then [] else Queued(w);
    assert n.llm == h + rest;
    if x < |w.llm| {
      assert h[x] == w.llm[x] == n.llm[x];
      AnswersStay(config, moves, m, w.llm, Said(w, m) + rest, x);
      assert w.llm + (Said(w, m) + rest) == n.llm;
    } else {
      assert x < |h| && n.llm[x] == Said(w, m)[x - |w.llm|];
      SaidCame(config, moves, m, rest);
    }
  }

  lemma StartCame(config: Config)
    ensures AllCame(config, [])
  {
    RunUnfolds(config, []);
    var a := Assembled(config);
    TopAppends(a);
    TopNotInBatch(a);
    QueuedAnswersNothing(a);
    hide ExecRun;
    hide TopOfLoop;
    hide Queued;
  }

  lemma {:induction false} EverythingCame(config: Config, moves: seq<RunMove>)
    ensures AllCame(config, moves)
  {
    hide ExecRun;
    hide AgentInv;
    hide AnswersCame;
    hide PcCame;
    if moves == [] {
      StartCame(config);
    } else {
      var front, m := moves[..|moves| - 1], moves[|moves| - 1];
      assert front + [m] == moves;
      EverythingCame(config, front);
      ExecKeepsInv(config, front);
      ExecKeepsInv(config, moves);
      ConfigStays(config, front);
      PcStep(config, front, m);
      var n := ExecRun(config, moves);
      forall x: nat | x < |n.llm| && n.llm[x].ToolResults? ensures AnswersCame(config, moves, n.llm, x) {
        assert HistoryOk(ExecRun(config, front)) by { InvHistory(ExecRun(config, front)); }
        MessagesStep(config, front, m, x);
      }
    }
  }

  lemma InvHistory(w: World)
    requires AgentInv(w)
    ensures HistoryOk(w)
  {
    hide HistoryOk;
  }

  // ----- the theorem ------------------------------------------------------------------------

  /** Every answer in the history of any run answers a call of the message before it. With
      distinct ids it is what that call's own tool returned, or what the gate or the host said,
      unless the run was interrupted; with repeated ids it is that of the last namesake. */
  lemma AnswersCameIn(config: Config, moves: seq<RunMove>, x: nat, i: nat)
    requires var h := ExecRun(config, moves).llm; x < |h| && h[x].ToolResults? && i < |h[x].results|
    ensures var h := ExecRun(config, moves).llm;
      && 0 < x && h[x - 1].Assistant? && |h[x].results| == |h[x - 1].calls|
      && AnswerCame(config, moves, x, h[x - 1].calls, i, h[x].results[i])
      && (DistinctIds(h[x - 1].calls) ==> CameOrCut(config, moves, x, h[x - 1].calls, i, h[x].results[i]))
  {
    hide ExecRun;
    EverythingCame(config, moves);
    hide CameOrCut;
    hide PcCame;
    var h := ExecRun(config, moves).llm;
    var calls, r := h[x - 1].calls, h[x].results[i];
    assert AnswerCame(config, moves, x, calls, i, r);
    var j: nat :| LastNamesake(calls, i, j) && CameOrCut(config, moves, x, calls, j, r);
    if DistinctIds(calls) { assert j == i; }
  }
}
