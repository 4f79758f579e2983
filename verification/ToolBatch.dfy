/** One batch of tool calls. */
module ToolBatch {
  import opened Text
  import opened RunHistory

  // Ordinary calls run in up to eight lanes, then the terminal calls one by one; an abort
  // cuts either phase short.

  const MAX_TOOL_CONCURRENCY := 8

  datatype Lane = Ready | Busy(call: nat) | Ended

  /** Where the terminal call at hand waits. */
  datatype Phase = Idle | PreHook | PostHook | Submitting | Returning(result: CallResult)

  datatype BatchEvent = ToolStarted(id: string) | ToolCompleted(id: string, isError: bool, isTerminal: bool)

  /** `started` lists the dispatched calls, in order. */
  datatype Batch = Batch(
    calls: seq<Call>,
    ordinary: seq<nat>,
    terminal: seq<nat>,
    settled: seq<Option<CallResult>>,
    cursor: nat,
    lanes: seq<Lane>,
    released: bool,
    tnext: nat,
    phase: Phase,
    over: bool,
    started: seq<nat>)

  predicate IsTerminalCall(call: Call, terminalName: Option<string>) {
    terminalName == Some(call.name)
  }

  /** Indices of the calls of one kind, in call order. */
  function Indices(calls: seq<Call>, terminalName: Option<string>, terminal: bool): (r: seq<nat>)
    ensures forall i: nat :: i in r <==> i < |calls| && IsTerminalCall(calls[i], terminalName) == terminal
    ensures forall x, y :: 0 <= x < y < |r| ==> r[x] < r[y]
  {
    if calls == [] then []
    else
      var n := |calls| - 1;
      var front := Indices(calls[..n], terminalName, terminal);
      assert forall x :: 0 <= x < |front| ==> front[x] in front;
      if IsTerminalCall(calls[n], terminalName) == terminal then front + [n] else front
  }

  function Unsettled(n: nat): (r: seq<Option<CallResult>>)
    ensures |r| == n && forall i :: 0 <= i < n ==> r[i] == None
  {
    seq(n, _ => None)
  }

  function ReadyLanes(n: nat): (r: seq<Lane>)
    ensures |r| == n && forall i :: 0 <= i < n ==> r[i] == Ready
  {
    seq(n, _ => Ready)
  }

  function LaneCount(ordinary: nat): nat {
    if ordinary < MAX_TOOL_CONCURRENCY then ordinary else MAX_TOOL_CONCURRENCY
  }

  function StartBatch(calls: seq<Call>, terminalName: Option<string>): Batch {
    var ordinary := Indices(calls, terminalName, false);
    Batch(calls, ordinary, Indices(calls, terminalName, true), Unsettled(|calls|), 0,
          ReadyLanes(LaneCount(|ordinary|)), false, 0, Idle, false, [])
  }

  /** What the outside decides next about a batch. */
  datatype BatchMove =
    | LanePick(lane: nat)
    | LaneReturn(lane: nat, content: string, isError: bool)
    | Release
    | TerminalPick(valid: bool, refusal: string)
    | PreHookReturn(denied: Option<string>)
    | PostHookReturn(denied: Option<string>)
    | VerdictReturn(verdict: Verdict)
    | DispatchReturn

  datatype Verdict = Thrown(text: string) | Rejects(text: string) | Accepts(value: string)

  /** A batch move and the events it emits. */
  datatype Stepped = Stepped(batch: Batch, events: seq<BatchEvent>)

  function Stay(b: Batch): Stepped { Stepped(b, []) }

  /** A free lane takes the next ordinary call, or ends. */
  function Pick(b: Batch, l: nat, aborted: bool): Stepped
    requires l < |b.lanes|
  {
    if b.cursor < |b.ordinary| && !aborted && b.ordinary[b.cursor] < |b.calls| then
      var i := b.ordinary[b.cursor];
      Stepped(b.(lanes := b.lanes[l := Busy(i)], cursor := b.cursor + 1, started := b.started + [i]),
              [ToolStarted(b.calls[i].id)])
    else Stay(b.(lanes := b.lanes[l := Ended]))
  }

  /** Record a call's result, unless the batch was aborted meanwhile. */
  function SettleCall(b: Batch, i: nat, result: CallResult): Stepped
    requires i < |b.settled|
  {
    Stepped(b.(settled := b.settled[i := Some(result)]), [ToolCompleted(result.id, result.isError, result.isTerminal)])
  }

  function Return(b: Batch, l: nat, content: string, isError: bool, aborted: bool): Stepped
    requires l < |b.lanes| && b.lanes[l].Busy?
  {
    var i := b.lanes[l].call;
    if aborted || i >= |b.settled| || i >= |b.calls| then Stay(b.(lanes := b.lanes[l := Ended]))
    else SettleCall(b.(lanes := b.lanes[l := Ready]), i, CallResult(b.calls[i].id, content, isError, false))
  }

  ghost predicate AllEnded(lanes: seq<Lane>) {
    forall l :: 0 <= l < |lanes| ==> lanes[l] == Ended
  }

  function Refused(id: string, reason: string): CallResult {
    CallResult(id, reason, true, false)
  }

  const SUBMISSION_DENIED := "submission denied"
  const SUBMISSION_ACCEPTED := "submission accepted"
  const SUBMIT_FAILED := "onSubmit failed: "

  predicate AtTerminal(b: Batch) {
    b.tnext < |b.terminal| && b.terminal[b.tnext] < |b.calls| == |b.settled|
  }

  function TerminalId(b: Batch): string
    requires AtTerminal(b)
  {
    b.calls[b.terminal[b.tnext]].id
  }

  function StartTerminal(b: Batch, valid: bool, refusal: string, aborted: bool): Stepped {
    if !AtTerminal(b) || aborted then Stay(b.(over := true))
    else
      Stepped(b.(started := b.started + [b.terminal[b.tnext]],
                 phase := if valid then PreHook else Returning(Refused(TerminalId(b), refusal))),
              [ToolStarted(TerminalId(b))])
  }

  function VerdictResult(id: string, v: Verdict): CallResult {
    match v
    case Thrown(text) => Refused(id, SUBMIT_FAILED + text)
    case Rejects(text) => Refused(id, text)
    case Accepts(_) => CallResult(id, SUBMISSION_ACCEPTED, false, true)
  }

  function FinishTerminal(b: Batch, result: CallResult, aborted: bool): Stepped
    requires AtTerminal(b)
  {
    if aborted then Stay(b.(phase := Idle, over := true))
    else SettleCall(b.(phase := Idle, tnext := b.tnext + 1), b.terminal[b.tnext], result)
  }

  /** `gateOpen` is the submission gate as it reads at this moment. */
  ghost function Advance(b: Batch, m: BatchMove, aborted: bool, gateOpen: bool): Stepped {
    if b.over then Stay(b)
    else
      match m
      case LanePick(l) => if l < |b.lanes| && b.lanes[l].Ready? then Pick(b, l, aborted) else Stay(b)
      case LaneReturn(l, content, isError) =>
        if l < |b.lanes| && b.lanes[l].Busy? then Return(b, l, content, isError, aborted) else Stay(b)
      case Release => if aborted || AllEnded(b.lanes) then Stay(b.(released := true)) else Stay(b)
      case TerminalPick(valid, refusal) =>
        if b.released && b.phase.Idle? then StartTerminal(b, valid, refusal, aborted) else Stay(b)
      case PreHookReturn(denied) =>
        if !AtTerminal(b) || !b.phase.PreHook? then Stay(b)
        else if denied.Some? then Stay(b.(phase := Returning(Refused(TerminalId(b), denied.value))))
        else if !gateOpen then Stay(b.(phase := Returning(Refused(TerminalId(b), SUBMISSION_DENIED))))
        else Stay(b.(phase := PostHook))
      case PostHookReturn(denied) =>
        if !AtTerminal(b) || !b.phase.PostHook? then Stay(b)
        else if denied.Some? then Stay(b.(phase := Returning(Refused(TerminalId(b), denied.value))))
        else Stay(b.(phase := Submitting))
      case VerdictReturn(v) =>
        if !AtTerminal(b) || !b.phase.Submitting? then Stay(b)
        else Stay(b.(phase := Returning(VerdictResult(TerminalId(b), v))))
      case DispatchReturn =>
        if !AtTerminal(b) || !b.phase.Returning? then Stay(b) else FinishTerminal(b, b.phase.result, aborted)
  }

  /** What the batch returns: each call's result, or a synthetic one. */
  function Results(b: Batch): (r: seq<CallResult>)
    requires |b.settled| == |b.calls|
    ensures |r| == |b.calls|
    ensures forall i :: 0 <= i < |b.calls| ==>
        r[i] == if b.settled[i].Some? then b.settled[i].value else Interrupted(b.calls[i].id)
  {
    seq(|b.calls|, i requires 0 <= i < |b.calls| =>
      if b.settled[i].Some? then b.settled[i].value else Interrupted(b.calls[i].id))
  }

  // ----- the batch's invariant -----------------------------------------------------------------

  ghost predicate Increasing(s: seq<nat>) {
    forall x, y :: 0 <= x < y < |s| ==> s[x] < s[y]
  }

  ghost predicate KindsOk(b: Batch) {
    && Increasing(b.ordinary) && Increasing(b.terminal)
    && (forall i: nat :: i in b.ordinary ==> i < |b.calls| && i !in b.terminal)
    && (forall i: nat :: i in b.terminal ==> i < |b.calls|)
    && (forall i :: 0 <= i < |b.calls| ==> i in b.ordinary || i in b.terminal)
    && |b.settled| == |b.calls| && |b.lanes| <= MAX_TOOL_CONCURRENCY
    && b.cursor <= |b.ordinary| && b.tnext <= |b.terminal|
  }

  /** The calls at work are the ones dispatched and neither settled nor dropped. */
  ghost predicate LanesOk(b: Batch)
    requires KindsOk(b)
  {
    && (forall l :: 0 <= l < |b.lanes| && b.lanes[l].Busy? ==>
          b.lanes[l].call in b.ordinary[..b.cursor] && !HasResult(b, b.lanes[l].call))
    && (forall l, l2 :: 0 <= l < l2 < |b.lanes| && b.lanes[l].Busy? ==> b.lanes[l2] != b.lanes[l])
    && (|b.lanes| == 0 ==> |b.ordinary| == 0)
  }

  predicate HasResult(b: Batch, i: int) {
    0 <= i < |b.settled| && b.settled[i].Some?
  }

  ghost predicate AtWork(b: Batch, i: nat) {
    exists l :: 0 <= l < |b.lanes| && b.lanes[l] == Busy(i)
  }

  /** Results sit at the calls they belong to, and only at calls that were dispatched. */
  ghost predicate ResultsOk(b: Batch)
    requires KindsOk(b)
  {
    && (forall i :: 0 <= i < |b.settled| && HasResult(b, i) ==> b.settled[i].value.id == b.calls[i].id)
    && (forall x :: b.cursor <= x < |b.ordinary| ==> !HasResult(b, b.ordinary[x]))
    && (forall x :: b.tnext <= x < |b.terminal| ==> !HasResult(b, b.terminal[x]))
    && (forall i: nat :: i in b.ordinary && HasResult(b, i) ==> !b.settled[i].value.isTerminal)
    && (b.phase.Returning? ==> AtTerminal(b) && b.phase.result.id == TerminalId(b))
  }

  /** Unless aborted, nothing is dropped, and the terminal calls wait for all the others. */
  ghost predicate NothingDropped(b: Batch)
    requires KindsOk(b)
  {
    && (forall x :: 0 <= x < b.cursor ==> AtWork(b, b.ordinary[x]) || HasResult(b, b.ordinary[x]))
    && (forall x :: 0 <= x < b.tnext ==> HasResult(b, b.terminal[x]))
    && ((exists l :: 0 <= l < |b.lanes| && b.lanes[l] == Ended) ==> b.cursor == |b.ordinary|)
    && (b.released ==> AllEnded(b.lanes) && b.cursor == |b.ordinary|)
    && (b.over ==> b.tnext == |b.terminal| && b.phase.Idle?)
  }

  ghost predicate BatchInv(b: Batch, aborted: bool) {
    && KindsOk(b) && LanesOk(b) && ResultsOk(b)
    && (!aborted ==> NothingDropped(b))
    && b.cursor <= |b.started| <= b.cursor + |b.terminal|
    && b.started == b.ordinary[..b.cursor] + b.terminal[..|b.started| - b.cursor]
    && b.tnext <= |b.started| - b.cursor <= b.tnext + 1
    && (!b.phase.Idle? ==> AtTerminal(b) && |b.started| - b.cursor == b.tnext + 1 && b.released)
    && (b.phase.Idle? && !b.over ==> |b.started| - b.cursor == b.tnext)
    && (b.tnext > 0 ==> b.released)
    && (b.over ==> b.released)
    && (!b.released ==> |b.started| == b.cursor)
  }

  lemma StartKeeps(calls: seq<Call>, terminalName: Option<string>, aborted: bool)
    ensures BatchInv(StartBatch(calls, terminalName), aborted)
  {
    var b := StartBatch(calls, terminalName);
    assert b.ordinary[..0] == [] && b.terminal[..0] == [];
  }

  /** An abort only ever weakens what is known. */
  lemma AbortKeeps(b: Batch, aborted: bool)
    requires BatchInv(b, aborted)
    ensures BatchInv(b, true)
  {
  }

  lemma StillAtWork(b: Batch, n: Batch, l: nat, i: nat)
    requires |n.lanes| == |b.lanes| && l < |b.lanes| && b.lanes[l] != Busy(i)
    requires forall x :: 0 <= x < |b.lanes| && x != l ==> n.lanes[x] == b.lanes[x]
    ensures AtWork(b, i) ==> AtWork(n, i)
  {
    if AtWork(b, i) {
      var x :| 0 <= x < |b.lanes| && b.lanes[x] == Busy(i);
      assert n.lanes[x] == Busy(i);
    }
  }

  lemma PickKeepsLanes(b: Batch, l: nat, aborted: bool)
    requires KindsOk(b) && LanesOk(b) && ResultsOk(b) && l < |b.lanes| && b.lanes[l].Ready?
    ensures var n := Pick(b, l, aborted).batch; KindsOk(n) && LanesOk(n)
  {
    if b.cursor < |b.ordinary| { assert b.ordinary[b.cursor] in b.ordinary; }
  }

  /** Which lane does what is no matter of the results. */
  lemma LanesAside(b: Batch, lanes: seq<Lane>)
    requires KindsOk(b) && ResultsOk(b) && |lanes| == |b.lanes|
    ensures KindsOk(b.(lanes := lanes)) && ResultsOk(b.(lanes := lanes))
  {
  }

  lemma TakingKeepsResults(b: Batch, started: seq<nat>)
    requires KindsOk(b) && ResultsOk(b) && b.cursor < |b.ordinary|
    ensures var n := b.(cursor := b.cursor + 1, started := started); KindsOk(n) && ResultsOk(n)
  {
  }

  lemma PickKeepsResults(b: Batch, l: nat, aborted: bool)
    requires KindsOk(b) && ResultsOk(b) && l < |b.lanes|
    ensures var n := Pick(b, l, aborted).batch; KindsOk(n) && ResultsOk(n)
  {
    hide KindsOk;
    hide ResultsOk;
    LanesAside(b, Pick(b, l, aborted).batch.lanes);
    if b.cursor < |b.ordinary| {
      TakingKeepsResults(b.(lanes := Pick(b, l, aborted).batch.lanes), Pick(b, l, aborted).batch.started);
    }
  }

  lemma PickDropsNothing(b: Batch, l: nat)
    requires KindsOk(b) && NothingDropped(b) && !b.released && !b.over && l < |b.lanes| && b.lanes[l].Ready?
    ensures var n := Pick(b, l, false).batch; KindsOk(n) && NothingDropped(n)
  {
    if b.cursor < |b.ordinary| { assert b.ordinary[b.cursor] in b.ordinary; }
    var n := Pick(b, l, false).batch;
    assert b.lanes[l] == Ready;
    forall x | 0 <= x < n.cursor ensures AtWork(n, n.ordinary[x]) || HasResult(n, n.ordinary[x]) {
      if x < b.cursor { StillAtWork(b, n, l, b.ordinary[x]); } else { assert n.lanes[l] == Busy(n.ordinary[x]); }
    }
  }

  lemma TakesNext(s: seq<nat>, first: seq<nat>, rest: seq<nat>, m: nat)
    requires m < |rest| && s == first + rest[..m]
    ensures s + [rest[m]] == first + rest[..m + 1]
  {
  }

  lemma PickKeeps(b: Batch, l: nat, aborted: bool)
    requires BatchInv(b, aborted) && !b.over && l < |b.lanes| && b.lanes[l].Ready?
    ensures BatchInv(Pick(b, l, aborted).batch, aborted)
  {
    PickKeepsLanes(b, l, aborted);
    PickKeepsResults(b, l, aborted);
    if !aborted {
      assert b.lanes[l] != Ended && !b.released;
      PickDropsNothing(b, l);
    }
    hide KindsOk;
    hide LanesOk;
    hide ResultsOk;
    hide NothingDropped;
    if b.cursor < |b.ordinary| && !aborted {
      assert b.started == [] + b.ordinary[..b.cursor];
      TakesNext(b.started, [], b.ordinary, b.cursor);
    }
  }

  lemma ReturnKeepsLanes(b: Batch, l: nat, content: string, isError: bool, aborted: bool)
    requires KindsOk(b) && LanesOk(b) && l < |b.lanes| && b.lanes[l].Busy?
    ensures var n := Return(b, l, content, isError, aborted).batch; KindsOk(n) && LanesOk(n)
  {
    assert b.lanes[l].call in b.ordinary;
  }

  lemma SettleKeepsResults(b: Batch, i: nat, result: CallResult)
    requires KindsOk(b) && ResultsOk(b) && i in b.ordinary && i in b.ordinary[..b.cursor]
    requires result.id == b.calls[i].id && !result.isTerminal
    ensures var n := b.(settled := b.settled[i := Some(result)]); KindsOk(n) && ResultsOk(n)
  {
    forall x | 0 <= x < |b.terminal| ensures b.terminal[x] != i { assert b.terminal[x] in b.terminal; }
  }

  lemma ReturnKeepsResults(b: Batch, l: nat, content: string, isError: bool, aborted: bool)
    requires KindsOk(b) && LanesOk(b) && ResultsOk(b) && l < |b.lanes| && b.lanes[l].Busy?
    ensures var n := Return(b, l, content, isError, aborted).batch; KindsOk(n) && ResultsOk(n)
  {
    var i := b.lanes[l].call;
    assert i in b.ordinary[..b.cursor] && i in b.ordinary && i < |b.calls| == |b.settled|;
    hide KindsOk;
    hide LanesOk;
    hide ResultsOk;
    LanesAside(b, b.lanes[l := if aborted then Ended else Ready]);
    if !aborted {
      SettleKeepsResults(b.(lanes := b.lanes[l := Ready]), i, CallResult(b.calls[i].id, content, isError, false));
    }
  }

  lemma ReturnDropsNothing(b: Batch, l: nat, content: string, isError: bool)
    requires KindsOk(b) && LanesOk(b) && NothingDropped(b) && l < |b.lanes| && b.lanes[l].Busy?
    ensures var n := Return(b, l, content, isError, false).batch; KindsOk(n) && NothingDropped(n)
  {
    var i, n := b.lanes[l].call, Return(b, l, content, isError, false).batch;
    assert i in b.ordinary;
    forall x | 0 <= x < |b.terminal| ensures b.terminal[x] != i { assert b.terminal[x] in b.terminal; }
    forall x | 0 <= x < n.cursor ensures AtWork(n, n.ordinary[x]) || HasResult(n, n.ordinary[x]) {
      if b.ordinary[x] != i { StillAtWork(b, n, l, b.ordinary[x]); }
    }
  }

  lemma ReturnKeeps(b: Batch, l: nat, content: string, isError: bool, aborted: bool)
    requires BatchInv(b, aborted) && !b.over && l < |b.lanes| && b.lanes[l].Busy?
    ensures BatchInv(Return(b, l, content, isError, aborted).batch, aborted)
  {
    ReturnKeepsLanes(b, l, content, isError, aborted);
    ReturnKeepsResults(b, l, content, isError, aborted);
    if !aborted { ReturnDropsNothing(b, l, content, isError); }
    hide KindsOk;
    hide LanesOk;
    hide ResultsOk;
    hide NothingDropped;
  }

  /** The starts, the phase and the end are no matter of the lanes and the results. */
  lemma StartsAside(b: Batch, n: Batch)
    requires KindsOk(b) && LanesOk(b) && ResultsOk(b)
    requires n == b.(started := n.started, phase := n.phase, over := n.over)
    requires n.phase.Returning? ==> AtTerminal(n) && n.phase.result.id == TerminalId(n)
    ensures KindsOk(n) && LanesOk(n) && ResultsOk(n)
    ensures NothingDropped(b) && (n.over ==> n.tnext == |n.terminal| && n.phase.Idle?) ==> NothingDropped(n)
  {
  }

  lemma StartTerminalKeeps(b: Batch, valid: bool, refusal: string, aborted: bool)
    requires BatchInv(b, aborted) && !b.over && b.released && b.phase.Idle?
    ensures BatchInv(StartTerminal(b, valid, refusal, aborted).batch, aborted)
  {
    var n := StartTerminal(b, valid, refusal, aborted).batch;
    if b.tnext < |b.terminal| { assert b.terminal[b.tnext] in b.terminal; }
    StartsAside(b, n);
    hide KindsOk;
    hide LanesOk;
    hide ResultsOk;
    hide NothingDropped;
    if AtTerminal(b) && !aborted { TakesNext(b.started, b.ordinary[..b.cursor], b.terminal, b.tnext); }
  }

  lemma FinishTerminalKeeps(b: Batch, result: CallResult, aborted: bool)
    requires BatchInv(b, aborted) && !b.over && b.phase == Returning(result)
    ensures BatchInv(FinishTerminal(b, result, aborted).batch, aborted)
  {
  }

  lemma RefusalKeeps(b: Batch, result: CallResult, aborted: bool)
    requires BatchInv(b, aborted) && !b.over && !b.phase.Idle? && AtTerminal(b) && result.id == TerminalId(b)
    ensures BatchInv(b.(phase := Returning(result)), aborted)
  {
  }

  lemma PhaseKeeps(b: Batch, phase: Phase, aborted: bool)
    requires BatchInv(b, aborted) && !b.over && !b.phase.Idle? && (phase.PostHook? || phase.Submitting?)
    ensures BatchInv(b.(phase := phase), aborted)
  {
  }

  lemma ReleaseKeeps(b: Batch, aborted: bool)
    requires BatchInv(b, aborted) && !b.over && (aborted || AllEnded(b.lanes))
    ensures BatchInv(b.(released := true), aborted)
  {
    hide ResultsOk;
    if |b.lanes| > 0 && !aborted { assert b.lanes[0] == Ended; }
    ReleasedResults(b);
  }

  lemma ReleasedResults(b: Batch)
    requires KindsOk(b) && ResultsOk(b)
    ensures ResultsOk(b.(released := true))
  {
  }

  lemma AdvanceKeeps(b: Batch, m: BatchMove, aborted: bool, gateOpen: bool)
    requires BatchInv(b, aborted)
    ensures BatchInv(Advance(b, m, aborted, gateOpen).batch, aborted)
  {
    hide BatchInv;
    hide AtTerminal;
    hide TerminalId;
    hide StartTerminal;
    hide FinishTerminal;
    hide Pick;
    hide Return;
    if !b.over {
      match m {
        case LanePick(l) => if l < |b.lanes| && b.lanes[l].Ready? { PickKeeps(b, l, aborted); }
        case LaneReturn(l, content, isError) =>
          if l < |b.lanes| && b.lanes[l].Busy? { ReturnKeeps(b, l, content, isError, aborted); }
        case Release => if aborted || AllEnded(b.lanes) { ReleaseKeeps(b, aborted); }
        case TerminalPick(valid, refusal) =>
          if b.released && b.phase.Idle? { StartTerminalKeeps(b, valid, refusal, aborted); }
        case PreHookReturn(denied) =>
          if AtTerminal(b) && b.phase.PreHook? {
            if denied.Some? { RefusalKeeps(b, Refused(TerminalId(b), denied.value), aborted); }
            else if !gateOpen { RefusalKeeps(b, Refused(TerminalId(b), SUBMISSION_DENIED), aborted); }
            else { PhaseKeeps(b, PostHook, aborted); }
          }
        case PostHookReturn(denied) =>
          if AtTerminal(b) && b.phase.PostHook? {
            if denied.Some? { RefusalKeeps(b, Refused(TerminalId(b), denied.value), aborted); }
            else { PhaseKeeps(b, Submitting, aborted); }
          }
        case VerdictReturn(v) =>
          if AtTerminal(b) && b.phase.Submitting? { RefusalKeeps(b, VerdictResult(TerminalId(b), v), aborted); }
        case DispatchReturn =>
          if AtTerminal(b) && b.phase.Returning? { FinishTerminalKeeps(b, b.phase.result, aborted); }
      }
    }
  }

  // ----- whole batches, in any interleaving ------------------------------------------------------

  datatype BatchInput = Input(move: BatchMove, gateOpen: bool) | AbortNow

  datatype BatchState = BatchState(batch: Batch, aborted: bool)

  ghost function BatchRun(calls: seq<Call>, terminalName: Option<string>, inputs: seq<BatchInput>): BatchState {
    if inputs == [] then BatchState(StartBatch(calls, terminalName), false)
    else
      var s := BatchRun(calls, terminalName, inputs[..|inputs| - 1]);
      match inputs[|inputs| - 1]
      case Input(m, gateOpen) => BatchState(Advance(s.batch, m, s.aborted, gateOpen).batch, s.aborted)
      case AbortNow => BatchState(s.batch, true)
  }

  lemma AdvanceKeepsCalls(b: Batch, m: BatchMove, aborted: bool, gateOpen: bool)
    ensures var n := Advance(b, m, aborted, gateOpen).batch;
      n.calls == b.calls && n.ordinary == b.ordinary && n.terminal == b.terminal
  {
  }

  lemma {:induction false} BatchRunKeeps(calls: seq<Call>, terminalName: Option<string>, inputs: seq<BatchInput>)
    ensures var s := BatchRun(calls, terminalName, inputs);
      BatchInv(s.batch, s.aborted) && s.batch.calls == calls &&
      s.batch.ordinary == Indices(calls, terminalName, false) && s.batch.terminal == Indices(calls, terminalName, true)
  {
    hide BatchInv;
    hide Advance;
    if inputs == [] {
      StartKeeps(calls, terminalName, false);
    } else {
      BatchRunKeeps(calls, terminalName, inputs[..|inputs| - 1]);
      var s := BatchRun(calls, terminalName, inputs[..|inputs| - 1]);
      match inputs[|inputs| - 1] {
        case Input(m, gateOpen) =>
          AdvanceKeeps(s.batch, m, s.aborted, gateOpen);
          AdvanceKeepsCalls(s.batch, m, s.aborted, gateOpen);
        case AbortNow => AbortKeeps(s.batch, s.aborted);
      }
    }
  }

  /** Each call is dispatched at most once, ordinary calls first and each kind in call order. */
  lemma CallsStartOnce(calls: seq<Call>, terminalName: Option<string>, inputs: seq<BatchInput>)
    ensures var b := BatchRun(calls, terminalName, inputs).batch;
      && (forall x, y :: 0 <= x < y < |b.started| ==> b.started[x] != b.started[y])
      && (exists n, m ::
           0 <= n <= |b.ordinary| && 0 <= m <= |b.terminal| && b.started == b.ordinary[..n] + b.terminal[..m])
  {
    BatchRunKeeps(calls, terminalName, inputs);
    var b := BatchRun(calls, terminalName, inputs).batch;
    StartedDistinct(b);
  }

  lemma StartedDistinct(b: Batch)
    requires KindsOk(b) && b.cursor <= |b.started| <= b.cursor + |b.terminal|
    requires b.started == b.ordinary[..b.cursor] + b.terminal[..|b.started| - b.cursor]
    ensures forall x, y :: 0 <= x < y < |b.started| ==> b.started[x] != b.started[y]
  {
    forall x, y | 0 <= x < y < |b.started| ensures b.started[x] != b.started[y] {
      if x < b.cursor <= y {
        assert b.started[x] in b.ordinary && b.started[y] in b.terminal;
      }
    }
  }

  /** Ordinary calls being worked on: at most eight, whatever the schedule. */
  ghost function InFlight(b: Batch): set<nat> {
    set l: nat | l < |b.lanes| && b.lanes[l].Busy? :: b.lanes[l].call
  }

  lemma {:induction false} LanesBound(lanes: seq<Lane>)
    ensures |set l: nat | l < |lanes| && lanes[l].Busy? :: lanes[l].call| <= |lanes|
  {
    var calls := set l: nat | l < |lanes| && lanes[l].Busy? :: lanes[l].call;
    if lanes != [] {
      var front := lanes[..|lanes| - 1];
      var before := set l: nat | l < |front| && front[l].Busy? :: front[l].call;
      LanesBound(front);
      var last := lanes[|lanes| - 1];
      assert calls == before + (if last.Busy? then {last.call} else {});
    }
  }

  lemma AtMostEightInFlight(calls: seq<Call>, terminalName: Option<string>, inputs: seq<BatchInput>)
    ensures var s := BatchRun(calls, terminalName, inputs);
      && |InFlight(s.batch)| <= MAX_TOOL_CONCURRENCY
      && (!s.aborted ==> forall i :: i in s.batch.started && i in s.batch.ordinary && !HasResult(s.batch, i) ==>
        i in InFlight(s.batch))
  {
    BatchRunKeeps(calls, terminalName, inputs);
    var s := BatchRun(calls, terminalName, inputs);
    LanesBound(s.batch.lanes);
    if !s.aborted {
      forall i | i in s.batch.started && i in s.batch.ordinary && !HasResult(s.batch, i)
        ensures i in InFlight(s.batch)
      {
        UnsettledIsAtWork(s.batch, i);
      }
    }
  }

  lemma UnsettledIsAtWork(b: Batch, i: nat)
    requires BatchInv(b, false) && i in b.started && i in b.ordinary && !HasResult(b, i)
    ensures AtWork(b, i)
  {
    var x :| 0 <= x < |b.started| && b.started[x] == i;
    if x < b.cursor {
      assert b.ordinary[x] == i;
    }
  }

  /** A terminal call starts only when every ordinary call has settled and every earlier
      terminal call has returned. */
  lemma TerminalCallsComeLast(calls: seq<Call>, terminalName: Option<string>, inputs: seq<BatchInput>, m: BatchMove,
      gateOpen: bool)
    ensures var s := BatchRun(calls, terminalName, inputs);
      var n := Advance(s.batch, m, s.aborted, gateOpen).batch;
      forall t :: t in n.started && t !in s.batch.started && t in n.terminal ==>
        && !s.aborted
        && (forall i :: i in n.ordinary ==> HasResult(s.batch, i))
        && (forall i :: i in n.terminal && i < t ==> HasResult(s.batch, i))
  {
    BatchRunKeeps(calls, terminalName, inputs);
    var s := BatchRun(calls, terminalName, inputs);
    var b := s.batch;
    var n := Advance(b, m, s.aborted, gateOpen).batch;
    if n.started != b.started {
      OnlyPicksStart(b, m, s.aborted, gateOpen);
      forall t | t in n.started && t !in b.started && t in n.terminal
        ensures !s.aborted && (forall i :: i in n.ordinary ==> HasResult(b, i)) &&
            (forall i :: i in n.terminal && i < t ==> HasResult(b, i))
      {
        TerminalStart(b, t, m, s.aborted, gateOpen);
      }
    }
  }

  lemma OnlyPicksStart(b: Batch, m: BatchMove, aborted: bool, gateOpen: bool)
    ensures var n := Advance(b, m, aborted, gateOpen).batch;
      && n.ordinary == b.ordinary && n.terminal == b.terminal
      && (n.started != b.started ==> m.LanePick? || m.TerminalPick?)
  {
  }

  lemma TerminalStart(b: Batch, t: nat, m: BatchMove, aborted: bool, gateOpen: bool)
    requires BatchInv(b, aborted) && t in b.terminal && t !in b.started && (m.LanePick? || m.TerminalPick?)
    requires t in Advance(b, m, aborted, gateOpen).batch.started
    ensures !aborted
    ensures forall i: nat :: i in b.ordinary ==> HasResult(b, i)
    ensures forall i: nat :: i in b.terminal && i < t ==> HasResult(b, i)
  {
    if m.LanePick? {
      assert false;
    } else {
      assert b.terminal[b.tnext] == t;
      forall i: nat | i in b.ordinary ensures HasResult(b, i) {
        var x :| 0 <= x < |b.ordinary| && b.ordinary[x] == i;
      }
      forall i: nat | i in b.terminal && i < t ensures HasResult(b, i) {
        var x :| 0 <= x < |b.terminal| && b.terminal[x] == i;
      }
    }
  }

  /** The results answer exactly the calls, in order; without an abort a finished batch
      holds a result of every call itself, none made up. */
  lemma BatchAnswers(calls: seq<Call>, terminalName: Option<string>, inputs: seq<BatchInput>)
    ensures var s := BatchRun(calls, terminalName, inputs);
      && |s.batch.settled| == |s.batch.calls| && Answers(calls, Results(s.batch))
      && (s.batch.over && !s.aborted ==> forall i :: 0 <= i < |calls| ==>
        HasResult(s.batch, i) && Results(s.batch)[i] == s.batch.settled[i].value)
  {
    BatchRunKeeps(calls, terminalName, inputs);
    var s := BatchRun(calls, terminalName, inputs);
    if s.batch.over && !s.aborted {
      forall i: nat | i < |calls| ensures HasResult(s.batch, i) { FinishedHasResult(s.batch, i); }
    }
  }

  lemma FinishedHasResult(b: Batch, i: nat)
    requires BatchInv(b, false) && b.over && i < |b.calls|
    ensures HasResult(b, i)
  {
    if i in b.ordinary {
      var x :| 0 <= x < |b.ordinary| && b.ordinary[x] == i;
    } else {
      var x :| 0 <= x < |b.terminal| && b.terminal[x] == i;
    }
  }

  // ----- a batch always returns -------------------------------------------------------------------

  function LaneWork(lane: Lane): nat {
    match lane
    case Ready => 1
    case Busy(_) => 2
    case Ended => 0
  }

  function LanesWork(lanes: seq<Lane>): nat {
    if lanes == [] then 0 else LanesWork(lanes[..|lanes| - 1]) + LaneWork(lanes[|lanes| - 1])
  }

  function PhaseWork(phase: Phase): nat {
    match phase
    case Idle => 5
    case PreHook => 4
    case PostHook => 3
    case Submitting => 2
    case Returning(_) => 1
  }

  /** Calls not started, lanes at work, the release, terminal calls with their phases, and
      the return itself. */
  function Work(b: Batch): int {
    3 * (|b.ordinary| - b.cursor) + LanesWork(b.lanes) + (if b.released then 0 else 1)
    + 6 * (|b.terminal| - b.tnext) + PhaseWork(b.phase) + (if b.over then 0 else 10)
  }

  lemma {:induction false} LaneChanges(lanes: seq<Lane>, l: nat, lane: Lane)
    requires l < |lanes|
    ensures LanesWork(lanes[l := lane]) == LanesWork(lanes) - LaneWork(lanes[l]) + LaneWork(lane)
  {
    var front, last := lanes[..|lanes| - 1], lanes[|lanes| - 1];
    if l == |lanes| - 1 {
      assert lanes[l := lane][..l] == front;
    } else {
      assert lanes[l := lane][..|lanes| - 1] == front[l := lane];
      LaneChanges(front, l, lane);
    }
  }

  lemma PickLowersWork(b: Batch, l: nat, aborted: bool)
    requires l < |b.lanes| && b.lanes[l].Ready?
    ensures Work(Pick(b, l, aborted).batch) < Work(b)
  {
    if b.cursor < |b.ordinary| { LaneChanges(b.lanes, l, Busy(b.ordinary[b.cursor])); }
    LaneChanges(b.lanes, l, Ended);
    hide LanesWork;
  }

  lemma ReturnLowersWork(b: Batch, l: nat, content: string, isError: bool, aborted: bool)
    requires l < |b.lanes| && b.lanes[l].Busy?
    ensures Work(Return(b, l, content, isError, aborted).batch) < Work(b)
  {
    LaneChanges(b.lanes, l, Ended);
    LaneChanges(b.lanes, l, Ready);
    hide LanesWork;
  }

  lemma MoveLowersWork(b: Batch, m: BatchMove, aborted: bool, gateOpen: bool)
    ensures var n := Advance(b, m, aborted, gateOpen).batch; n == b || Work(n) < Work(b)
  {
    hide LanesWork;
    hide Pick;
    hide Return;
    match m {
      case LanePick(l) => if l < |b.lanes| && b.lanes[l].Ready? { PickLowersWork(b, l, aborted); }
      case LaneReturn(l, content, isError) =>
        if l < |b.lanes| && b.lanes[l].Busy? { ReturnLowersWork(b, l, content, isError, aborted); }
      case _ =>
    }
  }

  /** How many of the inputs changed the batch. */
  ghost function Effective(calls: seq<Call>, terminalName: Option<string>, inputs: seq<BatchInput>): nat {
    if inputs == [] then 0
    else
      var front := inputs[..|inputs| - 1];
      Effective(calls, terminalName, front)
      + (if BatchRun(calls, terminalName, inputs).batch != BatchRun(calls, terminalName, front).batch then 1 else 0)
  }

  lemma {:induction false} EffectiveLowersWork(calls: seq<Call>, terminalName: Option<string>, inputs: seq<BatchInput>)
    ensures Effective(calls, terminalName, inputs) +
        Work(BatchRun(calls, terminalName, inputs).batch) <= Work(StartBatch(calls, terminalName))
  {
    if inputs != [] {
      var front := inputs[..|inputs| - 1];
      EffectiveLowersWork(calls, terminalName, front);
      hide Work;
      var s := BatchRun(calls, terminalName, front);
      match inputs[|inputs| - 1] {
        case Input(m, gateOpen) => MoveLowersWork(s.batch, m, s.aborted, gateOpen);
        case AbortNow =>
      }
      hide Advance;
    }
  }

  lemma {:induction false} ReadyWork(n: nat)
    ensures LanesWork(ReadyLanes(n)) == n
  {
    if n > 0 {
      assert ReadyLanes(n)[..n - 1] == ReadyLanes(n - 1);
      ReadyWork(n - 1);
    }
  }

  lemma {:induction false} KindsCount(calls: seq<Call>, terminalName: Option<string>)
    ensures |Indices(calls, terminalName, false)| + |Indices(calls, terminalName, true)| == |calls|
  {
    if calls != [] { KindsCount(calls[..|calls| - 1], terminalName); }
  }

  /** A move that takes the batch further, whatever the gate says. */
  ghost predicate Proceeds(s: BatchState, m: BatchMove) {
    forall gateOpen :: Advance(s.batch, m, s.aborted, gateOpen).batch != s.batch
  }

  lemma NextMove(s: BatchState) returns (m: BatchMove)
    requires BatchInv(s.batch, s.aborted) && !s.batch.over
    ensures Proceeds(s, m)
  {
    var b := s.batch;
    if l: nat :| l < |b.lanes| && b.lanes[l].Busy? {
      m := LaneReturn(l, "", false);
      assert b.lanes[l].call in b.ordinary;
    } else if l: nat :| l < |b.lanes| && b.lanes[l].Ready? {
      m := LanePick(l);
    } else if !b.released {
      m := Release;
      assert forall l :: 0 <= l < |b.lanes| ==> b.lanes[l] == Ended;
    } else {
      m := match b.phase
        case Idle => TerminalPick(true, "")
        case PreHook => PreHookReturn(None)
        case PostHook => PostHookReturn(None)
        case Submitting => VerdictReturn(Thrown(""))
        case Returning(_) => DispatchReturn;
    }
  }

  /** A batch always returns: until it has, some move takes it further, and in any
      interleaving at most six moves a call, and sixteen more, do. */
  lemma {:induction false} BatchAlwaysReturns(calls: seq<Call>, terminalName: Option<string>, inputs: seq<BatchInput>)
    ensures var s := BatchRun(calls, terminalName, inputs);
      && (!s.batch.over ==> exists m :: Proceeds(s, m))
      && Effective(calls, terminalName, inputs) <= 6 * |calls| + 16
  {
    BatchRunKeeps(calls, terminalName, inputs);
    EffectiveLowersWork(calls, terminalName, inputs);
    KindsCount(calls, terminalName);
    ReadyWork(LaneCount(|Indices(calls, terminalName, false)|));
    var s := BatchRun(calls, terminalName, inputs);
    hide BatchRun;
    if !s.batch.over { var m := NextMove(s); }
    WorkIsLeft(s.batch, s.aborted);
    hide BatchInv;
  }

  lemma WorkIsLeft(b: Batch, aborted: bool)
    requires BatchInv(b, aborted)
    ensures Work(b) >= 0
  {
  }
}
