/** Whose results a batch returns. */
module BatchResults {
  import opened Text
  import opened RunHistory
  import opened ToolBatch

  // Every result was given by the call's own tool, or by the submission gate for a terminal
  // call, and is kept as it was given.

  /** A lane at work on call `i` returned this. */
  predicate ToolGave(b: Batch, m: BatchMove, i: nat, r: CallResult) {
    && m.LaneReturn? && m.lane < |b.lanes| && b.lanes[m.lane] == Busy(i) && i < |b.calls|
    && r == CallResult(b.calls[i].id, m.content, m.isError, false)
  }

  /** The terminal call at hand, `i`, was refused, denied, turned down or accepted with this. */
  predicate GateGave(b: Batch, m: BatchMove, gateOpen: bool, i: nat, r: CallResult) {
    && b.tnext < |b.terminal| && i == b.terminal[b.tnext] && i < |b.calls| && r.id == b.calls[i].id
    && match m
       case TerminalPick(valid, refusal) => b.phase.Idle? && !valid && IsError(r, refusal)
       case PreHookReturn(denied) =>
         b.phase.PreHook? &&
         (if denied.Some? then IsError(r, denied.value) else !gateOpen && IsError(r, "submission denied"))
       case PostHookReturn(denied) => b.phase.PostHook? && denied.Some? && IsError(r, denied.value)
       case VerdictReturn(v) =>
         b.phase.Submitting? &&
         (match v
          case Thrown(text) => IsError(r, "onSubmit failed: " + text)
          case Rejects(text) => IsError(r, text)
          case Accepts(_) => r.content == "submission accepted" && !r.isError && r.isTerminal)
       case _ => false
  }

  predicate IsError(r: CallResult, text: string) {
    r.content == text && r.isError && !r.isTerminal
  }

  predicate Gave(b: Batch, m: BatchMove, gateOpen: bool, i: nat, r: CallResult) {
    ToolGave(b, m, i, r) || GateGave(b, m, gateOpen, i, r)
  }

  /** What one move adds to the results. */
  lemma AdvanceGives(b: Batch, m: BatchMove, aborted: bool, gateOpen: bool)
    requires BatchInv(b, aborted)
    ensures var n := Advance(b, m, aborted, gateOpen).batch;
      forall i: nat :: HasResult(n, i) ==>
        || (HasResult(b, i) && n.settled[i] == b.settled[i])
        || ToolGave(b, m, i, n.settled[i].value)
        || (b.phase == Returning(n.settled[i].value) && AtTerminal(b) && i == b.terminal[b.tnext])
  {
    if m.LaneReturn? && m.lane < |b.lanes| && b.lanes[m.lane].Busy? { assert b.lanes[m.lane].call in b.ordinary; }
  }

  /** What one move leaves waiting to be recorded. */
  lemma AdvanceAwaits(b: Batch, m: BatchMove, aborted: bool, gateOpen: bool)
    requires BatchInv(b, aborted)
    ensures var n := Advance(b, m, aborted, gateOpen).batch;
      n.phase.Returning? ==>
        n.tnext == b.tnext && AtTerminal(b) &&
        (n.phase == b.phase || GateGave(b, m, gateOpen, b.terminal[b.tnext], n.phase.result))
  {
  }

  /** A result, once there, stays; and what a tool or the gate gave is recorded unless the
      run was interrupted first. */
  lemma AdvanceRecords(b: Batch, m: BatchMove, aborted: bool, gateOpen: bool)
    requires BatchInv(b, aborted)
    ensures var n := Advance(b, m, aborted, gateOpen).batch;
      && (forall i: nat :: HasResult(b, i) ==> HasResult(n, i) && n.settled[i] == b.settled[i])
      && (!aborted && !b.over ==>
            forall i: nat, r :: ToolGave(b, m, i, r) ==> i < |n.settled| && n.settled[i] == Some(r))
      && (!aborted && !b.over && m.DispatchReturn? && b.phase.Returning? ==>
            AtTerminal(b) && n.settled[b.terminal[b.tnext]] == Some(b.phase.result))
      && (!b.over ==>
            forall i: nat, r :: GateGave(b, m, gateOpen, i, r) && b.released && !aborted ==> n.phase == Returning(r))
  {
    if m.LaneReturn? && m.lane < |b.lanes| && b.lanes[m.lane].Busy? { assert b.lanes[m.lane].call in b.ordinary; }
    if b.tnext < |b.terminal| { assert b.terminal[b.tnext] in b.terminal; }
  }

  // ----- whole batches ------------------------------------------------------------------------

  /** The input at `t` gave call `i` this result. */
  ghost predicate GivenAt(calls: seq<Call>, terminalName: Option<string>, inputs: seq<BatchInput>, t: nat, i: nat,
      r: CallResult)
  {
    && t < |inputs| && inputs[t].Input?
    && var b := BatchRun(calls, terminalName, inputs[..t]).batch;
       if i < |calls| && IsTerminalCall(calls[i], terminalName)
       then GateGave(b, inputs[t].move, inputs[t].gateOpen, i, r)
       else ToolGave(b, inputs[t].move, i, r)
  }

  ghost predicate Given(calls: seq<Call>, terminalName: Option<string>, inputs: seq<BatchInput>, i: nat,
      r: CallResult)
  {
    exists t: nat :: GivenAt(calls, terminalName, inputs, t, i, r)
  }

  lemma GivenStays(calls: seq<Call>, terminalName: Option<string>, inputs: seq<BatchInput>, input: BatchInput, i: nat,
      r: CallResult)
    requires Given(calls, terminalName, inputs, i, r)
    ensures Given(calls, terminalName, inputs + [input], i, r)
  {
    var t: nat :| GivenAt(calls, terminalName, inputs, t, i, r);
    assert (inputs + [input])[..t] == inputs[..t];
    assert GivenAt(calls, terminalName, inputs + [input], t, i, r);
  }

  ghost predicate AllGiven(calls: seq<Call>, terminalName: Option<string>, inputs: seq<BatchInput>) {
    var b := BatchRun(calls, terminalName, inputs).batch;
    && (forall i: nat :: HasResult(b, i) ==> Given(calls, terminalName, inputs, i, b.settled[i].value))
    && (b.phase.Returning? ==>
          b.tnext < |b.terminal| && Given(calls, terminalName, inputs, b.terminal[b.tnext], b.phase.result))
  }

  lemma KindOf(calls: seq<Call>, terminalName: Option<string>, inputs: seq<BatchInput>, i: nat)
    ensures var b := BatchRun(calls, terminalName, inputs).batch;
      && (i in b.terminal ==> i < |calls| && IsTerminalCall(calls[i], terminalName))
      && (i in b.ordinary ==> i < |calls| && !IsTerminalCall(calls[i], terminalName))
  {
    BatchRunKeeps(calls, terminalName, inputs);
  }

  lemma {:induction false} EverythingGiven(calls: seq<Call>, terminalName: Option<string>, inputs: seq<BatchInput>)
    ensures AllGiven(calls, terminalName, inputs)
  {
    hide Given;
    hide Advance;
    hide BatchInv;
    if inputs != [] {
      var front, last := inputs[..|inputs| - 1], inputs[|inputs| - 1];
      assert front + [last] == inputs;
      EverythingGiven(calls, terminalName, front);
      BatchRunKeeps(calls, terminalName, front);
      var b, n := BatchRun(calls, terminalName, front).batch, BatchRun(calls, terminalName, inputs).batch;
      forall i: nat | HasResult(n, i) ensures Given(calls, terminalName, inputs, i, n.settled[i].value) {
        ResultGiven(calls, terminalName, front, last, i);
      }
      if n.phase.Returning? { PhaseGiven(calls, terminalName, front, last); }
    }
  }

  lemma LaneIsOrdinary(b: Batch, aborted: bool, l: nat)
    requires BatchInv(b, aborted) && l < |b.lanes| && b.lanes[l].Busy?
    ensures b.lanes[l].call in b.ordinary
  {
  }

  /** What the input just gave to an ordinary call counts as given. */
  lemma ToolGivesNow(calls: seq<Call>, terminalName: Option<string>, front: seq<BatchInput>, last: BatchInput, i: nat,
      r: CallResult)
    requires last.Input? && ToolGave(BatchRun(calls, terminalName, front).batch, last.move, i, r)
    ensures Given(calls, terminalName, front + [last], i, r)
  {
    var s := BatchRun(calls, terminalName, front);
    BatchRunKeeps(calls, terminalName, front);
    LaneIsOrdinary(s.batch, s.aborted, last.move.lane);
    KindOf(calls, terminalName, front, i);
    hide BatchRun;
    hide BatchInv;
    hide GateGave;
    assert (front + [last])[..|front|] == front && (front + [last])[|front|] == last;
    assert GivenAt(calls, terminalName, front + [last], |front|, i, r);
  }

  ghost function AfterInput(s: BatchState, input: BatchInput): BatchState {
    match input
    case Input(m, gateOpen) => BatchState(Advance(s.batch, m, s.aborted, gateOpen).batch, s.aborted)
    case AbortNow => BatchState(s.batch, true)
  }

  lemma InputResults(s: BatchState, last: BatchInput, n: BatchState, i: nat)
    requires BatchInv(s.batch, s.aborted) && n == AfterInput(s, last) && HasResult(n.batch, i)
    ensures var r := n.batch.settled[i].value;
      || (HasResult(s.batch, i) && s.batch.settled[i].value == r)
      || (last.Input? && ToolGave(s.batch, last.move, i, r))
      || (s.batch.phase == Returning(r) && AtTerminal(s.batch) && i == s.batch.terminal[s.batch.tnext])
  {
    if last.Input? { AdvanceGives(s.batch, last.move, s.aborted, last.gateOpen); }
    hide Advance;
    hide BatchInv;
  }

  lemma ResultGiven(calls: seq<Call>, terminalName: Option<string>, front: seq<BatchInput>, last: BatchInput, i: nat)
    requires AllGiven(calls, terminalName, front)
    requires HasResult(BatchRun(calls, terminalName, front + [last]).batch, i)
    ensures Given(calls, terminalName, front + [last], i,
                  BatchRun(calls, terminalName, front + [last]).batch.settled[i].value)
  {
    assert (front + [last])[..|front|] == front;
    var s, n := BatchRun(calls, terminalName, front), BatchRun(calls, terminalName, front + [last]);
    BatchRunKeeps(calls, terminalName, front);
    assert n == AfterInput(s, last);
    hide BatchRun;
    hide BatchInv;
    hide Given;
    hide ToolGave;
    hide AfterInput;
    var r := n.batch.settled[i].value;
    InputResults(s, last, n, i);
    if last.Input? && ToolGave(s.batch, last.move, i, r) { ToolGivesNow(calls, terminalName, front, last, i, r); }
    else { GivenStays(calls, terminalName, front, last, i, r); }
  }

  lemma PhaseGiven(calls: seq<Call>, terminalName: Option<string>, front: seq<BatchInput>, last: BatchInput)
    requires AllGiven(calls, terminalName, front)
    requires BatchRun(calls, terminalName, front + [last]).batch.phase.Returning?
    ensures var n := BatchRun(calls, terminalName, front + [last]).batch;
      n.tnext < |n.terminal| && Given(calls, terminalName, front + [last], n.terminal[n.tnext], n.phase.result)
  {
    var inputs := front + [last];
    assert inputs[..|front|] == front;
    var s, n := BatchRun(calls, terminalName, front), BatchRun(calls, terminalName, inputs).batch;
    BatchRunKeeps(calls, terminalName, front);
    BatchRunKeeps(calls, terminalName, inputs);
    if last.Input? { AdvanceAwaits(s.batch, last.move, s.aborted, last.gateOpen); }
    hide Advance;
    hide GateGave;
    var i := n.terminal[n.tnext];
    assert i in n.terminal;
    KindOf(calls, terminalName, inputs, i);
    if s.batch.phase == n.phase {
      GivenStays(calls, terminalName, front, last, i, n.phase.result);
    } else {
      assert GivenAt(calls, terminalName, inputs, |front|, i, n.phase.result);
    }
  }

  /** In any interleaving, whatever result a call has was given for that call: an ordinary one
      by the lane at work on it, a terminal one by a refusal, a denial or the host's verdict. */
  lemma ResultsWereGiven(calls: seq<Call>, terminalName: Option<string>, inputs: seq<BatchInput>, i: nat)
    requires HasResult(BatchRun(calls, terminalName, inputs).batch, i)
    ensures Given(calls, terminalName, inputs, i, BatchRun(calls, terminalName, inputs).batch.settled[i].value)
  {
    EverythingGiven(calls, terminalName, inputs);
    hide Given;
  }

  /** The state of a batch that is to go on: not over, and not interrupted. */
  ghost predicate GoingOn(s: BatchState) {
    !s.aborted && !s.batch.over
  }

  lemma {:induction false} ResultsStay(calls: seq<Call>, terminalName: Option<string>, inputs: seq<BatchInput>,
      more: seq<BatchInput>, i: nat)
    requires HasResult(BatchRun(calls, terminalName, inputs).batch, i)
    ensures var b := BatchRun(calls, terminalName, inputs).batch;
      var later := BatchRun(calls, terminalName, inputs + more).batch;
      HasResult(later, i) && later.settled[i] == b.settled[i]
    decreases |more|
  {
    hide Advance;
    hide BatchInv;
    if more == [] {
      assert inputs + more == inputs;
    } else {
      var front, last := more[..|more| - 1], more[|more| - 1];
      assert (inputs + more)[..|inputs + more| - 1] == inputs + front;
      ResultsStay(calls, terminalName, inputs, front, i);
      var s := BatchRun(calls, terminalName, inputs + front);
      BatchRunKeeps(calls, terminalName, inputs + front);
      if last.Input? { AdvanceRecords(s.batch, last.move, s.aborted, last.gateOpen); }
    }
  }

  /** Conversely, what a tool returns to a batch that goes on is that call's result for good;
      so is a terminal call's once it comes back. */
  lemma GivenIsKept(calls: seq<Call>, terminalName: Option<string>, inputs: seq<BatchInput>, input: BatchInput,
      more: seq<BatchInput>, i: nat, r: CallResult)
    requires GoingOn(BatchRun(calls, terminalName, inputs)) && input.Input?
    requires var b := BatchRun(calls, terminalName, inputs).batch;
      ToolGave(b, input.move, i, r) ||
      (input.move.DispatchReturn? && b.phase == Returning(r) && b.tnext < |b.terminal| && i == b.terminal[b.tnext])
    ensures var later := BatchRun(calls, terminalName, inputs + [input] + more).batch;
      i < |later.settled| && later.settled[i] == Some(r)
  {
    var s, n := BatchRun(calls, terminalName, inputs), BatchRun(calls, terminalName, inputs + [input]);
    assert (inputs + [input])[..|inputs|] == inputs;
    assert n == AfterInput(s, input);
    BatchRunKeeps(calls, terminalName, inputs);
    hide BatchRun;
    hide Advance;
    hide BatchInv;
    AdvanceRecords(s.batch, input.move, s.aborted, input.gateOpen);
    assert HasResult(n.batch, i) && n.batch.settled[i] == Some(r);
    hide AfterInput;
    ResultsStay(calls, terminalName, inputs + [input], more, i);
  }

  /** What the gate gives to a batch that goes on waits there for its return. */
  lemma GateGiftWaits(calls: seq<Call>, terminalName: Option<string>, inputs: seq<BatchInput>, input: BatchInput,
      i: nat, r: CallResult)
    requires GoingOn(BatchRun(calls, terminalName, inputs)) && input.Input?
    requires var b := BatchRun(calls, terminalName, inputs).batch;
      b.released && GateGave(b, input.move, input.gateOpen, i, r)
    ensures var n := BatchRun(calls, terminalName, inputs + [input]).batch;
      n.phase == Returning(r) && n.tnext < |n.terminal| && i == n.terminal[n.tnext] && !n.over
  {
    var s := BatchRun(calls, terminalName, inputs);
    assert (inputs + [input])[..|inputs|] == inputs;
    BatchRunKeeps(calls, terminalName, inputs);
    BatchRunKeeps(calls, terminalName, inputs + [input]);
    AdvanceRecords(s.batch, input.move, s.aborted, input.gateOpen);
    AdvanceAwaits(s.batch, input.move, s.aborted, input.gateOpen);
    StaysOnGift(s.batch, input.move, s.aborted, input.gateOpen, i, r);
    hide Advance;
    hide BatchInv;
  }

  lemma StaysOnGift(b: Batch, m: BatchMove, aborted: bool, gateOpen: bool, i: nat, r: CallResult)
    requires BatchInv(b, aborted) && !b.over && !aborted && GateGave(b, m, gateOpen, i, r)
    ensures var n := Advance(b, m, aborted, gateOpen).batch; !n.over && n.terminal == b.terminal && n.tnext == b.tnext
  {
    if b.tnext < |b.terminal| { assert b.terminal[b.tnext] in b.terminal; }
  }
}
