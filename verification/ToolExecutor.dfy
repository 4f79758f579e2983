/** One batch execution as an object. */
module ToolExecutor {
  import opened Text
  import opened RunHistory
  import opened ToolBatch

  // The settled array, the shared cursor and the lanes; an asynchronous stretch is one method.

  class BatchExecution {
    const calls: seq<Call>
    const settled: array<Option<CallResult>>
    var ordinary: seq<nat>
    var terminal: seq<nat>
    var cursor: nat
    var lanes: seq<Lane>
    var released: bool
    var tnext: nat
    var phase: Phase
    var over: bool
    var emitted: seq<BatchEvent>
    ghost var started: seq<nat>

    ghost function View(): Batch
      reads this, settled
    {
      Batch(calls, ordinary, terminal, settled[..], cursor, lanes, released, tnext, phase, over, started)
    }

    ghost predicate Valid(aborted: bool)
      reads this, settled
    {
      BatchInv(View(), aborted)
    }

    twostate predicate Did(s: Stepped)
      reads this, settled
    {
      View() == s.batch && emitted == old(emitted) + s.events
    }

    /** Sort the calls into ordinary and terminal ones, in call order. */
    constructor (calls: seq<Call>, terminalName: Option<string>)
      ensures View() == StartBatch(calls, terminalName) && emitted == [] && fresh(settled)
      ensures forall aborted :: Valid(aborted)
    {
      this.calls := calls;
      settled := new Option<CallResult>[|calls|](_ => None);
      var o: seq<nat>, t: seq<nat> := [], [];
      for i := 0 to |calls|
        invariant o == Indices(calls[..i], terminalName, false) && t == Indices(calls[..i], terminalName, true)
      {
        assert calls[..i + 1][..i] == calls[..i];
        if IsTerminalCall(calls[i], terminalName) { t := t + [i]; } else { o := o + [i]; }
      }
      assert calls[..|calls|] == calls;
      ordinary, terminal, cursor, released, tnext, phase, over := o, t, 0, false, 0, Idle, false;
      lanes := ReadyLanes(LaneCount(|o|));
      emitted, started := [], [];
      new;
      assert settled[..] == Unsettled(|calls|);
      StartKeeps(calls, terminalName, false);
      StartKeeps(calls, terminalName, true);
    }

    /** A lane looks for its next call. */
    method LanePick(l: nat, aborted: bool)
      requires Valid(aborted) && !over && l < |lanes| && lanes[l].Ready?
      modifies this
      ensures Valid(aborted) && Did(Pick(old(View()), l, aborted))
    {
      hide BatchInv;
      PickKeeps(View(), l, aborted);
      NextIsACall(View(), aborted);
      if cursor < |ordinary| && !aborted {
        var index := ordinary[cursor];
        cursor := cursor + 1;
        Dispatched(index);
        lanes := lanes[l := Busy(index)];
      } else {
        lanes := lanes[l := Ended];
      }
    }

    method Dispatched(index: nat)
      requires index < |calls|
      modifies this`emitted, this`started
      ensures emitted == old(emitted) + [ToolStarted(calls[index].id)] && started == old(started) + [index]
    {
      emitted := emitted + [ToolStarted(calls[index].id)];
      started := started + [index];
    }

    /** A call came back; after an abort its result is dropped. */
    method LaneReturn(l: nat, content: string, isError: bool, aborted: bool)
      requires Valid(aborted) && !over && l < |lanes| && lanes[l].Busy?
      modifies this, settled
      ensures Valid(aborted) && Did(Return(old(View()), l, content, isError, aborted))
    {
      ReturnKeeps(View(), l, content, isError, aborted);
      BusyIsACall(View(), l, aborted);
      hide BatchInv;
      var index := lanes[l].call;
      if aborted {
        lanes := lanes[l := Ended];
        return;
      }
      Record(index, CallResult(calls[index].id, content, isError, false));
      lanes := lanes[l := Ready];
    }

    method Record(index: nat, result: CallResult)
      requires index < settled.Length
      modifies this`emitted, settled
      ensures settled[..] == old(settled[..])[index := Some(result)]
      ensures emitted == old(emitted) + [ToolCompleted(result.id, result.isError, result.isTerminal)]
    {
      settled[index] := Some(result);
      emitted := emitted + [ToolCompleted(result.id, result.isError, result.isTerminal)];
    }

    /** The lanes have all ended, or the abort got there first. */
    method ReleaseLanes(aborted: bool)
      requires Valid(aborted) && !over && (aborted || AllEnded(lanes))
      modifies this`released
      ensures Valid(aborted) && View() == old(View()).(released := true) && emitted == old(emitted)
    {
      ReleaseKeeps(View(), aborted);
      hide BatchInv;
      released := true;
    }

    /** The next terminal call, unless there is none left or the batch was aborted. */
    method TerminalPick(valid: bool, refusal: string, aborted: bool)
      requires Valid(aborted) && !over && released && phase.Idle?
      modifies this
      ensures Valid(aborted) && Did(StartTerminal(old(View()), valid, refusal, aborted))
    {
      hide BatchInv;
      StartTerminalKeeps(View(), valid, refusal, aborted);
      TerminalIsACall(View(), aborted);
      if tnext == |terminal| || aborted {
        over := true;
        return;
      }
      var index := terminal[tnext];
      Dispatched(index);
      phase := if valid then PreHook else Returning(Refused(calls[index].id, refusal));
    }

    /** The id of the terminal call at hand. */
    function CallAtHand(): (id: string)
      requires tnext < |terminal| && terminal[tnext] < |calls|
      reads this
    {
      calls[terminal[tnext]].id
    }

    /** The terminal call's run goes on to its next await, or has its result. */
    method Await(next: Phase, aborted: bool)
      requires Valid(aborted) && !over && !phase.Idle? && AtTerminal(View())
      requires next.PostHook? || next.Submitting? || (next.Returning? && next.result.id == TerminalId(View()))
      modifies this`phase
      ensures Valid(aborted) && View() == old(View()).(phase := next) && emitted == old(emitted)
    {
      if next.Returning? { RefusalKeeps(View(), next.result, aborted); } else { PhaseKeeps(View(), next, aborted); }
      hide BatchInv;
      phase := next;
    }

    /** The terminal call's run came back. */
    method TerminalReturn(aborted: bool)
      requires Valid(aborted) && !over && phase.Returning?
      modifies this, settled
      ensures AtTerminal(old(View())) && Valid(aborted) && Did(FinishTerminal(old(View()), old(phase).result, aborted))
    {
      hide BatchInv;
      FinishTerminalKeeps(View(), phase.result, aborted);
      ReturningIsACall(View(), aborted);
      var result := phase.result;
      phase := Idle;
      if aborted {
        over := true;
        return;
      }
      Record(terminal[tnext], result);
      tnext := tnext + 1;
    }

    /** One result per call, in call order. */
    method Collect(ghost aborted: bool) returns (results: seq<CallResult>)
      requires Valid(aborted)
      ensures results == Results(View()) && Answers(calls, results)
    {
      results := [];
      for i := 0 to |calls|
        invariant |results| == i && forall k :: 0 <= k < i ==> results[k] == Results(View())[k]
      {
        results := results + [if settled[i].Some? then settled[i].value else Interrupted(calls[i].id)];
      }
    }
  }

  lemma NextIsACall(b: Batch, aborted: bool)
    requires BatchInv(b, aborted)
    ensures b.cursor < |b.ordinary| ==> b.ordinary[b.cursor] < |b.calls|
  {
    if b.cursor < |b.ordinary| { assert b.ordinary[b.cursor] in b.ordinary; }
  }

  lemma BusyIsACall(b: Batch, l: nat, aborted: bool)
    requires BatchInv(b, aborted) && l < |b.lanes| && b.lanes[l].Busy?
    ensures b.lanes[l].call < |b.calls| == |b.settled|
  {
    assert b.lanes[l].call in b.ordinary;
  }

  lemma TerminalIsACall(b: Batch, aborted: bool)
    requires BatchInv(b, aborted)
    ensures b.tnext <= |b.terminal| && (AtTerminal(b) <==> b.tnext < |b.terminal|)
  {
    if b.tnext < |b.terminal| { assert b.terminal[b.tnext] in b.terminal; }
  }

  lemma ReturningIsACall(b: Batch, aborted: bool)
    requires BatchInv(b, aborted) && b.phase.Returning?
    ensures AtTerminal(b)
  {
  }
}
