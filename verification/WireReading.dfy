/** What a responses stream says, read off its events. */
module WireReading {
  import opened Text
  import opened ResponsesDecoder

  // Read from the positions of the events alone, without a decoder's buffers; then the
  // decoder is shown to read the same.

  /** The text that the first `n` events stream. */
  function WireText(events: seq<WireEvent>, n: nat): string
    requires n <= |events|
  {
    if n == 0 then ""
    else WireText(events, n - 1) + (if events[n - 1].OutputTextDelta? then events[n - 1].delta else "")
  }

  function WireReasoning(events: seq<WireEvent>, n: nat): string
    requires n <= |events|
  {
    if n == 0 then ""
    else WireReasoning(events, n - 1) + (if events[n - 1].ReasoningSummaryDelta? then events[n - 1].delta else "")
  }

  predicate Opens(e: WireEvent, id: string) {
    e.ItemAdded? && e.functionCall && e.itemId == id
  }

  /** Where the call `id` was opened that is still open after `n` events. */
  function OpenedAt(events: seq<WireEvent>, n: nat, id: string): (k: Option<nat>)
    requires n <= |events|
    ensures k.Some? ==> k.value < n && Opens(events[k.value], id)
  {
    if n == 0 || events[n - 1] == ArgumentsDone(id) then None
    else if Opens(events[n - 1], id) then Some(n - 1)
    else OpenedAt(events, n - 1, id)
  }

  /** The argument texts for `id` between its opening at `k` and event `n`. */
  function Arguments(events: seq<WireEvent>, k: nat, n: nat, id: string): string
    requires n <= |events|
  {
    if n <= k + 1 then ""
    else
      var e := events[n - 1];
      Arguments(events, k, n - 1, id) + (if e.ArgumentsDelta? && e.itemId == id then e.delta else "")
  }

  /** The call that event `n` closes, with all its arguments. */
  function ClosedCall(events: seq<WireEvent>, n: nat): Option<Block>
    requires n < |events|
  {
    if !events[n].ArgumentsDone? then None
    else
      var id := events[n].itemId;
      match OpenedAt(events, n, id)
      case None => None
      case Some(k) => Some(ToolUse(events[k].callId, events[k].name, Arguments(events, k, n, id)))
  }

  /** The function calls that the first `n` events close, in closing order. */
  function WireCalls(events: seq<WireEvent>, n: nat): (calls: seq<Block>)
    requires n <= |events|
    ensures forall c :: c in calls ==> c.ToolUse?
  {
    if n == 0 then []
    else
      var call := ClosedCall(events, n - 1);
      WireCalls(events, n - 1) + (if call.Some? then [call.value] else [])
  }

  /** The stream ends here: with its terminal event, a reported error, or a call without an id. */
  predicate Stops(events: seq<WireEvent>, n: nat)
    requires n < |events|
  {
    || events[n].Terminus? || events[n].ResponseFailed? || events[n].ErrorEvent?
    || (ClosedCall(events, n).Some? && ClosedCall(events, n).value.id == "")
  }

  /** The message that the terminal event `n` completes. */
  predicate Completes(events: seq<WireEvent>, n: nat, e: LlmEvent)
    requires n < |events| && events[n].Terminus?
  {
    var r, calls := events[n].response, WireCalls(events, n);
    && e.MessageComplete?
    && e.content == Content(WireReasoning(events, n), WireText(events, n), calls)
    && e.usage.output == (if r.outputTokens.Some? then r.outputTokens.value else 0)
    && e.usage.cacheRead == r.cachedTokens
    && (var input := if r.inputTokens.Some? then r.inputTokens.value else 0;
        var cached := if r.cachedTokens.Some? then r.cachedTokens.value else 0;
        if cached <= input then e.usage.input + cached == input else e.usage.input == 0)
    && (calls != [] ==> e.stopReason == "tool_use")
    && (calls == [] && r.status == "completed" ==> e.stopReason == "end_turn")
    && (calls == [] && r.status == "incomplete" && r.incompleteReason == Some("max_output_tokens") ==>
          e.stopReason == "max_tokens")
    && (calls == [] && r.status == "incomplete" && r.incompleteReason.None? ==> e.stopReason == "incomplete")
    && (calls == [] && r.status == "incomplete" && r.incompleteReason.Some? ==>
          e.stopReason == r.incompleteReason.value || r.incompleteReason.value == "max_output_tokens")
    && (calls == [] && r.status != "completed" && r.status != "incomplete" ==> e.stopReason == r.status)
  }

  /** What is forwarded for event `n`, before the stream ends. */
  function OutputAt(events: seq<WireEvent>, n: nat): seq<LlmEvent>
    requires n < |events|
  {
    match events[n]
    case OutputTextDelta(t) => [TextDelta(t)]
    case ReasoningSummaryDelta(t) => [ReasoningDelta(t)]
    case ArgumentsDone(_) =>
      (match ClosedCall(events, n)
       case None => []
       case Some(c) => if c.ToolUse? then [ToolUseDelta(c.id, c.name, c.arguments)] else [])
    case _ => []
  }

  /** What is forwarded for events `i` up to `n`. */
  function OutputsOf(events: seq<WireEvent>, i: nat, n: nat): seq<LlmEvent>
    requires n <= |events|
    decreases n - i
  {
    if i >= n then [] else OutputAt(events, i) + OutputsOf(events, i + 1, n)
  }

  /** Where the stream ends, from event `i` on. */
  function StopIndex(events: seq<WireEvent>, i: nat): (n: nat)
    requires i <= |events|
    ensures i <= n <= |events| && (n < |events| ==> Stops(events, n))
    ensures forall j :: i <= j < n ==> !Stops(events, j)
    decreases |events| - i
  {
    if i == |events| || Stops(events, i) then i else StopIndex(events, i + 1)
  }

  // ----- the decoder reads the same -----------------------------------------------------------

  /** The decoder after the first `n` events. */
  ghost predicate Tracks(d: Decoder, events: seq<WireEvent>, n: nat)
    requires n <= |events|
  {
    && !d.completed
    && d.text == WireText(events, n) && d.reasoning == WireReasoning(events, n) && d.tools == WireCalls(events, n)
    && forall id :: TracksItem(d.items, events, n, id)
  }

  predicate TracksItem(items: map<string, Item>, events: seq<WireEvent>, n: nat, id: string)
    requires n <= |events|
  {
    match OpenedAt(events, n, id)
    case None => id !in items
    case Some(k) => id in items && items[id] == Item(events[k].callId, events[k].name, Arguments(events, k, n, id))
  }

  lemma NothingMore(s: string, calls: seq<Block>)
    ensures s + "" == s && calls + [] == calls
  {
  }

  lemma StepTracksItem(d: Decoder, events: seq<WireEvent>, n: nat, id: string)
    requires n < |events| && TracksItem(d.items, events, n, id) && !Stops(events, n)
    requires events[n].ArgumentsDone? ==> TracksItem(d.items, events, n, events[n].itemId)
    ensures TracksItem(DecodeOne(d, events[n]).decoder.items, events, n + 1, id)
  {
    var k := OpenedAt(events, n, id);
    if k.Some? { NothingMore(Arguments(events, k.value, n, id), []); }
    hide Complete;
  }

  lemma StepTracks(d: Decoder, events: seq<WireEvent>, n: nat)
    requires n < |events| && Tracks(d, events, n) && !Stops(events, n)
    ensures var h := DecodeOne(d, events[n]);
      h.failure.None? && Tracks(h.decoder, events, n + 1) && h.events == OutputAt(events, n)
  {
    NothingMore(d.text, d.tools);
    NothingMore(d.reasoning, d.tools);
    var items, next := DecodeOne(d, events[n]).decoder.items, n + 1;
    forall id ensures TracksItem(items, events, next, id) {
      assert TracksItem(d.items, events, n, id);
      if events[n].ArgumentsDone? { assert TracksItem(d.items, events, n, events[n].itemId); }
      StepTracksItem(d, events, n, id);
    }
    if events[n].ArgumentsDone? { assert TracksItem(d.items, events, n, events[n].itemId); }
    hide Complete;
    hide Arguments;
  }

  predicate FailedAs(failure: Option<ProviderError>, message: string) {
    failure == Some(ProviderError(Decode, message, None, false))
  }

  /** `h` is what the events from `i` on say, up to where they stop at `n`: the forwarded
      output, then the completion, the reported failure, or nothing when they run out. */
  ghost predicate Says(h: Handled, events: seq<WireEvent>, i: nat, n: nat)
    requires i <= n <= |events|
  {
    if n == |events| then h.failure.None? && !h.decoder.completed && h.events == OutputsOf(events, i, n)
    else if events[n].Terminus? then
      && h.failure.None? && h.decoder.completed && |h.events| >= 1
      && h.events[..|h.events| - 1] == OutputsOf(events, i, n) && Completes(events, n, h.events[|h.events| - 1])
    else
      && !h.decoder.completed && h.events == OutputsOf(events, i, n)
      && (events[n].ResponseFailed? ==> FailedAs(h.failure, events[n].message))
      && (events[n].ErrorEvent? ==> FailedAs(h.failure, events[n].message))
      && (events[n].ArgumentsDone? ==> FailedAs(h.failure, "function call missing call id"))
  }

  lemma StopSays(d: Decoder, events: seq<WireEvent>, n: nat)
    requires n < |events| && Tracks(d, events, n) && Stops(events, n)
    ensures Says(DecodeFrom(d, events[n..]), events, n, n)
  {
    assert events[n..][0] == events[n];
    if events[n].ArgumentsDone? { assert TracksItem(d.items, events, n, events[n].itemId); }
    var h := DecodeOne(d, events[n]);
    assert events[n].Terminus? ==> h.events + DecodeFrom(h.decoder, events[n..][1..]).events == h.events;
    hide Content;
    hide Arguments;
  }

  lemma SaysMore(h: Handled, rest: Handled, events: seq<WireEvent>, i: nat, n: nat)
    requires i + 1 <= n <= |events| && Says(rest, events, i + 1, n) && h.events == OutputAt(events, i)
    ensures Says(Handled(rest.decoder, h.events + rest.events, rest.failure), events, i, n)
  {
    hide Completes;
    hide OutputAt;
    hide Stops;
  }

  /** The decoder tells what the rest of the stream says. */
  lemma {:induction false} ReadOn(d: Decoder, events: seq<WireEvent>, i: nat)
    requires i <= |events| && Tracks(d, events, i)
    ensures Says(DecodeFrom(d, events[i..]), events, i, StopIndex(events, i))
    decreases |events| - i
  {
    assert !d.completed;
    if i < |events| {
      if Stops(events, i) {
        StopSays(d, events, i);
      } else {
        assert events[i..][0] == events[i] && events[i..][1..] == events[i + 1..];
        StepTracks(d, events, i);
        var h := DecodeOne(d, events[i]);
        ReadOn(h.decoder, events, i + 1);
        SaysMore(h, DecodeFrom(h.decoder, events[i + 1..]), events, i, StopIndex(events, i + 1));
      }
    }
    hide Tracks;
    hide DecodeOne;
    hide OutputAt;
    hide Stops;
    hide Completes;
  }

  /** A decoded stream says exactly what was on the wire, whatever was. */
  lemma StreamIsRead(events: seq<WireEvent>)
    ensures Says(DecodeFrom(NEW_DECODER, events), events, 0, StopIndex(events, 0))
  {
    assert events[0..] == events;
    ReadOn(NEW_DECODER, events, 0);
  }

  lemma {:induction false} OutputsOfEnd(events: seq<WireEvent>, i: nat, n: nat)
    requires i < n <= |events|
    ensures OutputsOf(events, i, n) == OutputsOf(events, i, n - 1) + OutputAt(events, n - 1)
    decreases n - i
  {
    hide OutputAt;
    if i < n - 1 {
      OutputsOfEnd(events, i + 1, n);
      var a, b, c := OutputAt(events, i), OutputsOf(events, i + 1, n - 1), OutputAt(events, n - 1);
      assert a + (b + c) == a + b + c;
    } else {
      assert OutputsOf(events, n, n) == [] && OutputsOf(events, i, i) == [];
    }
  }

  /** What one event adds to text, reasoning and calls is what is forwarded for it. */
  lemma EventHolds(events: seq<WireEvent>, n: nat, out: seq<LlmEvent>)
    requires n < |events| && Texts(out) == WireText(events, n) && Reasonings(out) == WireReasoning(events, n)
    requires ToolUses(out) == WireCalls(events, n) && NoCompletion(out)
    ensures var more := out + OutputAt(events, n);
      && Texts(more) == WireText(events, n + 1) && Reasonings(more) == WireReasoning(events, n + 1)
      && ToolUses(more) == WireCalls(events, n + 1) && NoCompletion(more)
  {
    hide Arguments;
    hide OpenedAt;
    NothingMore(WireText(events, n), WireCalls(events, n));
    NothingMore(WireReasoning(events, n), []);
    var more := OutputAt(events, n);
    if more == [] {
      assert out + [] == out;
    } else {
      assert more == [more[0]];
      ReadBackOne(out, more[0]);
    }
  }

  /** Read back, what was forwarded is the streamed text, reasoning and calls. */
  lemma {:induction false} OutputsHold(events: seq<WireEvent>, n: nat)
    requires n <= |events|
    ensures var out := OutputsOf(events, 0, n);
      Texts(out) == WireText(events, n) && Reasonings(out) == WireReasoning(events, n) &&
      ToolUses(out) == WireCalls(events, n) && NoCompletion(out)
  {
    if n > 0 {
      OutputsHold(events, n - 1);
      OutputsOfEnd(events, 0, n);
      hide *;
      EventHolds(events, n - 1, OutputsOf(events, 0, n - 1));
    }
  }

  // ----- one event after the other --------------------------------------------------------------

  /** What event `n` outputs, given all before it. */
  ghost predicate Tells(events: seq<WireEvent>, n: nat, h: Handled)
    requires n < |events|
  {
    if !Stops(events, n) then h.failure.None? && !h.decoder.completed && h.events == OutputAt(events, n)
    else if events[n].Terminus? then
      h.failure.None? && h.decoder.completed && |h.events| == 1 && Completes(events, n, h.events[0])
    else h.failure.Some? && h.events == [] && !h.decoder.completed
  }

  /** What has been read does not depend on what is still to come. */
  lemma {:induction false} PrefixReads(events: seq<WireEvent>, more: seq<WireEvent>, n: nat)
    requires n <= |events|
    ensures WireText(events + more, n) == WireText(events, n)
    ensures WireReasoning(events + more, n) == WireReasoning(events, n)
    ensures WireCalls(events + more, n) == WireCalls(events, n)
  {
    if n > 0 {
      PrefixReads(events, more, n - 1);
      assert (events + more)[n - 1] == events[n - 1];
      PrefixCloses(events, more, n - 1);
    }
  }

  lemma PrefixCloses(events: seq<WireEvent>, more: seq<WireEvent>, n: nat)
    requires n < |events|
    ensures ClosedCall(events + more, n) == ClosedCall(events, n)
  {
    assert (events + more)[n] == events[n];
    if events[n].ArgumentsDone? { PrefixOpens(events, more, n, events[n].itemId); }
  }

  lemma PrefixOpens(events: seq<WireEvent>, more: seq<WireEvent>, n: nat, id: string)
    requires n <= |events|
    ensures OpenedAt(events + more, n, id) == OpenedAt(events, n, id)
    ensures var k := OpenedAt(events, n, id);
      && (k.Some? ==> (events + more)[k.value] == events[k.value])
      && (k.Some? ==> Arguments(events + more, k.value, n, id) == Arguments(events, k.value, n, id))
  {
    SameOpening(events, more, n, id);
    var k := OpenedAt(events, n, id);
    if k.Some? { SameArguments(events, more, k.value, n, id); }
  }

  lemma {:induction false} SameOpening(events: seq<WireEvent>, more: seq<WireEvent>, n: nat, id: string)
    requires n <= |events|
    ensures OpenedAt(events + more, n, id) == OpenedAt(events, n, id)
  {
    if n > 0 {
      assert (events + more)[n - 1] == events[n - 1];
      SameOpening(events, more, n - 1, id);
    }
  }

  lemma {:induction false} SameArguments(events: seq<WireEvent>, more: seq<WireEvent>, k: nat, n: nat, id: string)
    requires n <= |events|
    ensures Arguments(events + more, k, n, id) == Arguments(events, k, n, id)
  {
    if n > k + 1 {
      assert (events + more)[n - 1] == events[n - 1];
      SameArguments(events, more, k, n - 1, id);
    }
  }

  lemma TracksStill(d: Decoder, events: seq<WireEvent>, event: WireEvent)
    requires Tracks(d, events, |events|)
    ensures Tracks(d, events + [event], |events|)
  {
    var n := |events|;
    PrefixReads(events, [event], n);
    forall id ensures TracksItem(d.items, events + [event], n, id) {
      assert TracksItem(d.items, events, n, id);
      PrefixOpens(events, [event], n, id);
    }
  }

  lemma HandleReads(d: Decoder, events: seq<WireEvent>, event: WireEvent)
    requires Tracks(d, events, |events|)
    ensures var all, h := events + [event], DecodeOne(d, event);
      Tells(all, |events|, h) && (h.failure.None? && !h.decoder.completed ==> Tracks(h.decoder, all, |all|))
  {
    var all, n := events + [event], |events|;
    TracksStill(d, events, event);
    if Stops(all, n) {
      StopTells(d, all, n);
    } else {
      StepTracks(d, all, n);
    }
    hide Tracks;
    hide DecodeOne;
  }

  lemma StopTells(d: Decoder, events: seq<WireEvent>, n: nat)
    requires n < |events| && Tracks(d, events, n) && Stops(events, n)
    ensures Tells(events, n, DecodeOne(d, events[n]))
    ensures var h := DecodeOne(d, events[n]); h.failure.Some? || h.decoder.completed
  {
    if events[n].ArgumentsDone? { assert TracksItem(d.items, events, n, events[n].itemId); }
    hide Content;
    hide Arguments;
  }

  class OpenAiDecoder {
    var completed: bool
    var items: map<string, Item>
    var tools: seq<Block>
    var text: string
    var reasoning: string
    /** Everything yielded, and every event handled, so far. */
    ghost var sent: seq<LlmEvent>
    ghost var seen: seq<WireEvent>

    /** The buffers are what was yielded, and the completion, if yielded, is made of it. */
    ghost predicate Valid()
      reads this
    {
      Faithful(View(), sent)
    }

    /** Until the completion the buffers hold what the events so far say. */
    ghost predicate Reads()
      reads this
    {
      !completed ==> Tracks(View(), seen, |seen|)
    }

    ghost function View(): Decoder
      reads this
    {
      Decoder(text, reasoning, items, tools, completed)
    }

    constructor ()
      ensures View() == NEW_DECODER && sent == [] && seen == [] && Valid() && Reads()
    {
      completed, items, tools, text, reasoning := false, map[], [], "", "";
      sent, seen := [], [];
    }

    /** What one wire event outputs; a failure is thrown after nothing was yielded. */
    method Handle(event: WireEvent) returns (outputs: seq<LlmEvent>, failure: Option<ProviderError>)
      modifies this
      ensures Handled(View(), outputs, failure) == DecodeOne(old(View()), event)
      ensures sent == old(sent) + outputs && |outputs| <= 1 && seen == old(seen) + [event]
      ensures old(Valid()) && !old(completed) ==> Valid() && (failure.Some? ==> outputs == [] && !completed)
      ensures old(Reads()) && !old(completed) ==> Tells(seen, |seen| - 1, Handled(View(), outputs, failure))
      ensures old(Reads()) && !old(completed) && failure.None? ==> Reads()
    {
      ghost var before, earlier, events := View(), sent, seen + [event];
      if Faithful(before, earlier) && !completed { HandleKeeps(before, earlier, event); }
      if Reads() && !completed { HandleReads(before, seen, event); }
      hide Faithful;
      hide Tracks;
      hide Tells;
      hide Content;
      hide UsageOf;
      hide StopReason;
      outputs, failure := Yield(event);
      sent, seen := earlier + outputs, events;
    }

    method Yield(event: WireEvent) returns (outputs: seq<LlmEvent>, failure: Option<ProviderError>)
      modifies this`completed, this`items, this`tools, this`text, this`reasoning
      ensures Handled(View(), outputs, failure) == DecodeOne(old(View()), event) && |outputs| <= 1
    {
      outputs, failure := [], None;
      match event {
        case OutputTextDelta(delta) =>
          text := text + delta;
          outputs := [TextDelta(delta)];
        case ReasoningSummaryDelta(delta) =>
          reasoning := reasoning + delta;
          outputs := [ReasoningDelta(delta)];
        case ItemAdded(itemId, functionCall, callId, name) =>
          if functionCall { items := items[itemId := Item(callId, name, "")]; }
        case ArgumentsDelta(itemId, delta) =>
          if itemId in items { items := items[itemId := items[itemId].(arguments := items[itemId].arguments + delta)]; }
        case ArgumentsDone(itemId) =>
          if itemId !in items { return; }
          var item := items[itemId];
          items := items - {itemId};
          if item.callId == "" { return [], Some(DecodeError("function call missing call id")); }
          tools := tools + [ToolUse(item.callId, item.name, item.arguments)];
          outputs := [ToolUseDelta(item.callId, item.name, item.arguments)];
        case Terminus(response) =>
          completed := true;
          outputs := [MessageComplete(Content(reasoning, text, tools), UsageOf(response), StopReason(tools, response))];
        case ResponseFailed(message) => failure := Some(DecodeError(message));
        case ErrorEvent(message) => failure := Some(DecodeError(message));
        case UnknownEvent =>
      }
    }
  }
}
