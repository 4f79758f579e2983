/** Decoding one responses stream. */
module ResponsesDecoder {
  import opened Text

  // Text, reasoning and function calls are forwarded as they close, and the terminal event
  // carries the whole message.

  datatype Response = Response(
    status: string,
    incompleteReason: Option<string>,
    inputTokens: Option<nat>,
    outputTokens: Option<nat>,
    cachedTokens: Option<nat>)

  datatype WireEvent =
    | OutputTextDelta(delta: string)
    | ReasoningSummaryDelta(delta: string)
    | ItemAdded(itemId: string, functionCall: bool, callId: string, name: string)
    | ArgumentsDelta(itemId: string, delta: string)
    | ArgumentsDone(itemId: string)
    | Terminus(response: Response)
    | ResponseFailed(message: string)
    | ErrorEvent(message: string)
    | UnknownEvent

  datatype Block =
    | ReasoningBlock(text: string)
    | TextBlock(text: string)
    | ToolUse(id: string, name: string, arguments: string)

  datatype TokenUsage = TokenUsage(input: nat, output: nat, cacheRead: Option<nat>)

  datatype LlmEvent =
    | TextDelta(text: string)
    | ReasoningDelta(text: string)
    | ToolUseDelta(id: string, name: string, arguments: string)
    | MessageComplete(content: seq<Block>, usage: TokenUsage, stopReason: string)

  datatype ErrorKind = RateLimit | ServerError | Transport | Decode | Authentication | RequestError

  datatype ProviderError = ProviderError(kind: ErrorKind, message: string, statusCode: Option<nat>, truncated: bool)

  datatype Item = Item(callId: string, name: string, arguments: string)

  datatype Decoder = Decoder(
    text: string,
    reasoning: string,
    items: map<string, Item>,
    tools: seq<Block>,
    completed: bool
  )

  const NEW_DECODER := Decoder("", "", map[], [], false)

  datatype Handled = Handled(decoder: Decoder, events: seq<LlmEvent>, failure: Option<ProviderError>)

  function DecodeError(message: string): ProviderError {
    ProviderError(Decode, message, None, false)
  }

  /** Reasoning, then text, then the tool uses; empty parts are left out. */
  function Content(reasoning: string, text: string, tools: seq<Block>): seq<Block> {
    (if reasoning != "" then [ReasoningBlock(reasoning)] else []) + (if text != "" then [TextBlock(text)] else []) +
      tools
  }

  function OrZero(tokens: Option<nat>): nat {
    if tokens.Some? then tokens.value else 0
  }

  function UsageOf(r: Response): TokenUsage {
    var input, cached := OrZero(r.inputTokens), OrZero(r.cachedTokens);
    TokenUsage(if input >= cached then input - cached else 0, OrZero(r.outputTokens), r.cachedTokens)
  }

  function StopReason(tools: seq<Block>, r: Response): string {
    if |tools| > 0 then "tool_use"
    else if r.status == "incomplete" then
      if r.incompleteReason == Some("max_output_tokens") then "max_tokens"
      else if r.incompleteReason.Some? then r.incompleteReason.value
      else "incomplete"
    else if r.status == "completed" then "end_turn"
    else r.status
  }

  function Complete(d: Decoder, r: Response): LlmEvent {
    MessageComplete(Content(d.reasoning, d.text, d.tools), UsageOf(r), StopReason(d.tools, r))
  }

  function CloseCall(d: Decoder, itemId: string): Handled {
    if itemId !in d.items then Handled(d, [], None)
    else
      var item := d.items[itemId];
      var rest := d.(items := d.items - {itemId});
      if item.callId == "" then Handled(rest, [], Some(DecodeError("function call missing call id")))
      else
        Handled(rest.(tools := d.tools + [ToolUse(item.callId, item.name, item.arguments)]),
                [ToolUseDelta(item.callId, item.name, item.arguments)], None)
  }

  function DecodeOne(d: Decoder, e: WireEvent): Handled {
    match e
    case OutputTextDelta(t) => Handled(d.(text := d.text + t), [TextDelta(t)], None)
    case ReasoningSummaryDelta(t) => Handled(d.(reasoning := d.reasoning + t), [ReasoningDelta(t)], None)
    case ItemAdded(id, call, callId, name) =>
      if call then Handled(d.(items := d.items[id := Item(callId, name, "")]), [], None) else Handled(d, [], None)
    case ArgumentsDelta(id, t) =>
      if id in d.items
      then Handled(d.(items := d.items[id := d.items[id].(arguments := d.items[id].arguments + t)]), [], None)
      else Handled(d, [], None)
    case ArgumentsDone(id) => CloseCall(d, id)
    case Terminus(r) => Handled(d.(completed := true), [Complete(d, r)], None)
    case ResponseFailed(m) => Handled(d, [], Some(DecodeError(m)))
    case ErrorEvent(m) => Handled(d, [], Some(DecodeError(m)))
    case UnknownEvent => Handled(d, [], None)
  }

  /** Feed events until the terminal one or a failure. */
  function DecodeFrom(d: Decoder, events: seq<WireEvent>): Handled
    decreases |events|
  {
    if d.completed || events == [] then Handled(d, [], None)
    else
      var h := DecodeOne(d, events[0]);
      if h.failure.Some? then h
      else
        var rest := DecodeFrom(h.decoder, events[1..]);
        Handled(rest.decoder, h.events + rest.events, rest.failure)
  }

  // ----- what was forwarded, read back ------------------------------------------------------

  function Texts(out: seq<LlmEvent>): string {
    if out == [] then ""
    else Texts(out[..|out| - 1]) + (if out[|out| - 1].TextDelta? then out[|out| - 1].text else "")
  }

  function Reasonings(out: seq<LlmEvent>): string {
    if out == [] then ""
    else Reasonings(out[..|out| - 1]) + (if out[|out| - 1].ReasoningDelta? then out[|out| - 1].text else "")
  }

  function ToolUses(out: seq<LlmEvent>): seq<Block> {
    if out == [] then []
    else
      var last := out[|out| - 1];
      ToolUses(out[..|out| - 1]) + (if last.ToolUseDelta? then [ToolUse(last.id, last.name, last.arguments)] else [])
  }

  lemma ReadBackOne(out: seq<LlmEvent>, e: LlmEvent)
    ensures Texts(out + [e]) == Texts(out) + (if e.TextDelta? then e.text else "")
    ensures Reasonings(out + [e]) == Reasonings(out) + (if e.ReasoningDelta? then e.text else "")
    ensures ToolUses(out + [e]) == ToolUses(out) +
        (if e.ToolUseDelta? then [ToolUse(e.id, e.name, e.arguments)] else [])
  {
    assert (out + [e])[..|out + [e]| - 1] == out;
  }

  /** The decoder holds exactly what it forwarded. */
  ghost predicate Holds(d: Decoder, out: seq<LlmEvent>) {
    d.text == Texts(out) && d.reasoning == Reasonings(out) && d.tools == ToolUses(out)
  }

  predicate NoCompletion(out: seq<LlmEvent>) {
    forall i :: 0 <= i < |out| ==> !out[i].MessageComplete?
  }

  /** One completion, in last place, whose message is the deltas put together. */
  ghost predicate EndsComplete(out: seq<LlmEvent>) {
    && |out| >= 1 && NoCompletion(out[..|out| - 1])
    && out[|out| - 1].MessageComplete?
    && out[|out| - 1].content == Content(Reasonings(out), Texts(out), ToolUses(out))
  }

  ghost predicate Faithful(d: Decoder, out: seq<LlmEvent>) {
    Holds(d, out) && (if d.completed then EndsComplete(out) else NoCompletion(out))
  }

  lemma ForwardKeeps(d: Decoder, n: Decoder, out: seq<LlmEvent>, e: LlmEvent)
    requires Faithful(d, out) && !d.completed
    requires n.text == d.text + (if e.TextDelta? then e.text else "")
    requires n.reasoning == d.reasoning + (if e.ReasoningDelta? then e.text else "")
    requires n.tools == d.tools + (if e.ToolUseDelta? then [ToolUse(e.id, e.name, e.arguments)] else [])
    requires n.completed == e.MessageComplete?
    requires e.MessageComplete? ==> e.content == Content(n.reasoning, n.text, n.tools)
    ensures Faithful(n, out + [e])
  {
    hide Content;
    ReadBackOne(out, e);
    assert (out + [e])[..|out + [e]| - 1] == out;
  }

  lemma NothingAdded(text: string, tools: seq<Block>)
    ensures text + "" == text && tools + [] == tools
  {
  }

  lemma HandleKeeps(d: Decoder, out: seq<LlmEvent>, e: WireEvent)
    requires Faithful(d, out) && !d.completed
    ensures var h := DecodeOne(d, e);
      Faithful(h.decoder, out + h.events) && |h.events| <= 1 &&
        (h.failure.Some? ==> h.events == [] && !h.decoder.completed)
  {
    hide Content;
    hide UsageOf;
    hide StopReason;
    var h := DecodeOne(d, e);
    NothingAdded(d.text, d.tools);
    NothingAdded(d.reasoning, d.tools);
    if h.events == [] {
      assert out + [] == out;
    } else {
      assert h.events == [h.events[0]];
      hide Faithful;
      ForwardKeeps(d, h.decoder, out, h.events[0]);
    }
  }

  lemma {:induction false} DecodeKeeps(d: Decoder, out: seq<LlmEvent>, events: seq<WireEvent>)
    requires Faithful(d, out)
    ensures var h := DecodeFrom(d, events);
      Faithful(h.decoder, out + h.events) && (h.failure.Some? ==> !h.decoder.completed)
    decreases |events|
  {
    hide Faithful;
    hide DecodeOne;
    assert out + [] == out;
    if !d.completed && events != [] {
      HandleKeeps(d, out, events[0]);
      var h := DecodeOne(d, events[0]);
      if h.failure.None? {
        DecodeKeeps(h.decoder, out + h.events, events[1..]);
        assert out + h.events + DecodeFrom(h.decoder, events[1..]).events == out +
            (h.events + DecodeFrom(h.decoder, events[1..]).events);
      }
    }
  }
}
