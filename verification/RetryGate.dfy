/** Retrying until output is visible. */
module RetryGate {
  import opened Text
  import opened ResponsesDecoder
  import opened WireReading

  datatype RetryConfig = RetryConfig(maxRetries: nat, statusCodes: set<nat>)

  /** A failure is the provider's, something else thrown, or the caller's abort. */
  datatype Failure = Provider(error: ProviderError) | Foreign(message: string) | CallerAbort

  /** What one attempt forwards, and how it fails if it does. */
  datatype Attempt = Attempt(events: seq<LlmEvent>, failure: Option<Failure>)

  predicate IsVisible(e: LlmEvent) {
    e.TextDelta? || e.ReasoningDelta? || e.ToolUseDelta?
  }

  predicate SomeVisible(events: seq<LlmEvent>) {
    exists i :: 0 <= i < |events| && IsVisible(events[i])
  }

  predicate IsRetryable(cfg: RetryConfig, error: ProviderError) {
    match error.kind
    case RateLimit => error.statusCode.Some? && error.statusCode.value in cfg.statusCodes
    case ServerError => error.statusCode.Some? && error.statusCode.value in cfg.statusCodes
    case Transport => true
    case Decode => error.truncated
    case Authentication => false
    case RequestError => false
  }

  /** Attempt `i` failed with `failure`, and the gate lets another one start. */
  predicate Retries(cfg: RetryConfig, i: nat, visible: bool, failure: Failure) {
    !visible && i < cfg.maxRetries && failure.Provider? && IsRetryable(cfg, failure.error)
  }

  datatype Forwarded = Forwarded(events: seq<LlmEvent>, failure: Option<Failure>, attempts: nat)

  /** From attempt `i` on; `aborted(i)` says the caller had aborted before it could start. */
  function RetryFrom(cfg: RetryConfig, attempt: nat -> Attempt, aborted: nat -> bool, i: nat, visible: bool): Forwarded
    decreases if i <= cfg.maxRetries then cfg.maxRetries - i + 1 else 0
  {
    if aborted(i) then Forwarded([], Some(CallerAbort), i)
    else
      var a := attempt(i);
      var seen := visible || SomeVisible(a.events);
      if a.failure.None? || !Retries(cfg, i, seen, a.failure.value) then Forwarded(a.events, a.failure, i + 1)
      else
        var rest := RetryFrom(cfg, attempt, aborted, i + 1, seen);
        Forwarded(a.events + rest.events, rest.failure, rest.attempts)
  }

  function RetryStream(cfg: RetryConfig, attempt: nat -> Attempt, aborted: nat -> bool): Forwarded {
    RetryFrom(cfg, attempt, aborted, 0, false)
  }

  method Forward(events: seq<LlmEvent>, sent: seq<LlmEvent>, visible: bool)
    returns (out: seq<LlmEvent>, emittedVisible: bool)
    ensures out == sent + events && (emittedVisible <==> visible || SomeVisible(events))
  {
    out, emittedVisible := sent, visible;
    for k := 0 to |events|
      invariant out == sent + events[..k]
      invariant emittedVisible <==> visible || exists t :: 0 <= t < k && IsVisible(events[t])
    {
      if IsVisible(events[k]) { emittedVisible := true; }
      out := out + [events[k]];
    }
  }

  lemma Joined(a: seq<LlmEvent>, b: seq<LlmEvent>, c: seq<LlmEvent>)
    ensures a + (b + c) == (a + b) + c
  {
  }

  /** The gate as it runs: one flag across all attempts. */
  method RetryLoop(cfg: RetryConfig, attempt: nat -> Attempt, aborted: nat -> bool)
    returns (out: seq<LlmEvent>, failure: Option<Failure>, attempts: nat)
    ensures Forwarded(out, failure, attempts) == RetryStream(cfg, attempt, aborted)
  {
    ghost var whole := RetryStream(cfg, attempt, aborted);
    hide SomeVisible;
    hide IsRetryable;
    out := [];
    var emittedVisible := false;
    var i := 0;
    while true
      invariant i <= cfg.maxRetries
      invariant var rest := RetryFrom(cfg, attempt, aborted, i, emittedVisible);
        whole == Forwarded(out + rest.events, rest.failure, rest.attempts)
      decreases cfg.maxRetries - i
    {
      ghost var before := out;
      if aborted(i) {
        assert out + [] == out;
        return out, Some(CallerAbort), i;
      }
      var a := attempt(i);
      out, emittedVisible := Forward(a.events, out, emittedVisible);
      if a.failure.None? { return out, None, i + 1; }
      if a.failure.value.CallerAbort? { return out, a.failure, i + 1; }
      if emittedVisible || i >= cfg.maxRetries || !a.failure.value.Provider? ||
          !IsRetryable(cfg, a.failure.value.error) {
        return out, a.failure, i + 1;
      }
      ghost var rest := RetryFrom(cfg, attempt, aborted, i + 1, emittedVisible);
      Joined(before, a.events, rest.events);
      i := i + 1;
    }
  }

  // ----- what the gate guarantees for any attempts --------------------------------------------

  lemma {:induction false} AttemptsAreBounded(cfg: RetryConfig, attempt: nat -> Attempt, aborted: nat -> bool, i: nat,
      visible: bool)
    requires i <= cfg.maxRetries
    ensures i <= RetryFrom(cfg, attempt, aborted, i, visible).attempts <= cfg.maxRetries + 1
    decreases cfg.maxRetries - i
  {
    var a := attempt(i);
    var seen := visible || SomeVisible(a.events);
    if !aborted(i) && a.failure.Some? && Retries(cfg, i, seen, a.failure.value) {
      AttemptsAreBounded(cfg, attempt, aborted, i + 1, seen);
    }
  }

  /** An attempt after which the gate started another one, or waited to. */
  ghost predicate WasRetried(cfg: RetryConfig, attempt: nat -> Attempt, i: nat) {
    && attempt(i).failure.Some? && attempt(i).failure.value.Provider?
    && IsRetryable(cfg, attempt(i).failure.value.error) && !SomeVisible(attempt(i).events)
  }

  lemma {:induction false} OnlyInvisibleIsRetried(cfg: RetryConfig, attempt: nat -> Attempt, aborted: nat -> bool,
      i: nat, t: nat)
    requires i <= t && t + 1 < RetryFrom(cfg, attempt, aborted, i, false).attempts
    ensures WasRetried(cfg, attempt, t)
    decreases t - i
  {
    var a := attempt(i);
    if !aborted(i) && a.failure.Some? && Retries(cfg, i, SomeVisible(a.events), a.failure.value) {
      if i < t { OnlyInvisibleIsRetried(cfg, attempt, aborted, i + 1, t); }
    }
  }

  /** The failures worth another attempt: no connection, a stream cut short, and a rate
      limit or server error with a listed status code. */
  predicate WorthAnother(cfg: RetryConfig, error: ProviderError) {
    || error.kind == Transport
    || (error.kind == Decode && error.truncated)
    || ((error.kind == RateLimit || error.kind == ServerError) &&
         exists code :: code in cfg.statusCodes && error.statusCode == Some(code))
  }

  /** Attempt `t` failed unseen, with a failure worth another one. */
  predicate FailsUnseen(cfg: RetryConfig, a: Attempt) {
    && a.failure.Some? && a.failure.value.Provider? && WorthAnother(cfg, a.failure.value.error)
    && forall k :: 0 <= k < |a.events| ==>
         !a.events[k].TextDelta? && !a.events[k].ReasoningDelta? && !a.events[k].ToolUseDelta?
  }

  /** Attempts `i` to `t` are all made. */
  ghost predicate GoesOn(cfg: RetryConfig, attempt: nat -> Attempt, aborted: nat -> bool, i: nat, t: nat) {
    && t <= cfg.maxRetries
    && (forall u :: i <= u <= t ==> !aborted(u))
    && (forall u :: i <= u < t ==> FailsUnseen(cfg, attempt(u)))
  }

  lemma WorthAnotherIsRetried(cfg: RetryConfig, a: Attempt, i: nat)
    requires a.failure.Some?
    ensures Retries(cfg, i, SomeVisible(a.events), a.failure.value) <==> i < cfg.maxRetries && FailsUnseen(cfg, a)
  {
    if SomeVisible(a.events) {
      var k :| 0 <= k < |a.events| && IsVisible(a.events[k]);
    } else {
      forall k | 0 <= k < |a.events| ensures !IsVisible(a.events[k]) {}
    }
  }

  lemma {:induction false} MadeFrom(cfg: RetryConfig, attempt: nat -> Attempt, aborted: nat -> bool, i: nat, t: nat)
    requires i <= cfg.maxRetries && i <= t
    ensures t < RetryFrom(cfg, attempt, aborted, i, false).attempts <==> GoesOn(cfg, attempt, aborted, i, t)
    decreases cfg.maxRetries - i
  {
    hide FailsUnseen;
    hide Retries;
    hide SomeVisible;
    if !aborted(i) {
      var a := attempt(i);
      if a.failure.Some? { WorthAnotherIsRetried(cfg, a, i); }
      if a.failure.Some? && Retries(cfg, i, SomeVisible(a.events), a.failure.value) {
        UnseenIsInvisible(cfg, a);
        if t > i { MadeFrom(cfg, attempt, aborted, i + 1, t); } else { FirstIsMade(cfg, attempt, aborted, i + 1); }
      } else {
        NoFailureIsSeen(cfg, a);
        assert t > i ==> !GoesOn(cfg, attempt, aborted, i, t);
      }
    } else {
      assert !GoesOn(cfg, attempt, aborted, i, t);
    }
  }

  lemma FirstIsMade(cfg: RetryConfig, attempt: nat -> Attempt, aborted: nat -> bool, i: nat)
    requires i <= cfg.maxRetries
    ensures RetryFrom(cfg, attempt, aborted, i, false).attempts >= i
  {
    AttemptsAreBounded(cfg, attempt, aborted, i, false);
  }

  lemma UnseenIsInvisible(cfg: RetryConfig, a: Attempt)
    ensures FailsUnseen(cfg, a) ==> !SomeVisible(a.events)
  {
  }

  lemma NoFailureIsSeen(cfg: RetryConfig, a: Attempt)
    ensures FailsUnseen(cfg, a) ==> a.failure.Some?
  {
  }

  /** An attempt is made if and only if the retry limit allows it, the caller had not aborted
      before it or an earlier one, and every earlier one failed unseen with a failure worth
      another; the gate ends as its last attempt did, unless an abort kept the next one away. */
  lemma RetriesExactly(cfg: RetryConfig, attempt: nat -> Attempt, aborted: nat -> bool, t: nat)
    ensures var f := RetryStream(cfg, attempt, aborted);
      && (t < f.attempts <==> GoesOn(cfg, attempt, aborted, 0, t))
      && f.failure == if f.attempts == 0 || (f.attempts <= cfg.maxRetries && FailsUnseen(cfg, attempt(f.attempts - 1)))
                      then Some(CallerAbort) else attempt(f.attempts - 1).failure
  {
    MadeFrom(cfg, attempt, aborted, 0, t);
    EndsAs(cfg, attempt, aborted, 0);
  }

  lemma {:induction false} EndsAs(cfg: RetryConfig, attempt: nat -> Attempt, aborted: nat -> bool, i: nat)
    requires i <= cfg.maxRetries
    ensures var f := RetryFrom(cfg, attempt, aborted, i, false);
      && f.attempts >= i
      && f.failure == if f.attempts == i || (f.attempts <= cfg.maxRetries && FailsUnseen(cfg, attempt(f.attempts - 1)))
                      then Some(CallerAbort) else attempt(f.attempts - 1).failure
    decreases cfg.maxRetries - i
  {
    hide FailsUnseen;
    hide Retries;
    hide SomeVisible;
    if !aborted(i) {
      var a := attempt(i);
      if a.failure.Some? { WorthAnotherIsRetried(cfg, a, i); }
      NoFailureIsSeen(cfg, a);
      if a.failure.Some? && Retries(cfg, i, SomeVisible(a.events), a.failure.value) {
        UnseenIsInvisible(cfg, a);
        EndsAs(cfg, attempt, aborted, i + 1);
      }
    }
  }

  /** The events of attempts `i` up to `n`, one after the other. */
  function Outputs(attempt: nat -> Attempt, i: nat, n: nat): seq<LlmEvent>
    decreases n - i
  {
    if i >= n then [] else attempt(i).events + Outputs(attempt, i + 1, n)
  }

  lemma {:induction false} ForwardsAllAttempts(cfg: RetryConfig, attempt: nat -> Attempt, aborted: nat -> bool,
      i: nat, visible: bool)
    ensures var f := RetryFrom(cfg, attempt, aborted, i, visible);
      f.attempts >= i && f.events == Outputs(attempt, i, f.attempts)
    decreases if i <= cfg.maxRetries then cfg.maxRetries - i + 1 else 0
  {
    var a := attempt(i);
    var seen := visible || SomeVisible(a.events);
    if !aborted(i) {
      if a.failure.Some? && Retries(cfg, i, seen, a.failure.value) {
        ForwardsAllAttempts(cfg, attempt, aborted, i + 1, seen);
      } else {
        assert Outputs(attempt, i + 1, i + 1) == [];
        assert a.events + [] == a.events;
      }
    }
  }

  lemma {:induction false} OutputsEnd(attempt: nat -> Attempt, i: nat, n: nat)
    requires i < n
    ensures Outputs(attempt, i, n) == Outputs(attempt, i, n - 1) + attempt(n - 1).events
    decreases n - i
  {
    if i < n - 1 {
      OutputsEnd(attempt, i + 1, n);
      assert attempt(i).events + (Outputs(attempt, i + 1, n - 1) + attempt(n - 1).events) ==
             attempt(i).events + Outputs(attempt, i + 1, n - 1) + attempt(n - 1).events;
    } else {
      assert Outputs(attempt, n, n) == [] && Outputs(attempt, i, i) == [];
      assert attempt(i).events + [] == [] + attempt(i).events;
    }
  }

  lemma {:induction false} OutputsEmpty(attempt: nat -> Attempt, i: nat, n: nat)
    requires i <= n
    ensures Outputs(attempt, i, n) == [] <==> forall t :: i <= t < n ==> attempt(t).events == []
    decreases n - i
  {
    if i < n { OutputsEmpty(attempt, i + 1, n); }
  }

  /** For any attempts at all: the gate forwards the last attempt alone exactly if the
      retried ones had forwarded nothing. */
  lemma TransparentExactly(cfg: RetryConfig, attempt: nat -> Attempt, aborted: nat -> bool)
    requires RetryStream(cfg, attempt, aborted).attempts >= 1
    ensures var f := RetryStream(cfg, attempt, aborted);
      f.events == attempt(f.attempts - 1).events <==> forall t :: 0 <= t < f.attempts - 1 ==> attempt(t).events == []
  {
    var f := RetryStream(cfg, attempt, aborted);
    ForwardsAllAttempts(cfg, attempt, aborted, 0, false);
    OutputsEnd(attempt, 0, f.attempts);
    OutputsEmpty(attempt, 0, f.attempts - 1);
    var before, last := Outputs(attempt, 0, f.attempts - 1), attempt(f.attempts - 1).events;
    assert |before + last| == |before| + |last|;
    if before == [] { assert [] + last == last; }
  }

  // ----- attempts that decode a responses stream ----------------------------------------------

  /** How a wire stream ends: cleanly, by an error thrown or an idle timeout, or by the
      caller's abort. */
  datatype Ending = EndsClean | Breaks(error: ProviderError) | Aborts

  datatype Script = OpenFails(error: ProviderError) | OpenAborts | Streams(events: seq<WireEvent>, ending: Ending)

  const TRUNCATED := ProviderError(Decode, "stream ended without provider terminal event", None, true)

  /** One attempt: decode until the terminal event; a clean end without it is a truncated
      stream. */
  function RunAttempt(script: Script): Attempt {
    match script
    case OpenFails(error) => Attempt([], Some(Provider(error)))
    case OpenAborts => Attempt([], Some(CallerAbort))
    case Streams(events, ending) =>
      var h := DecodeFrom(NEW_DECODER, events);
      if h.failure.Some? then Attempt(h.events, Some(Provider(h.failure.value)))
      else if ending.Aborts? then Attempt(h.events, Some(CallerAbort))
      else if h.decoder.completed then Attempt(h.events, None)
      else Attempt(h.events, Some(Provider(if ending.Breaks? then ending.error else TRUNCATED)))
  }

  /** The attempt as a loop over the wire's events. */
  method StreamAttempt(script: Script) returns (out: seq<LlmEvent>, failure: Option<Failure>)
    ensures Attempt(out, failure) == RunAttempt(script)
  {
    hide Faithful;
    hide DecodeOne;
    out := [];
    if script.OpenFails? { return [], Some(Provider(script.error)); }
    if script.OpenAborts? { return [], Some(CallerAbort); }
    var decoder := new OpenAiDecoder();
    var k := 0;
    ghost var all := DecodeFrom(NEW_DECODER, script.events);
    assert script.events[0..] == script.events;
    while k < |script.events| && !decoder.completed
      invariant k <= |script.events|
      invariant var rest := DecodeFrom(decoder.View(), script.events[k..]);
        all == Handled(rest.decoder, out + rest.events, rest.failure)
    {
      ghost var before := out;
      var outputs, failed := decoder.Handle(script.events[k]);
      out := out + outputs;
      ghost var rest := DecodeFrom(decoder.View(), script.events[k..][1..]);
      assert script.events[k..][1..] == script.events[k + 1..];
      Joined(before, outputs, rest.events);
      if failed.Some? { return out, Some(Provider(failed.value)); }
      k := k + 1;
    }
    assert out + [] == out;
    if script.ending.Aborts? { return out, Some(CallerAbort); }
    if decoder.completed { return out, None; }
    return out, Some(Provider(if script.ending.Breaks? then script.ending.error else TRUNCATED));
  }

  lemma AttemptIsFaithful(script: Script)
    requires script.Streams?
    ensures var h := DecodeFrom(NEW_DECODER, script.events);
      Faithful(h.decoder, h.events) && (h.failure.Some? ==> !h.decoder.completed)
  {
    DecodeKeeps(NEW_DECODER, [], script.events);
    assert [] + DecodeFrom(NEW_DECODER, script.events).events == DecodeFrom(NEW_DECODER, script.events).events;
  }

  /** A successful attempt ends with its one completion, whose message is the forwarded
      deltas put together; one the provider failed has no completion at all. */
  lemma AttemptOutcome(script: Script)
    ensures var a := RunAttempt(script);
      && (a.failure.None? ==> EndsComplete(a.events))
      && (a.failure.Some? && a.failure.value.Provider? ==> NoCompletion(a.events))
  {
    if script.Streams? { AttemptIsFaithful(script); }
  }

  lemma InvisibleMeansEmpty(script: Script)
    requires RunAttempt(script).failure.Some? && RunAttempt(script).failure.value.Provider? &&
        !SomeVisible(RunAttempt(script).events)
    ensures RunAttempt(script).events == []
  {
    AttemptOutcome(script);
    var events := RunAttempt(script).events;
    assert |events| == 0 || IsVisible(events[0]);
  }

  function Attempts(script: nat -> Script): nat -> Attempt {
    (i: nat) => RunAttempt(script(i))
  }

  lemma {:induction false} LastAttemptDecides(cfg: RetryConfig, attempt: nat -> Attempt, aborted: nat -> bool, i: nat,
      visible: bool)
    ensures var f := RetryFrom(cfg, attempt, aborted, i, visible);
      f.failure == Some(CallerAbort) || (f.attempts >= i + 1 && f.failure == attempt(f.attempts - 1).failure)
    decreases if i <= cfg.maxRetries then cfg.maxRetries - i + 1 else 0
  {
    var a := attempt(i);
    var seen := visible || SomeVisible(a.events);
    if !aborted(i) && a.failure.Some? && Retries(cfg, i, seen, a.failure.value) {
      LastAttemptDecides(cfg, attempt, aborted, i + 1, seen);
    }
  }

  /** Whatever the provider does over the attempts: the consumer sees the output of the last
      attempt alone, after at most one attempt and `maxRetries` retries; a successful
      stream has exactly one completion, in last place, carrying what was streamed, and a
      stream the provider failed has none. */
  lemma RetryIsTransparent(cfg: RetryConfig, script: nat -> Script, aborted: nat -> bool)
    ensures var f := RetryStream(cfg, Attempts(script), aborted);
      && f.attempts <= 1 + cfg.maxRetries
      && f.events == (if f.attempts == 0 then [] else RunAttempt(script(f.attempts - 1)).events)
      && (f.failure.None? ==> EndsComplete(f.events))
      && (f.failure.Some? && f.failure.value.Provider? ==> NoCompletion(f.events))
  {
    var attempt := Attempts(script);
    var f := RetryStream(cfg, attempt, aborted);
    AttemptsAreBounded(cfg, attempt, aborted, 0, false);
    ForwardsAllAttempts(cfg, attempt, aborted, 0, false);
    LastAttemptDecides(cfg, attempt, aborted, 0, false);
    if f.attempts >= 1 {
      forall t | 0 <= t < f.attempts - 1 ensures attempt(t).events == [] {
        OnlyInvisibleIsRetried(cfg, attempt, aborted, 0, t);
        InvisibleMeansEmpty(script(t));
      }
      TransparentExactly(cfg, attempt, aborted);
      AttemptOutcome(script(f.attempts - 1));
    }
  }

  /** The output is what these events say, up to their terminal event: all the text, reasoning
      and calls they stream, and then the completion made of it. */
  ghost predicate TellsStream(out: seq<LlmEvent>, events: seq<WireEvent>) {
    var n := StopIndex(events, 0);
    && n < |events| && events[n].Terminus? && |out| >= 1
    && out[..|out| - 1] == OutputsOf(events, 0, n) && Completes(events, n, out[|out| - 1])
    && Texts(out) == WireText(events, n) && Reasonings(out) == WireReasoning(events, n)
    && ToolUses(out) == WireCalls(events, n)
  }

  lemma TerminusTells(out: seq<LlmEvent>, events: seq<WireEvent>)
    requires var n := StopIndex(events, 0);
      && n < |events| && events[n].Terminus? && |out| >= 1
      && out[..|out| - 1] == OutputsOf(events, 0, n) && Completes(events, n, out[|out| - 1])
    ensures TellsStream(out, events)
  {
    hide OutputsOf;
    hide StopIndex;
    hide Texts;
    hide Reasonings;
    hide ToolUses;
    hide WireText;
    hide WireReasoning;
    hide WireCalls;
    var front, last := out[..|out| - 1], out[|out| - 1];
    OutputsHold(events, StopIndex(events, 0));
    assert last.MessageComplete?;
    hide Completes;
    ReadBackOne(front, last);
    assert front + [last] == out;
    assert Texts(front) + "" == Texts(front) && Reasonings(front) + "" == Reasonings(front);
    assert ToolUses(front) + [] == ToolUses(front);
  }

  /** What the attempt forwards, and why it fails if it does. */
  ghost predicate AttemptTells(a: Attempt, script: Script)
    requires script.Streams?
  {
    var events, n := script.events, StopIndex(script.events, 0);
    && (a.failure.None? <==> n < |events| && events[n].Terminus? && !script.ending.Aborts?)
    && (n < |events| && events[n].Terminus? ==> TellsStream(a.events, events))
    && (n == |events| || !events[n].Terminus? ==> a.events == OutputsOf(events, 0, n))
    && (n == |events| ==> a.failure == Some(
          match script.ending
          case EndsClean => Provider(TRUNCATED)
          case Breaks(error) => Provider(error)
          case Aborts => CallerAbort))
    && (n < |events| && !events[n].Terminus? ==>
          a.failure.Some? && a.failure.value.Provider? && a.failure.value.error.kind == Decode)
  }

  lemma ReadAttemptTells(h: Handled, a: Attempt, script: Script)
    requires script.Streams? && Says(h, script.events, 0, StopIndex(script.events, 0))
    requires a == (if h.failure.Some? then Attempt(h.events, Some(Provider(h.failure.value)))
                   else if script.ending.Aborts? then Attempt(h.events, Some(CallerAbort))
                   else if h.decoder.completed then Attempt(h.events, None)
                   else Attempt(h.events, Some(Provider(
                     if script.ending.Breaks? then script.ending.error else TRUNCATED))))
    ensures AttemptTells(a, script)
  {
    var n := StopIndex(script.events, 0);
    assert n < |script.events| ==> Stops(script.events, n);
    hide StopIndex;
    hide OutputsOf;
    hide Completes;
    hide TellsStream;
    if n < |script.events| && script.events[n].Terminus? { TerminusTells(h.events, script.events); }
  }

  /** An attempt tells its stream up to the terminal event, or forwards what came before the
      stream stopped or broke, and then fails with the reason. */
  lemma AttemptTellsWire(script: Script)
    requires script.Streams?
    ensures AttemptTells(RunAttempt(script), script)
  {
    hide AttemptTells;
    hide DecodeFrom;
    hide Says;
    StreamIsRead(script.events);
    ReadAttemptTells(DecodeFrom(NEW_DECODER, script.events), RunAttempt(script), script);
  }

  /** A stream that succeeds tells exactly what the last attempt's wire said. */
  lemma RetryTellsWire(cfg: RetryConfig, script: nat -> Script, aborted: nat -> bool)
    requires RetryStream(cfg, Attempts(script), aborted).failure.None?
    ensures var f := RetryStream(cfg, Attempts(script), aborted);
      f.attempts >= 1 && script(f.attempts - 1).Streams? && TellsStream(f.events, script(f.attempts - 1).events)
  {
    RetryIsTransparent(cfg, script, aborted);
    LastAttemptDecides(cfg, Attempts(script), aborted, 0, false);
    var f := RetryStream(cfg, Attempts(script), aborted);
    assert RunAttempt(script(f.attempts - 1)).failure.None?;
    AttemptTellsWire(script(f.attempts - 1));
    hide TellsStream;
    hide RetryFrom;
  }

  /** For bare attempts the condition is needed: an attempt that completes its message and
      then fails is retried, and the consumer sees two completions. */
  lemma CompletedAttemptRepeats(done: LlmEvent)
    requires done.MessageComplete?
    ensures var failing := Attempt([done], Some(Provider(TRUNCATED)));
      var attempt := (i: nat) => if i == 0 then failing else Attempt([done], None);
      RetryStream(RetryConfig(1, {}), attempt, _ => false).events == [done, done]
  {
    var cfg := RetryConfig(1, {});
    var failing := Attempt([done], Some(Provider(TRUNCATED)));
    var attempt := (i: nat) => if i == 0 then failing else Attempt([done], None);
    assert !SomeVisible(failing.events);
    assert Retries(cfg, 0, false, failing.failure.value);
    assert RetryFrom(cfg, attempt, _ => false, 1, false).events == [done];
  }
}
