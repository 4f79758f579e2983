/** A handle and how it moves. */
module RunEvents {
  import opened Text
  import opened TaskRegistry
  import opened ToolBatch

  // The seq-stamped events, the steer queue, the finishing latch and the one atomic finish.

  datatype Usage = Usage(input: nat, output: nat, cacheRead: nat, cacheCreation: nat)

  const NO_USAGE := Usage(0, 0, 0, 0)

  function AddUsage(total: Usage, turn: Usage): Usage {
    Usage(total.input + turn.input, total.output + turn.output,
          total.cacheRead + turn.cacheRead, total.cacheCreation + turn.cacheCreation)
  }

  datatype RunError = ProviderFailure(message: string) | MaxTurnsSpent | InternalFailure(message: string)

  datatype Result = Completed(value: string) | FailedRun(error: RunError) | CancelledRun

  datatype AgentOutcome = AgentOutcome(usage: Usage, turns: nat, result: Result)

  datatype EventBody =
    | RunStarted
    | TurnStarted(turn: nat)
    | StreamDelta(text: string)
    | ToolEvent(tool: BatchEvent)
    | TaskLifecycle(task: TaskEvent)
    | RunFinished(outcome: AgentOutcome)

  datatype Event = Event(sequence: nat, body: EventBody)

  /** `events` is everything the internal tap has seen. */
  datatype Handle = Handle(
    steers: seq<string>,
    finishing: bool,
    finished: Option<AgentOutcome>,
    aborted: bool,
    nextSeq: nat,
    events: seq<Event>)

  const NEW_HANDLE := Handle([], false, None, false, 0, [])

  function Emit(h: Handle, body: EventBody): Handle {
    h.(nextSeq := h.nextSeq + 1, events := h.events + [Event(h.nextSeq, body)])
  }

  function EmitAll(h: Handle, bodies: seq<EventBody>): Handle
    decreases |bodies|
  {
    if bodies == [] then h else EmitAll(Emit(h, bodies[0]), bodies[1..])
  }

  predicate TakesSteers(h: Handle) {
    !h.finishing && h.finished.None?
  }

  function Steer(h: Handle, text: string): Handle {
    if TakesSteers(h) then h.(steers := h.steers + [text]) else h
  }

  function Interrupt(h: Handle): Handle {
    if h.finished.Some? then h else h.(aborted := true)
  }

  function CancelFinishing(h: Handle): Handle {
    if h.finished.Some? then h else h.(finishing := false)
  }

  function Finish(h: Handle, outcome: AgentOutcome): Handle {
    if h.finished.Some? then h
    else Emit(h.(finishing := true, finished := Some(outcome), steers := []), RunFinished(outcome))
  }

  // ----- the event log -----------------------------------------------------------------------

  predicate IsFinish(e: Event) { e.body.RunFinished? }

  predicate IsSettle(e: Event) { e.body.TaskLifecycle? && e.body.task.TaskSettled? }

  /** From `at` on: the finish, then nothing but settled tasks. */
  ghost predicate EndsAt(events: seq<Event>, at: nat) {
    && at < |events| && IsFinish(events[at])
    && (forall i :: 0 <= i < at ==> !IsFinish(events[i]))
    && (forall i :: at < i < |events| ==> IsSettle(events[i]))
  }

  /** Sequence numbers are dense; the run's finish is reported once, exactly when the run
      has finished, and only settled tasks follow it. */
  ghost predicate HandleInv(h: Handle) {
    && h.nextSeq == |h.events|
    && (forall i :: 0 <= i < |h.events| ==> h.events[i].sequence == i)
    && (h.finished.None? ==> forall i :: 0 <= i < |h.events| ==> !IsFinish(h.events[i]))
    && (h.finished.Some? ==> h.finishing && h.steers == [] && exists at :: EndsAt(h.events, at))
  }

  predicate MayEmit(h: Handle, body: EventBody) {
    if h.finished.Some? then body.TaskLifecycle? && body.task.TaskSettled? else !body.RunFinished?
  }

  lemma EmitKeeps(h: Handle, body: EventBody)
    requires HandleInv(h) && MayEmit(h, body)
    ensures HandleInv(Emit(h, body))
  {
    if h.finished.Some? {
      var at :| EndsAt(h.events, at);
      assert EndsAt(Emit(h, body).events, at);
    }
  }

  lemma {:induction false} EmitAllKeeps(h: Handle, bodies: seq<EventBody>)
    requires HandleInv(h) && forall x :: 0 <= x < |bodies| ==> MayEmit(h, bodies[x])
    ensures HandleInv(EmitAll(h, bodies))
    ensures var n := EmitAll(h, bodies); n == h.(nextSeq := n.nextSeq, events := n.events)
    decreases |bodies|
  {
    hide HandleInv;
    if bodies != [] {
      EmitKeeps(h, bodies[0]);
      EmitAllKeeps(Emit(h, bodies[0]), bodies[1..]);
    }
  }

  lemma {:induction false} EmitAllOnlyEmits(h: Handle, bodies: seq<EventBody>)
    ensures var n := EmitAll(h, bodies); n == h.(nextSeq := n.nextSeq, events := n.events)
    decreases |bodies|
  {
    if bodies != [] { EmitAllOnlyEmits(Emit(h, bodies[0]), bodies[1..]); }
  }

  lemma LiveHasNoFinish(h: Handle)
    requires HandleInv(h) && h.finished.None?
    ensures forall i :: 0 <= i < |h.events| ==> !IsFinish(h.events[i])
  {
  }

  lemma FinishKeeps(h: Handle, outcome: AgentOutcome)
    requires HandleInv(h)
    ensures HandleInv(Finish(h, outcome)) && Finish(h, outcome).finished.Some?
  {
    if h.finished.None? { assert EndsAt(Finish(h, outcome).events, |h.events|); }
  }

  /** The events up to and including the finish. */
  function UpToFinish(events: seq<Event>): seq<Event> {
    if events == [] then []
    else
      var front := events[..|events| - 1];
      if exists i :: 0 <= i < |front| && IsFinish(front[i]) then UpToFinish(front) else events
  }

  lemma UpToFinishAppends(events: seq<Event>, event: Event)
    ensures UpToFinish(events + [event]) ==
            if exists i :: 0 <= i < |events| && IsFinish(events[i]) then UpToFinish(events) else events + [event]
    ensures (forall i :: 0 <= i < |events| ==> !IsFinish(events[i])) ==> UpToFinish(events) == events
  {
    assert (events + [event])[..|events|] == events;
  }

  /** Read to its end, the stream of a finished run is its log up to the finish: the last
      event is the finish, and no other event is one. */
  lemma StreamEndsWithFinish(h: Handle)
    requires HandleInv(h) && h.finished.Some?
    ensures var seen := UpToFinish(h.events);
      && |seen| >= 1 && seen <= h.events && IsFinish(seen[|seen| - 1])
      && forall i :: 0 <= i < |seen| - 1 ==> !IsFinish(seen[i])
  {
    var at :| EndsAt(h.events, at);
    UpToFinishIs(h.events, at);
  }

  lemma {:induction false} UpToFinishIs(events: seq<Event>, at: nat)
    requires EndsAt(events, at)
    ensures UpToFinish(events) == events[..at + 1]
    decreases |events|
  {
    var front := events[..|events| - 1];
    if at < |front| {
      assert IsFinish(front[at]);
      UpToFinishIs(front, at);
      assert front[..at + 1] == events[..at + 1];
    } else {
      assert events[..at + 1] == events;
    }
  }
}
