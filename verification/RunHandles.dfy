/** The handle as an object, and the stream its events are read from. */
module RunHandles {
  import opened Text
  import opened RunEvents
  import opened Wakeups

  /** The queue a consumer pulls events from. */
  class EventStream {
    var buffer: seq<Event>
    var closed: bool
    var detached: bool
    ghost var taken: seq<Event>

    ghost predicate Valid()
      reads this
    {
      detached ==> buffer == []
    }

    constructor ()
      ensures Valid() && buffer == [] && taken == [] && !closed && !detached
    {
      buffer, closed, detached, taken := [], false, false, [];
    }

    method Push(event: Event)
      requires Valid()
      modifies this
      ensures Valid() && closed == old(closed) && detached == old(detached) && taken == old(taken)
      ensures buffer == if detached || closed then old(buffer) else old(buffer) + [event]
    {
      if detached || closed { return; }
      buffer := buffer + [event];
    }

    method Close()
      requires Valid()
      modifies this
      ensures Valid() && closed && buffer == old(buffer) && detached == old(detached) && taken == old(taken)
    {
      closed := true;
    }

    /** The next event, or the end of the stream; `waits` while there is neither. */
    method Next() returns (event: Option<Event>, waits: bool)
      requires Valid()
      modifies this
      ensures Valid() && closed == old(closed) && detached == old(detached)
      ensures taken + buffer == old(taken + buffer)
      ensures event.Some? ==> taken == old(taken) + [event.value]
      ensures event.None? ==> taken == old(taken)
      ensures waits <==> !detached && old(buffer) == [] && !closed
      ensures event.None? && !waits ==> detached || (closed && buffer == [])
    {
      if detached { return None, false; }
      if |buffer| > 0 {
        event, waits := Some(buffer[0]), false;
        taken, buffer := taken + [buffer[0]], buffer[1..];
        return;
      }
      if closed { return None, false; }
      return None, true;
    }

    method Detach()
      requires Valid()
      modifies this
      ensures Valid() && detached && closed == old(closed) && taken == old(taken)
    {
      detached, buffer := true, [];
    }
  }

  class RunHandle {
    var steers: seq<string>
    var finishing: bool
    var finished: bool
    var outcome: Option<AgentOutcome>
    var aborted: bool
    var nextSeq: nat
    const stream: EventStream
    var steerWakers: set<Waker>
    ghost var events: seq<Event>

    ghost function View(): Handle
      reads this
    {
      Handle(steers, finishing, outcome, aborted, nextSeq, events)
    }

    /** What the stream passes on is the log up to the finish. */
    ghost predicate Valid()
      reads this, stream
    {
      && finished == outcome.Some?
      && HandleInv(View())
      && stream.Valid()
      && (!stream.detached ==> stream.taken + stream.buffer == UpToFinish(events))
      && stream.closed == finished
    }

    constructor ()
      ensures Valid() && View() == NEW_HANDLE && steerWakers == {} && fresh(stream)
    {
      steers, finishing, finished, outcome, aborted, nextSeq, events := [], false, false, None, false, 0, [];
      steerWakers := {};
      stream := new EventStream();
    }

    method Emit(body: EventBody)
      requires Valid() && MayEmit(View(), body)
      modifies this`nextSeq, this`events, stream
      ensures Valid() && View() == RunEvents.Emit(old(View()), body)
    {
      EmitKeeps(View(), body);
      hide HandleInv;
      UpToFinishAppends(events, Event(nextSeq, body));
      Stamp(body);
    }

    /** One event, numbered: into the log, and onto the stream unless that is closed. */
    method Stamp(body: EventBody)
      requires stream.Valid()
      modifies this`nextSeq, this`events, stream
      ensures View() == RunEvents.Emit(old(View()), body) && stream.Valid()
      ensures stream.closed == old(stream.closed) && stream.detached == old(stream.detached)
      ensures stream.taken + stream.buffer ==
              if stream.detached || stream.closed then old(stream.taken + stream.buffer)
              else old(stream.taken + stream.buffer) + [Event(old(nextSeq), body)]
    {
      var event := Event(nextSeq, body);
      nextSeq, events := nextSeq + 1, events + [event];
      stream.Push(event);
      assert stream.taken + (old(stream.buffer) + [event]) == stream.taken + old(stream.buffer) + [event];
    }

    /** Queue a user message; refused once finishing has begun. */
    method Steer(text: string) returns (accepted: bool)
      requires Valid()
      modifies this`steers
      ensures Valid() && View() == RunEvents.Steer(old(View()), text)
      ensures accepted <==> TakesSteers(old(View()))
    {
      if finishing || finished { return false; }
      steers := steers + [text];
      return true;
    }

    method Interrupt()
      requires Valid()
      modifies this`aborted
      ensures Valid() && View() == RunEvents.Interrupt(old(View()))
    {
      if finished { return; }
      aborted := true;
    }

    method DrainSteers() returns (drained: seq<string>)
      requires Valid()
      modifies this`steers
      ensures Valid() && drained == old(steers) && View() == old(View()).(steers := [])
    {
      drained := steers;
      steers := [];
    }

    /** Level-triggered: ready with steers queued or the signal aborted, else hooked to the
        next arrival. */
    method WaitForSteer(waker: Waker, aborted: bool) returns (ready: bool)
      requires Valid()
      modifies this`steerWakers
      ensures Valid() && (ready <==> steers != [] || aborted)
      ensures steerWakers == if ready then old(steerWakers) else old(steerWakers) + {waker}
    {
      ready := |steers| > 0 || aborted;
      if !ready { steerWakers := steerWakers + {waker}; }
    }

    method BeginFinishing()
      requires Valid()
      modifies this`finishing
      ensures Valid() && View() == old(View()).(finishing := true)
    {
      finishing := true;
    }

    method CancelFinishing()
      requires Valid()
      modifies this`finishing
      ensures Valid() && View() == RunEvents.CancelFinishing(old(View()))
    {
      if !finished { finishing := false; }
    }

    /** The one finish: everything after the first call is ignored. */
    method Finish(result: AgentOutcome)
      requires Valid()
      modifies this`steers, this`finishing, this`finished, this`outcome, this`nextSeq, this`events, stream
      ensures Valid() && View() == RunEvents.Finish(old(View()), result)
    {
      FinishKeeps(View(), result);
      hide HandleInv;
      if finished { return; }
      LiveHasNoFinish(View());
      UpToFinishAppends(events, Event(nextSeq, RunFinished(result)));
      finishing, finished, outcome, steers := true, true, Some(result), [];
      Stamp(RunFinished(result));
      stream.Close();
    }
  }
}
