/** The loop, the submission gate and the terminal binding as objects. The public methods are
    the stretches between two awaits: each makes one step of the run's state machine and keeps
    its whole invariant. The others are parts of a stretch and keep the objects wired. */
module AgentLoop {
  import opened Text
  import opened Notifications
  import opened RunHistory
  import opened TaskRegistry
  import opened TaskSupervisor
  import opened ToolBatch
  import opened ToolExecutor
  import opened RunEvents
  import opened RunHandles
  import opened Wakeups
  import opened AgentRun
  import opened AgentRunInvariant
  import opened AgentRunDelivery
  import opened AgentRunParking
  import opened AgentRunCommit
  import opened AgentRunOutcome
  import opened AgentRunTheorems
  import opened AgentLoopFacts

  class Loop {
    const config: Config
    const handle: RunHandle
    const inbox: NotificationInbox
    const tasks: RunBackgroundTaskSupervisor
    const conversation: Conversation
    var turns: nat
    var usage: Usage
    var pendingText: Option<string>
    var atRest: bool
    /** The gate's own flag, and the submission the terminal tool accepted. */
    var submitting: bool
    var accepted: Option<string>
    /** The parks so far, the wakers hooked to their signals, the promises resolved. */
    var races: nat
    var listeners: set<Waker>
    var resolved: set<Waker>
    /** The batch the executor works on. */
    var batch: BatchExecution?
    ghost var pc: Pc
    ghost var ledger: Ledger

    ghost function Waits(): Wakers
      reads this, handle, inbox, tasks
    {
      Wakers(races, handle.steerWakers, inbox.wakers, tasks.wakers, listeners, resolved)
    }

    ghost function View(): World
      reads this, handle, inbox, tasks, conversation
    {
      World(config, handle.View(), inbox.entries, inbox.window, tasks.View(), Waits(), conversation.llm, pc,
        turns, usage,
            pendingText, atRest, submitting, accepted, ledger)
    }

    ghost predicate ObjectsOk()
      reads handle, handle.stream, inbox, tasks
    {
      handle.Valid() && inbox.Valid() && tasks.Valid()
    }

    ghost predicate Wired()
      reads this, handle, handle.stream, inbox, tasks, conversation
    {
      && ObjectsOk()
      && inbox.published == ledger.published
      && HandleOk(View())
    }

    /** While a batch is out, the executor holds it. */
    ghost predicate Linked()
      reads this`pc, this`batch, batch, if batch != null then {batch.settled} else {}
    {
      pc.InBatch? ==> batch != null && batch.View() == pc.batch
    }

    ghost predicate Valid()
      reads this, handle, handle.stream, inbox, tasks, conversation
      reads batch, if batch != null then {batch.settled} else {}
    {
      Wired() && AgentInv(View()) && Linked()
    }

    constructor (config: Config)
      ensures Valid() && View() == Assembled(config)
      ensures fresh(handle) && fresh(handle.stream) && fresh(inbox) && fresh(tasks) && fresh(conversation)
    {
      hide AgentInv;
      hide HandleOk;
      hide HandleInv;
      hide RegistryInv;
      hide InitialMessages;
      this.config := config;
      inbox := new NotificationInbox();
      tasks := new RunBackgroundTaskSupervisor();
      var h := new RunHandle();
      h.Emit(RunStarted);
      handle := h;
      conversation := new Conversation(config.initial);
      turns, usage, pendingText, atRest := 0, NO_USAGE, None, false;
      submitting, accepted, pc := false, None, RestHook;
      races, listeners, resolved, batch := 0, {}, {}, null;
      ledger := Ledger([], [], [], [], [], [], []);
      new;
      AssembledHandle(config);
      AssembledIsOk(config);
    }

    // ----- waiting ---------------------------------------------------------------------------

    /** The closure a wait left behind: it leaves its source and its signal, and resolves. */
    method Wake(waker: Waker)
      requires WakersOk(Waits()) && waker in listeners && ObjectsOk()
      modifies this`listeners, this`resolved, handle`steerWakers, inbox`wakers, tasks`wakers
      ensures Waits() == Fire(old(Waits()), {waker}) && WakersOk(Waits()) && ObjectsOk()
    {
      hide HandleInv;
      hide RegistryInv;
      hide Accounted;
      FireKeeps(Waits(), {waker});
      match waker.source {
        case SteerSource => handle.steerWakers := handle.steerWakers - {waker};
        case NoteSource => inbox.wakers := inbox.wakers - {waker};
        case TaskSource => tasks.wakers := tasks.wakers - {waker};
      }
      listeners, resolved := listeners - {waker}, resolved + {waker};
    }

    method WakeEach(fired: set<Waker>)
      requires WakersOk(Waits()) && fired <= listeners && ObjectsOk()
      modifies this`listeners, this`resolved, handle`steerWakers, inbox`wakers, tasks`wakers
      ensures Waits() == Fire(old(Waits()), fired) && WakersOk(Waits()) && ObjectsOk()
    {
      hide ObjectsOk;
      hide WakersOk;
      var rest := fired;
      assert fired - rest == {};
      FireNone(Waits());
      while rest != {}
        invariant rest <= fired && fired <= old(listeners) && WakersOk(Waits()) && ObjectsOk()
        invariant Waits() == Fire(old(Waits()), fired - rest)
        decreases |rest|
      {
        var waker :| waker in rest;
        assert waker in listeners;
        FireInTurn(old(Waits()), fired - rest, {waker});
        assert fired - rest + {waker} == fired - (rest - {waker});
        rest := rest - {waker};
        Wake(waker);
      }
      assert fired - rest == fired;
    }

    method WakeAll(fired: set<Waker>)
      requires ObjectsOk() && WakersOk(Waits()) && fired <= listeners
      modifies this`listeners, this`resolved, handle`steerWakers, inbox`wakers, tasks`wakers
      ensures ObjectsOk() && View() == old(View()).(wakers := Fire(old(Waits()), fired))
    {
      hide ObjectsOk;
      hide Fire;
      hide WakersOk;
      WakeEach(fired);
    }

    method RunWakers(fired: set<Waker>)
      requires Wired() && WakersOk(Waits()) && fired <= listeners
      modifies this`listeners, this`resolved, handle`steerWakers, inbox`wakers, tasks`wakers
      ensures Wired() && View() == old(View()).(wakers := Fire(old(Waits()), fired))
    {
      hide HandleOk;
      hide ObjectsOk;
      hide Fire;
      hide WakersOk;
      SameHandleIsOk(View(), View().(wakers := Fire(Waits(), fired)));
      WakeAll(fired);
    }

    method Hook(waker: Waker, ready: bool)
      modifies this`listeners, this`resolved
      ensures listeners == if ready then old(listeners) else old(listeners) + {waker}
      ensures resolved == if ready then old(resolved) + {waker} else old(resolved)
    {
      if ready { resolved := resolved + {waker}; } else { listeners := listeners + {waker}; }
    }

    method AwaitSteer(race: nat)
      requires ObjectsOk()
      modifies this`listeners, this`resolved, handle`steerWakers
      ensures ObjectsOk()
      ensures Waits() == Wait(old(Waits()), Waker(race, SteerSource), handle.steers != [] || handle.aborted)
    {
      hide HandleInv;
      hide RegistryInv;
      hide Accounted;
      var ready := handle.WaitForSteer(Waker(race, SteerSource), handle.aborted);
      Hook(Waker(race, SteerSource), ready);
    }

    method AwaitNote(race: nat)
      requires ObjectsOk()
      modifies this`listeners, this`resolved, inbox`wakers
      ensures ObjectsOk()
      ensures Waits() == Wait(old(Waits()), Waker(race, NoteSource), inbox.entries != [] || handle.aborted)
    {
      hide HandleInv;
      hide RegistryInv;
      hide Accounted;
      var ready := inbox.WaitForNext(Waker(race, NoteSource), handle.aborted);
      Hook(Waker(race, NoteSource), ready);
    }

    method AwaitChange(race: nat, since: nat)
      requires ObjectsOk()
      modifies this`listeners, this`resolved, tasks`wakers
      ensures ObjectsOk()
      ensures Waits() == Wait(old(Waits()), Waker(race, TaskSource), tasks.changes != since || handle.aborted)
    {
      hide HandleInv;
      hide RegistryInv;
      hide Accounted;
      var ready := tasks.WaitForChange(since, Waker(race, TaskSource), handle.aborted);
      Hook(Waker(race, TaskSource), ready);
    }

    /** One race of three waits, all on one signal that follows the run's. */
    method Race(since: nat)
      requires ObjectsOk()
      modifies this`races, this`listeners, this`resolved, handle`steerWakers, inbox`wakers, tasks`wakers
      ensures ObjectsOk()
      ensures Waits() == StartRace(old(Waits()), handle.steers != [] || handle.aborted,
          inbox.entries != [] || handle.aborted,
                                   tasks.changes != since || handle.aborted)
    {
      hide ObjectsOk;
      hide Wait;
      AwaitSteer(races);
      AwaitNote(races);
      AwaitChange(races, since);
      WaitKeepsCount(old(Waits()), handle.steers != [] || handle.aborted, inbox.entries != [] || handle.aborted,
                     tasks.changes != since || handle.aborted);
      races := races + 1;
    }

    method Park(since: nat)
      requires Wired() && handle.outcome.None?
      modifies this`races, this`listeners, this`resolved, this`pc, handle`steerWakers, inbox`wakers, tasks`wakers
      ensures Wired() && View() == AgentRun.Park(old(View()), since)
    {
      hide HandleOk;
      hide HandleInv;
      hide RegistryInv;
      hide Accounted;
      hide StartRace;
      hide Fire;
      ParkIsOk(View(), since);
      pc := Parked(since, races);
      Race(since);
    }

    // ----- parts of a stretch ------------------------------------------------------------------

    /** Classified into one finish; the registry is torn down at once. */
    method Finish(result: Result)
      requires Wired() && handle.outcome.None?
      modifies this`pc, this`ledger, handle, handle.stream, tasks
      ensures Wired() && View() == FinishWith(old(View()), result)
    {
      FinishIsOk(View(), result);
      hide HandleOk;
      hide RegistryInv;
      hide HandleInv;
      ledger := ledger.(dropped := ledger.dropped + handle.steers);
      handle.Finish(AgentOutcome(usage, turns, result));
      tasks.DisposeAll(RUN_FINISHED_DISPOSE_REASON);
      pc := Done;
    }

    /** Everything queued goes into the history, steers before notes. */
    method DrainQueues() returns (anything: bool)
      requires Wired() && handle.outcome.None?
      modifies handle`steers, inbox`entries, inbox`window, inbox`delivered, conversation
      ensures Wired() && View() == DrainAll(old(View()))
      ensures anything <==> old(handle.steers) != [] || old(inbox.entries) != []
    {
      DrainIsOk(View());
      hide HandleOk;
      var steers := handle.DrainSteers();
      AppendSteers(steers);
      var notes := inbox.Drain();
      AppendNotes(notes);
      anything := |steers| > 0 || |notes| > 0;
    }

    method AppendSteers(steers: seq<string>)
      modifies conversation
      ensures conversation.llm == old(conversation.llm) + SteerMessages(steers)
    {
      for i := 0 to |steers|
        invariant conversation.llm == old(conversation.llm) + SteerMessages(steers)[..i]
      {
        conversation.AppendUser(Steered(steers[i]));
      }
    }

    method AppendNotes(notes: seq<Note>)
      modifies conversation
      ensures conversation.llm == old(conversation.llm) + NoteMessages(notes)
    {
      for i := 0 to |notes|
        invariant conversation.llm == old(conversation.llm) + NoteMessages(notes)[..i]
      {
        conversation.AppendUser(Notified(notes[i]));
      }
    }

    /** From the top of the loop to its next await; the change count is captured before the
        drains. */
    method Boundary()
      requires Wired() && handle.outcome.None?
      modifies this, handle, handle.stream, inbox, tasks, conversation
      ensures Wired() && View() == TopOfLoop(old(View()))
    {
      hide HandleOk;
      hide DrainAll;
      hide FinishWith;
      hide AgentRun.Park;
      if handle.aborted {
        Finish(CancelledRun);
        return;
      }
      DrainKeepsRest(View());
      var since := tasks.changes;
      var anything := DrainQueues();
      if atRest && !anything {
        var empty := tasks.IsEmpty();
        if empty {
          if config.terminalName.None? && pendingText.Some? {
            Finish(Completed(pendingText.value));
            return;
          }
        } else {
          Park(since);
          return;
        }
      }
      StartTurn();
    }

    method Announce(body: EventBody)
      requires ObjectsOk() && MayEmit(handle.View(), body)
      modifies handle`nextSeq, handle`events, handle.stream
      ensures ObjectsOk() && View() == old(View()).(handle := Emit(old(View()).handle, body))
    {
      hide HandleInv;
      hide RegistryInv;
      hide Accounted;
      hide MayEmit;
      handle.Emit(body);
    }

    /** The request goes out with the history as it stands. */
    method OpenTurn()
      requires ObjectsOk() && MayEmit(handle.View(), TurnStarted(turns + 1))
      modifies this`atRest, this`pendingText, this`ledger, this`pc, handle`nextSeq, handle`events, handle.stream
      ensures ObjectsOk() && View() == OpenedTurn(old(View()))
    {
      hide ObjectsOk;
      hide HandleInv;
      hide MayEmit;
      hide Emit;
      atRest, pendingText := false, None;
      ledger := ledger.(requests := ledger.requests + [conversation.llm]);
      Announce(TurnStarted(turns + 1));
      pc := Streaming;
    }

    method StartTurn()
      requires Wired() && handle.outcome.None?
      modifies this, handle, handle.stream, tasks
      ensures Wired() && View() == TakeTurn(old(View()))
    {
      hide HandleOk;
      hide ObjectsOk;
      hide FinishWith;
      TurnIsTaken(View());
      if turns >= config.maxTurns { Finish(FailedRun(MaxTurnsSpent)); } else { OpenTurn(); }
    }

    /** A streamed turn goes into the history and onto the books. */
    method Commit(text: string, calls: seq<Call>, turnUsage: Usage)
      requires Wired() && handle.outcome.None?
      modifies this`turns, this`usage, this`ledger, conversation
      ensures Wired() && View() == CommitTurn(old(View()), text, calls, turnUsage)
    {
      SameHandleIsOk(View(), CommitTurn(View(), text, calls, turnUsage));
      hide HandleOk;
      conversation.AppendAssistant(text, calls);
      turns, usage := turns + 1, AddUsage(usage, turnUsage);
      ledger := ledger.(usages := ledger.usages + [turnUsage]);
    }

    method Rest(text: string)
      requires Wired() && handle.outcome.None?
      modifies this`pendingText, this`atRest, this`pc
      ensures Wired()
      ensures View() == old(View()).(pc := RestHook, atRest := true,
          pendingText := if config.terminalName.None? then Some(text) else None)
    {
      LivePc(View());
      SameHandleIsOk(View(), View().(pc := RestHook, atRest := true,
        pendingText := if config.terminalName.None? then Some(text) else None));
      hide HandleOk;
      pendingText, atRest := if config.terminalName.None? then Some(text) else None, true;
      pc := RestHook;
    }

    method Calls(calls: seq<Call>)
      requires Wired() && handle.outcome.None?
      modifies this`pc
      ensures Wired() && View() == old(View()).(pc := CallsHook(calls))
    {
      LivePc(View());
      SameHandleIsOk(View(), View().(pc := CallsHook(calls)));
      hide HandleOk;
      pc := CallsHook(calls);
    }

    /** The executor's results, normalized, go into the history. */
    method RecordAnswers(calls: seq<Call>, results: seq<CallResult>) returns (terminal: bool)
      requires Wired() && handle.outcome.None?
      modifies conversation
      ensures Wired() && View() == old(View()).(llm := old(View()).llm + [ToolResults(NormalizeBatch(calls, results))])
      ensures terminal <==> TerminalResult(NormalizeBatch(calls, results))
    {
      var answers := NormalizeResults(calls, results);
      SameHandleIsOk(View(), View().(llm := View().llm + [ToolResults(answers)]));
      hide HandleOk;
      conversation.AppendToolResults(calls, answers);
      terminal := exists i :: 0 <= i < |answers| && answers[i].isTerminal;
    }

    /** Read the accepted submission, once. */
    method TakeAccepted() returns (taken: Option<string>)
      modifies this`accepted
      ensures taken == old(accepted) && accepted == None
    {
      taken := accepted;
      accepted := None;
    }

    /** A terminal result ends the run with the accepted submission. */
    method FinishTerminal()
      requires Wired() && handle.outcome.None?
      modifies this, handle, handle.stream, tasks
      ensures Wired()
      ensures View() == FinishWith(old(View()).(accepted := None),
                                   if config.terminalName.Some? && old(accepted).Some?
                                       then Completed(old(accepted).value)
                                   else FailedRun(InternalFailure(TERMINAL_WITHOUT_SUBMISSION)))
    {
      SameHandleIsOk(View(), View().(accepted := None));
      hide HandleOk;
      hide FinishWith;
      var taken := TakeAccepted();
      if config.terminalName.Some? && taken.Some? { Finish(Completed(taken.value)); }
      else { Finish(FailedRun(InternalFailure(TERMINAL_WITHOUT_SUBMISSION))); }
    }

    // ----- the stretches of the loop -------------------------------------------------------------

    /** The loop starts, or its boundary hook has returned at rest. */
    method HookReturned()
      requires Valid() && pc.RestHook?
      modifies this, handle, handle.stream, inbox, tasks, conversation
      ensures AfterTop(old(View()), View()) && OutcomeHolds(View())
      ensures Valid() && View() == RunStep(old(View()), HookReturnsMove)
    {
      hide AgentInv;
      hide HandleOk;
      hide TopOfLoop;
      ghost var w, n := View(), RunStep(View(), HookReturnsMove);
      StepKeepsInv(w, HookReturnsMove);
      InvMeans(w);
      InvMeans(n);
      TopMeans(w, n);
      Boundary();
    }

    /** The race is won: the losers are unhooked, and the loop goes back to its top. */
    method WakeUp(race: nat)
      requires Valid() && pc.Parked? && race == pc.race && Won(Waits(), race)
      modifies this, handle, handle.stream, inbox, tasks, conversation
      ensures AfterTop(old(View()), View()) && OutcomeHolds(View())
      ensures forall s: Source :: Waker(race, s) !in Waits().listeners && Waker(race, s) in Waits().resolved
      ensures Valid() && View() == RunStep(old(View()), RunMove.WakeUp)
    {
      hide AgentInv;
      hide HandleOk;
      hide TopOfLoop;
      ghost var w, n := View(), RunStep(View(), RunMove.WakeUp);
      StepKeepsInv(w, RunMove.WakeUp);
      InvMeans(w);
      InvMeans(n);
      TopMeans(w.(wakers := EndRace(w.wakers, race)), n);
      RaceIsOver(w, n);
      RunWakers(set waker | waker in listeners && waker.race == race);
      Boundary();
    }

    method StreamDelta(delta: string)
      requires Valid() && pc.Streaming?
      modifies handle, handle.stream
      ensures Valid() && View() == RunStep(old(View()), StreamMove(delta))
    {
      hide AgentInv;
      hide HandleOk;
      StepKeepsInv(View(), StreamMove(delta));
      InvMeans(View());
      InvMeans(RunStep(View(), StreamMove(delta)));
      handle.Emit(RunEvents.StreamDelta(delta));
    }

    /** A committed turn leads to its batch, to rest, or to the end of a text run: exactly
        with no calls made, nothing queued and no task open. */
    method TurnArrived(text: string, calls: seq<Call>, turnUsage: Usage) returns (finished: bool)
      requires Valid() && pc.Streaming?
      modifies this, handle, handle.stream, tasks, conversation
      ensures finished <==> config.terminalName.None? && calls == [] && ExitGate(old(View()))
      ensures finished ==> handle.outcome.Some? && handle.outcome.value.result == Completed(text)
      ensures finished ==> OutcomeHolds(View())
      ensures !finished ==> handle.outcome.None?
      ensures if calls == [] then History(conversation.llm) else Open(conversation.llm, calls)
      ensures Valid() && View() == RunStep(old(View()), TurnMove(text, calls, turnUsage))
    {
      hide AgentInv;
      hide HandleOk;
      hide PcHistory;
      hide History;
      hide Open;
      ghost var w, n := View(), RunStep(View(), TurnMove(text, calls, turnUsage));
      StepKeepsInv(w, TurnMove(text, calls, turnUsage));
      InvMeans(w);
      InvMeans(n);
      InvHistory(n);
      TurnMeans(w, text, calls, turnUsage);
      hide TurnArrives;
      finished := Arrive(text, calls, turnUsage);
    }

    method Arrive(text: string, calls: seq<Call>, turnUsage: Usage) returns (finished: bool)
      requires Wired() && handle.outcome.None?
      modifies this, handle, handle.stream, tasks, conversation
      ensures Wired() && View() == TurnArrives(old(View()), text, calls, turnUsage)
      ensures finished <==> config.terminalName.None? && calls == [] && ExitGate(old(View()))
    {
      hide HandleOk;
      hide FinishWith;
      hide CommitTurn;
      hide AddUsage;
      CommitOnly(View(), text, calls, turnUsage);
      Commit(text, calls, turnUsage);
      if |calls| > 0 {
        Calls(calls);
        return false;
      }
      if config.terminalName.None? && |handle.steers| == 0 && |tasks.entries| == 0 && |inbox.entries| == 0 {
        Finish(Completed(text));
        return true;
      }
      Rest(text);
      return false;
    }

    /** The provider failed, or the abort cut it short. */
    method TurnFailed(error: TurnError)
      requires Valid() && pc.Streaming?
      modifies this, handle, handle.stream, tasks
      ensures handle.outcome.Some? && !handle.outcome.value.result.Completed?
      ensures handle.outcome.value.result.CancelledRun? <==> old(handle.aborted)
      ensures Valid() && View() == RunStep(old(View()), TurnFailsMove(error))
    {
      hide AgentInv;
      hide HandleOk;
      StepKeepsInv(View(), TurnFailsMove(error));
      InvMeans(View());
      FinishReports(View(), ClassifyLoopError(error, handle.aborted));
      hide FinishWith;
      Finish(ClassifyLoopError(error, handle.aborted));
    }

    /** The boundary hook has returned and the executor starts on the turn's calls, all of
        them unanswered. */
    method CallsHookReturned(calls: seq<Call>)
      requires Valid() && pc == CallsHook(calls)
      modifies this`pc, this`batch
      ensures batch != null && fresh(batch) && fresh(batch.settled) && batch.calls == calls && pc.InBatch?
      ensures Open(conversation.llm, calls)
      ensures Valid() && View() == RunStep(old(View()), HookReturnsMove)
    {
      hide RunStep;
      hide ObjectsOk;
      hide AgentInv;
      hide HandleOk;
      hide HandleInv;
      hide RegistryInv;
      hide Accounted;
      hide PcHistory;
      hide Open;
      ghost var w, n := View(), RunStep(View(), HookReturnsMove);
      StepKeepsInv(w, HookReturnsMove);
      InvMeans(n);
      InvHistory(w);
      CallsStart(w, calls);
      batch := new BatchExecution(calls, config.terminalName);
      pc := InBatch(batch.View());
    }

    // ----- the executor at work -----------------------------------------------------------------

    /** A free lane takes the next ordinary call, or ends when there is none or the run was
        interrupted. */
    method PickNext(l: nat)
      requires Valid() && pc.InBatch? && l < |batch.lanes| && batch.lanes[l].Ready?
      modifies this`pc, handle`nextSeq, handle`events, handle.stream, batch
      ensures pc.InBatch? && l < |batch.lanes|
      ensures batch.lanes[l].Ended? <==> old(batch.cursor) == |batch.ordinary| || handle.aborted
      ensures Valid() && View() == RunStep(old(View()), BatchesMove(LanePick(l)))
    {
      hide BatchInv;
      hide Pick;
      hide AgentInv;
      hide Wired;
      hide Advance;
      hide RunStep;
      ghost var w := View();
      BatchIsLive(w);
      PickAdvances(w.pc.batch, l, handle.aborted, GateOpen(w));
      var seen := |batch.emitted|;
      batch.LanePick(l, handle.aborted);
      Relay(seen, w, LanePick(l));
    }

    /** A call came back: its result is kept at its place, or dropped after an interrupt. */
    method CallReturned(l: nat, content: string, isError: bool)
      requires Valid() && pc.InBatch? && l < |batch.lanes| && batch.lanes[l].Busy?
      modifies this`pc, handle`nextSeq, handle`events, handle.stream, batch, batch.settled
      ensures pc.InBatch? && l < |batch.lanes| && (batch.lanes[l].Ended? <==> handle.aborted)
      ensures Valid() && View() == RunStep(old(View()), BatchesMove(LaneReturn(l, content, isError)))
    {
      hide BatchInv;
      hide ToolBatch.Return;
      hide AgentInv;
      hide Wired;
      hide Advance;
      hide RunStep;
      ghost var w := View();
      BatchIsLive(w);
      ReturnAdvances(w.pc.batch, l, content, isError, handle.aborted, GateOpen(w));
      var seen := |batch.emitted|;
      batch.LaneReturn(l, content, isError, handle.aborted);
      Relay(seen, w, LaneReturn(l, content, isError));
    }

    /** The lanes have ended, or an interrupt got there first: the terminal calls' turn. */
    method LanesEnded()
      requires Valid() && pc.InBatch? && (handle.aborted || AllEnded(batch.lanes))
      modifies this`pc, handle`nextSeq, handle`events, handle.stream, batch`released
      ensures pc.InBatch? && batch.released
      ensures Valid() && View() == RunStep(old(View()), BatchesMove(Release))
    {
      hide AgentInv;
      hide Wired;
      hide Advance;
      hide RunStep;
      ghost var w := View();
      BatchIsLive(w);
      ReleaseAdvances(w.pc.batch, handle.aborted, GateOpen(w));
      var seen := |batch.emitted|;
      batch.ReleaseLanes(handle.aborted);
      Relay(seen, w, Release);
    }

    /** The next terminal call starts; with none left, or after an interrupt, the batch
        returns one result for every call. */
    method NextTerminal(valid: bool, refusal: string) returns (results: Option<seq<CallResult>>)
      requires Valid() && pc.InBatch? && batch.released && batch.phase.Idle?
      modifies this`pc, handle`nextSeq, handle`events, handle.stream, batch
      ensures results.Some? ==> pc == BatchReturned(batch.calls, results.value) && Answers(batch.calls, results.value)
      ensures results.None? ==> pc.InBatch?
      ensures results.Some? <==> old(batch.tnext) >= |batch.terminal| || handle.aborted
      ensures Valid() && View() == RunStep(old(View()), BatchesMove(TerminalPick(valid, refusal)))
    {
      hide BatchInv;
      hide StartTerminal;
      hide AgentInv;
      hide Wired;
      hide Advance;
      hide RunStep;
      ghost var w := View();
      BatchIsLive(w);
      StartAdvances(w.pc.batch, valid, refusal, handle.aborted, GateOpen(w));
      var seen := |batch.emitted|;
      batch.TerminalPick(valid, refusal, handle.aborted);
      results := Return();
      Relay(seen, w, TerminalPick(valid, refusal));
    }

    /** A terminal call's result is kept, and the next may start; after an interrupt the batch
        returns without it. */
    method TerminalReturned() returns (results: Option<seq<CallResult>>)
      requires Valid() && pc.InBatch? && batch.phase.Returning?
      modifies this`pc, handle`nextSeq, handle`events, handle.stream, batch, batch.settled
      ensures results.Some? ==> pc == BatchReturned(batch.calls, results.value) && Answers(batch.calls, results.value)
      ensures results.None? ==> pc.InBatch?
      ensures results.Some? <==> handle.aborted
      ensures Valid() && View() == RunStep(old(View()), BatchesMove(DispatchReturn))
    {
      hide BatchInv;
      hide ToolBatch.FinishTerminal;
      hide AgentInv;
      hide Wired;
      hide Advance;
      hide RunStep;
      ghost var w := View();
      BatchIsLive(w);
      FinishAdvances(w.pc.batch, handle.aborted, GateOpen(w));
      var seen := |batch.emitted|;
      batch.TerminalReturn(handle.aborted);
      results := Return();
      Relay(seen, w, DispatchReturn);
    }

    /** What the executor hands back, once it is over. */
    method Return() returns (results: Option<seq<CallResult>>)
      requires batch != null && batch.Valid(handle.aborted)
      ensures results.Some? <==> batch.over
      ensures results.Some? ==> results.value == Results(batch.View()) && Answers(batch.calls, results.value)
    {
      results := None;
      if batch.over {
        var collected := batch.Collect(handle.aborted);
        results := Some(collected);
      }
    }

    /** After a move of the executor its events go to the handle. */
    method Relay(seen: nat, ghost w: World, ghost m: BatchMove)
      requires Wired() && AgentInv(w) && View() == w && w.pc.InBatch? && batch != null && seen <= |batch.emitted|
      requires !m.PreHookReturn? && !m.PostHookReturn? && !m.VerdictReturn?
      requires var s := Advance(w.pc.batch, m, w.handle.aborted, GateOpen(w));
        batch.View() == s.batch && batch.emitted[seen..] == s.events
      modifies this`pc, handle`nextSeq, handle`events, handle.stream
      ensures pc == AfterBatch(batch.View())
      ensures Valid() && View() == RunStep(w, BatchesMove(m))
    {
      hide AgentInv;
      hide HandleOk;
      hide ObjectsOk;
      hide Advance;
      hide GateOpen;
      hide AfterBatch;
      hide RunStep;
      StepKeepsInv(w, BatchesMove(m));
      InvMeans(RunStep(w, BatchesMove(m)));
      BatchIsLive(w);
      RelayMeans(w, m);
      StillLinked(batch.View());
      Report(batch.emitted[seen..], AfterBatch(batch.View()));
    }

    method Report(events: seq<BatchEvent>, ghost next: Pc)
      requires ObjectsOk() && handle.outcome.None?
      modifies this`pc, handle`nextSeq, handle`events, handle.stream
      ensures ObjectsOk() && View() ==
          old(View()).(handle := EmitAll(old(View()).handle, ToolEvents(events)), pc := next)
    {
      hide HandleInv;
      hide RegistryInv;
      hide Accounted;
      EmitAllOnlyEmits(handle.View(), ToolEvents(events));
      EmitEach(events);
      pc := next;
    }

    method EmitEach(events: seq<BatchEvent>)
      requires handle.Valid() && handle.outcome.None?
      modifies handle`nextSeq, handle`events, handle.stream
      ensures handle.Valid() && handle.View() == EmitAll(old(handle.View()), ToolEvents(events))
    {
      hide HandleInv;
      for i := 0 to |events|
        invariant handle.Valid() && handle.outcome.None?
        invariant EmitAll(handle.View(), ToolEvents(events)[i..]) == EmitAll(old(handle.View()), ToolEvents(events))
      {
        assert ToolEvents(events)[i..][1..] == ToolEvents(events)[i + 1..];
        handle.Emit(ToolEvent(events[i]));
      }
      assert ToolEvents(events)[|events|..] == [];
    }

    /** The batch's results are in: record them, then finish, or go on. With a terminal tool
        the run completes exactly if a terminal result is there that no later one hides. */
    method BatchArrived(calls: seq<Call>, results: seq<CallResult>)
      requires Valid() && pc == BatchReturned(calls, results)
      modifies this, handle, handle.stream, inbox, tasks, conversation
      ensures History(conversation.llm) && OutcomeHolds(View())
      ensures config.terminalName.Some? ==>
        (handle.outcome.Some? && handle.outcome.value.result.Completed? <==> exists i :: EndsRun(calls, results, i))
      ensures Valid() && View() == RunStep(old(View()), BatchContinuesMove)
    {
      hide AgentInv;
      hide HandleOk;
      hide EndsRun;
      ghost var w, n := View(), RunStep(View(), BatchContinuesMove);
      StepKeepsInv(w, BatchContinuesMove);
      InvMeans(w);
      InvMeans(n);
      if config.terminalName.Some? { BatchEnds(w); }
      InvHistory(n);
      ContinueMeans(w, n);
      hide BatchContinues;
      Continue(calls, results);
    }

    method Continue(calls: seq<Call>, results: seq<CallResult>)
      requires Wired() && handle.outcome.None?
      modifies this, handle, handle.stream, inbox, tasks, conversation
      ensures Wired() && View() == BatchContinues(old(View()), calls, results)
    {
      hide HandleOk;
      hide FinishWith;
      hide TopOfLoop;
      hide TerminalResult;
      var terminal := RecordAnswers(calls, results);
      if terminal { FinishTerminal(); }
      else if handle.aborted { Finish(CancelledRun); }
      else { Boundary(); }
    }

    // ----- a submission's way past the gate ---------------------------------------------------

    /** The id of the submission at hand. */
    function CallAtHand(): (id: string)
      requires Linked() && pc.InBatch? && AtTerminal(pc.batch)
      reads this`pc, this`batch, batch, if batch != null then {batch.settled} else {}
      ensures id == TerminalId(pc.batch)
    {
      batch.CallAtHand()
    }

    /** The submission at hand goes on to its next await, or has its result. */
    method Await(next: Phase)
      requires Linked() && Submission(View())
      requires next.PostHook? || next.Submitting? || (next.Returning? && next.result.id == TerminalId(pc.batch))
      modifies this`pc, batch`phase
      ensures Linked() && View() == old(View()).(pc := InBatch(old(pc).batch.(phase := next)))
    {
      batch.Await(next, handle.aborted);
      pc := InBatch(batch.View());
    }

    /** A refusal is the submission's result; otherwise it goes on. */
    method Decide(refused: Option<string>, next: Phase)
      requires Linked() && Submission(View()) && (next.PostHook? || next.Submitting?)
      modifies this`pc, batch`phase
      ensures Linked() && View() ==
          old(View()).(pc := InBatch(old(pc).batch.(phase := PhaseAfter(old(pc).batch, refused, next))))
    {
      if refused.Some? { Await(Returning(Refused(CallAtHand(), refused.value))); } else { Await(next); }
    }

    method GateIsOpen() returns (open: bool)
      ensures open <==> GateOpen(View())
    {
      open := |tasks.entries| == 0 && |inbox.entries| == 0 && |handle.steers| == 0 && !submitting;
    }

    method MeetGate(denied: Option<string>) returns (refused: Option<string>)
      requires Linked() && Submission(View())
      modifies this`pc, this`ledger, batch`phase
      ensures Linked() && refused == GateRefusal(old(View()), denied) && View() == PastGate(old(View()), denied)
    {
      hide Submission;
      hide GateOpen;
      var open := GateIsOpen();
      refused := if denied.Some? then denied else if open then None else Some(SUBMISSION_DENIED);
      Decide(refused, PostHook);
      if refused.None? { ledger := ledger.(gap := []); }
    }

    /** The pre hooks returned. A submission that passes meets a run with nothing queued, no
        task open and nothing accepted yet. */
    method PreHooksReturned(denied: Option<string>) returns (refused: Option<string>)
      requires Valid() && AtPhase(pc, PreHook)
      modifies this`pc, this`ledger, batch`phase
      ensures refused.None? <==> AtPhase(pc, PostHook)
      ensures refused.None? <==> denied.None? && GateOpen(old(View()))
      ensures refused.None? ==> ExitGate(View()) && ledger.accepts == [] && ledger.gap == []
      ensures refused.Some? ==> Refuses(pc, refused.value) && (denied.Some? ==> refused == denied)
      ensures Valid() && View() == RunStep(old(View()), BatchesMove(PreHookReturn(denied)))
    {
      hide AgentInv;
      hide HandleOk;
      hide ObjectsOk;
      hide BatchInv;
      hide AtTerminal;
      hide AtPhase;
      hide Refuses;
      hide RunStep;
      hide Submission;
      hide PastGate;
      hide GateOpen;
      hide ExitGate;
      StepKeepsInv(View(), BatchesMove(PreHookReturn(denied)));
      PreHookMeans(View(), denied);
      refused := MeetGate(denied);
    }

    method BeginFinishing()
      requires ObjectsOk()
      modifies this`submitting, handle`finishing
      ensures ObjectsOk() && View() ==
          old(View()).(submitting := true, handle := old(View()).handle.(finishing := true))
    {
      hide HandleInv;
      hide RegistryInv;
      hide Accounted;
      submitting := true;
      handle.BeginFinishing();
    }

    method CancelFinishing()
      requires ObjectsOk()
      modifies this`submitting, handle`finishing
      ensures ObjectsOk()
      ensures View() == old(View()).(submitting := false, handle := RunEvents.CancelFinishing(old(View()).handle))
    {
      hide HandleInv;
      hide RegistryInv;
      hide Accounted;
      submitting := false;
      handle.CancelFinishing();
    }

    method Accept(value: string)
      modifies this`accepted, this`ledger
      ensures View() == old(View()).(accepted := Some(value),
          ledger := old(ledger).(accepts := old(ledger).accepts + [value]))
    {
      accepted := Some(value);
      ledger := ledger.(accepts := ledger.accepts + [value]);
    }

    method GoToHost(denied: Option<string>)
      requires Linked() && Submission(View()) && ObjectsOk()
      modifies this`pc, this`submitting, handle`finishing, batch`phase
      ensures Linked() && ObjectsOk() && View() == PastHooks(old(View()), denied)
    {
      hide Submission;
      hide PhaseAfter;
      hide ObjectsOk;
      Decide(denied, Submitting);
      if denied.None? { BeginFinishing(); }
    }

    /** The post hooks returned. A submission that passes goes to the host, and no steer is
        taken until the host has answered. */
    method PostHooksReturned(denied: Option<string>)
      requires Valid() && AtPhase(pc, PostHook)
      modifies this`pc, this`submitting, handle`finishing, batch`phase
      ensures if denied.None? then AtPhase(pc, Submitting) && !TakesSteers(handle.View())
              else Refuses(pc, denied.value) && TakesSteers(handle.View())
      ensures Valid() && View() == RunStep(old(View()), BatchesMove(PostHookReturn(denied)))
    {
      hide AgentInv;
      hide HandleOk;
      hide ObjectsOk;
      hide BatchInv;
      hide AtTerminal;
      hide AtPhase;
      hide Refuses;
      hide RunStep;
      hide Submission;
      hide PastHooks;
      hide TakesSteers;
      StepKeepsInv(View(), BatchesMove(PostHookReturn(denied)));
      PostHookMeans(View(), denied);
      GoToHost(denied);
    }

    method Answer(v: Verdict) returns (result: CallResult)
      requires Linked() && Submission(View()) && ObjectsOk()
      modifies this`pc, this`submitting, this`accepted, this`ledger, handle`finishing, batch`phase
      ensures Linked() && ObjectsOk() && inbox.published == old(inbox.published) &&
          ledger.published == old(ledger.published)
      ensures result == VerdictResult(TerminalId(old(pc).batch), v) && View() == PastHost(old(View()), v)
    {
      hide BatchInv;
      hide HandleInv;
      hide RegistryInv;
      hide Accounted;
      hide ObjectsOk;
      result := VerdictResult(CallAtHand(), v);
      Await(Returning(result));
      if v.Accepts? { Accept(v.value); } else { CancelFinishing(); }
    }

    /** The host answered: an accepting verdict makes this the run's one accepted submission
        and keeps the latch; any other reopens the run. */
    method HostAnswered(v: Verdict) returns (result: CallResult)
      requires Valid() && AtPhase(pc, Submitting)
      modifies this`pc, this`submitting, this`accepted, this`ledger, handle`finishing, batch`phase
      ensures Returned(pc, result) && result.id == TerminalId(old(pc).batch) && (result.isTerminal <==> v.Accepts?)
      ensures if v.Accepts? then ledger.accepts == [v.value] && accepted == Some(v.value) && !TakesSteers(handle.View())
              else ledger.accepts == [] && TakesSteers(handle.View())
      ensures Valid() && View() == RunStep(old(View()), BatchesMove(VerdictReturn(v)))
    {
      hide AgentInv;
      hide HandleOk;
      hide ObjectsOk;
      hide BatchInv;
      hide AtTerminal;
      hide AtPhase;
      hide Refuses;
      hide RunStep;
      hide Submission;
      hide PastHost;
      hide VerdictResult;
      hide TakesSteers;
      hide Returned;
      StepKeepsInv(View(), BatchesMove(VerdictReturn(v)));
      VerdictMeans(View(), v);
      result := Answer(v);
    }

    // ----- the outside -----------------------------------------------------------------------

    /** An accepted steer is queued last, and a parked loop is due to resume. */
    method Steer(text: string) returns (taken: bool)
      requires Valid()
      modifies this`ledger, this`listeners, this`resolved, handle`steers, handle`steerWakers, inbox`wakers, tasks`wakers
      ensures taken <==> !old(handle.finishing) && !old(handle.finished)
      ensures if taken then handle.steers == old(handle.steers) + [text] &&
          ledger.steered == old(ledger.steered) + [text]
              else View() == old(View())
      ensures taken && pc.Parked? ==> Won(Waits(), pc.race)
      ensures Valid() && View() == RunStep(old(View()), SteerMove(text))
    {
      hide AgentInv;
      hide HandleOk;
      hide RunStep;
      hide Fire;
      hide WakersOk;
      hide Won;
      hide ObjectsOk;
      hide SteerRun;
      StepKeepsInv(View(), SteerMove(text));
      SteerMeans(View(), text);
      taken := TakeSteer(text);
    }

    method QueueSteer(text: string) returns (taken: bool)
      requires ObjectsOk()
      modifies this`ledger, handle`steers
      ensures ObjectsOk() && (taken <==> TakesSteers(old(View()).handle))
      ensures TakesSteers(old(View()).handle) <==> !old(handle.finishing) && !old(handle.finished)
      ensures View() == if taken then old(View()).(handle := RunEvents.Steer(old(View()).handle, text),
          ledger := SteerNoted(old(View()), text))
                        else old(View())
    {
      hide HandleInv;
      hide RegistryInv;
      hide Accounted;
      taken := handle.Steer(text);
      if taken {
        ledger := ledger.(steered := ledger.steered + [text],
          gap := if InGap(pc) then ledger.gap + [text] else ledger.gap);
      }
    }

    method TakeSteer(text: string) returns (taken: bool)
      requires ObjectsOk() && WakersOk(Waits()) && handle.steerWakers <= listeners
      modifies this`ledger, this`listeners, this`resolved, handle`steers, handle`steerWakers, inbox`wakers, tasks`wakers
      ensures ObjectsOk() && View() == SteerRun(old(View()), text)
      ensures taken <==> TakesSteers(old(View()).handle)
      ensures TakesSteers(old(View()).handle) <==> !old(handle.finishing) && !old(handle.finished)
    {
      hide ObjectsOk;
      hide Fire;
      hide WakersOk;
      hide TakesSteers;
      taken := QueueSteer(text);
      if taken { WakeAll(handle.steerWakers); }
    }

    /** The latched notifier: nothing is published into a finished run; into any other the
        note is pending, and a parked loop is due to resume. */
    method Publish(message: string, key: Option<string>)
      requires Valid()
      modifies this`ledger, this`listeners, this`resolved, handle`steerWakers, inbox, tasks`wakers
      ensures if old(handle.finished) then View() == old(View()) else PendingNote(inbox.entries, message, key)
      ensures !old(handle.finished) && pc.Parked? ==> Won(Waits(), pc.race)
      ensures Valid() && View() == RunStep(old(View()), PublishMove(message, key))
    {
      hide AgentInv;
      hide HandleOk;
      hide HandleInv;
      hide RegistryInv;
      hide Accounted;
      hide RunStep;
      hide Fire;
      hide WakersOk;
      hide Won;
      hide PublishNote;
      hide ObjectsOk;
      StepKeepsInv(View(), PublishMove(message, key));
      PublishMeans(View(), message, key);
      QueuedIsPending(inbox.entries, Note(message, key, |ledger.published|, inbox.window));
      TakeNote(message, key);
    }

    method IsFinished() returns (finished: bool)
      requires ObjectsOk()
      ensures finished == handle.finished && (finished <==> Finished(View()))
    {
      hide HandleInv;
      hide RegistryInv;
      hide Accounted;
      finished := handle.finished;
    }

    method QueueNote(message: string, key: Option<string>)
      requires ObjectsOk() && inbox.published == ledger.published
      modifies this`ledger, inbox`entries, inbox`published, inbox`stamps
      ensures ObjectsOk() && inbox.published == ledger.published
      ensures var note := Note(message, key, |old(ledger).published|, inbox.window);
        View() == old(View()).(inbox := Queue(old(inbox.entries), note),
                               ledger := old(ledger).(published := old(ledger).published + [note]))
    {
      hide HandleInv;
      hide RegistryInv;
      hide Accounted;
      hide Queue;
      ghost var note := Note(message, key, inbox.stamps, inbox.window);
      inbox.Publish(message, key);
      ledger := ledger.(published := ledger.published + [note]);
    }

    method TakeNote(message: string, key: Option<string>)
      requires ObjectsOk() && inbox.published == ledger.published && WakersOk(Waits()) && inbox.wakers <= listeners
      modifies this`ledger, this`listeners, this`resolved, handle`steerWakers, inbox, tasks`wakers
      ensures ObjectsOk() && inbox.published == ledger.published && View() == PublishNote(old(View()), message, key)
      ensures old(handle.finished) <==> Finished(old(View()))
    {
      hide ObjectsOk;
      hide Fire;
      hide WakersOk;
      hide Queue;
      var finished := IsFinished();
      if finished { return; }
      QueueNote(message, key);
      WakeAll(inbox.wakers);
    }

    /** The abort reaches every waker at once. */
    method Interrupt()
      requires Valid()
      modifies this`listeners, this`resolved, handle`aborted, handle`steerWakers, inbox`wakers, tasks`wakers
      ensures if old(handle.finished) then View() == old(View()) else handle.aborted && listeners == {}
      ensures !old(handle.finished) && pc.Parked? ==> Won(Waits(), pc.race)
      ensures Valid() && View() == RunStep(old(View()), InterruptMove)
    {
      hide AgentInv;
      hide HandleOk;
      hide HandleInv;
      hide RegistryInv;
      hide Accounted;
      hide RunStep;
      hide Fire;
      hide WakersOk;
      hide Won;
      hide AgentRun.InterruptRun;
      hide ObjectsOk;
      StepKeepsInv(View(), InterruptMove);
      InterruptMeans(View());
      Abort();
    }

    method RaiseAbort()
      requires ObjectsOk() && handle.outcome.None?
      modifies handle`aborted
      ensures ObjectsOk() && View() == old(View()).(handle := RunEvents.Interrupt(old(View()).handle))
    {
      hide HandleInv;
      hide RegistryInv;
      hide Accounted;
      handle.Interrupt();
    }

    method Abort()
      requires ObjectsOk() && WakersOk(Waits())
      modifies this`listeners, this`resolved, handle`aborted, handle`steerWakers, inbox`wakers, tasks`wakers
      ensures ObjectsOk() && View() == AgentRun.InterruptRun(old(View()))
      ensures old(handle.finished) <==> Finished(old(View()))
    {
      hide ObjectsOk;
      hide Fire;
      hide WakersOk;
      var finished := IsFinished();
      if finished { return; }
      RaiseAbort();
      WakeAll(listeners);
    }

    /** Something happens to a background task: its events go to the handle, and a removal
        makes a parked loop due to resume. */
    method TaskMoved(m: TaskMove)
      requires Valid()
      modifies this`listeners, this`resolved, handle`nextSeq, handle`events, handle`steerWakers, handle.stream,
          inbox`wakers, tasks
      ensures |tasks.settled| > |old(tasks.settled)| && pc.Parked? ==> Won(Waits(), pc.race)
      ensures Valid() && View() == RunStep(old(View()), TasksMove(m))
    {
      hide AgentInv;
      hide HandleOk;
      hide HandleInv;
      hide RegistryInv;
      hide Accounted;
      hide RunStep;
      hide Fire;
      hide WakersOk;
      hide Won;
      hide Move;
      hide ObjectsOk;
      ghost var w := View();
      StepKeepsInv(w, TasksMove(m));
      TaskMeans(w, m);
      MoveTask(m);
      assert View() == RunStep(w, TasksMove(m));
    }

    method MoveTask(m: TaskMove)
      requires ObjectsOk() && WakersOk(Waits()) && tasks.wakers <= listeners
      requires var events := Move(tasks.View(), m).events;
        |events| <= 1 && (events != [] ==> MayEmit(handle.View(), TaskLifecycle(events[0])))
      modifies this`listeners, this`resolved, handle`nextSeq, handle`events, handle`steerWakers, handle.stream,
          inbox`wakers, tasks
      ensures ObjectsOk()
      ensures var moved := Move(old(tasks.View()), m);
        && tasks.View() == moved.registry
        && handle.View() == (if moved.events == [] then old(handle.View())
          else RunEvents.Emit(old(handle.View()), TaskLifecycle(moved.events[0])))
        && Waits() == (if moved.registry.changes != old(tasks.changes) then Fire(old(Waits()), old(Waits()).task)
          else old(Waits()))
    {
      hide HandleInv;
      hide RegistryInv;
      hide Accounted;
      hide Fire;
      hide WakersOk;
      hide Move;
      var seen, changes := |tasks.emitted|, tasks.changes;
      Supervise(m);
      if |tasks.emitted| > seen { handle.Emit(TaskLifecycle(tasks.emitted[seen])); }
      if tasks.changes != changes { WakeEach(tasks.wakers); }
    }

    method Supervise(m: TaskMove)
      requires tasks.Valid()
      modifies tasks
      ensures tasks.Valid() && tasks.Did(Move(old(tasks.View()), m))
    {
      match m {
        case RegisterTask(tag, silent) => var _, _ := tasks.Register(tag, silent);
        case TaskDone(id, outcome) => tasks.Settle(id, outcome);
        case CancelTask(tag, reason) => var _ := tasks.Cancel(tag, reason);
        case TeardownDone(id) => tasks.TeardownReturned(id);
        case CompletionDone(id) => tasks.CompletionReturned(id);
      }
    }
  }
}
