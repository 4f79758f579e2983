/** The per-run task registry. */
module TaskRegistry {
  import opened Text

  type TaskId = nat

  datatype Tag = Tag(kind: string, id: string)

  datatype TaskStatus = TaskSuccess | TaskFailed | TaskCancelled

  datatype TaskOutcome = TaskOutcome(status: TaskStatus, text: string)

  /** Between awaits a task is running, being torn down, or having its completion handled. */
  datatype Stage = Active | TearingDown(pending: TaskOutcome) | Completing(pending: TaskOutcome)

  datatype TaskEntry = TaskEntry(id: TaskId, tag: Tag, silent: bool, stage: Stage)

  datatype TaskEvent = TaskRegistered(id: TaskId, tag: Tag) | TaskSettled(id: TaskId, tag: Tag, outcome: TaskOutcome)

  /** `registered`, `settled` and `handled` record the adopted tasks, the removed ones and
      the handler invocations, in order. */
  datatype Registry = Registry(
    entries: seq<TaskEntry>,
    changes: nat,
    disposed: Option<string>,
    minted: nat,
    registered: seq<TaskEntry>,
    settled: seq<TaskId>,
    handled: seq<TaskId>)

  const NO_TASKS := Registry([], 0, None, 0, [], [], [])

  predicate Settling(e: TaskEntry) { !e.stage.Active? }

  function FindTag(entries: seq<TaskEntry>, tag: Tag): (i: nat)
    ensures i <= |entries|
    ensures i < |entries| ==> entries[i].tag == tag
    ensures forall t :: 0 <= t < i ==> entries[t].tag != tag
  {
    if entries == [] || entries[0].tag == tag then 0 else 1 + FindTag(entries[1..], tag)
  }

  function FindId(entries: seq<TaskEntry>, id: TaskId): (i: nat)
    ensures i <= |entries|
    ensures i < |entries| ==> entries[i].id == id
    ensures forall t :: 0 <= t < i ==> entries[t].id != id
  {
    if entries == [] || entries[0].id == id then 0 else 1 + FindId(entries[1..], id)
  }

  /** A registry move and the events it emits. */
  datatype Moved = Moved(registry: Registry, events: seq<TaskEvent>)

  datatype Registration = Latched(taskId: TaskId) | Adopted(taskId: TaskId) | TagActive

  function Registering(r: Registry, tag: Tag): Registration {
    if r.disposed.Some? then Latched(r.minted)
    else if FindTag(r.entries, tag) < |r.entries| then TagActive
    else Adopted(r.minted)
  }

  function Register(r: Registry, tag: Tag, silent: bool): Moved {
    var minted := r.(minted := r.minted + 1);
    match Registering(r, tag)
    case Latched(_) => Moved(minted, [])
    case TagActive => Moved(minted, [])
    case Adopted(id) =>
      var entry := TaskEntry(id, tag, silent, Active);
      Moved(minted.(entries := r.entries + [entry], registered := r.registered + [entry]), [TaskRegistered(id, tag)])
  }

  function RemoveAt(entries: seq<TaskEntry>, i: nat): seq<TaskEntry>
    requires i < |entries|
  {
    entries[..i] + entries[i + 1..]
  }

  function Remove(r: Registry, i: nat, outcome: TaskOutcome): Moved
    requires i < |r.entries|
  {
    var e := r.entries[i];
    Moved(r.(entries := RemoveAt(r.entries, i), changes := r.changes + 1, settled := r.settled + [e.id]),
          [TaskSettled(e.id, e.tag, outcome)])
  }

  /** Completion handling starts: a silent task goes at once, any other gets its handler
      invoked. */
  function BeginComplete(r: Registry, i: nat, outcome: TaskOutcome): Moved
    requires i < |r.entries|
  {
    if r.entries[i].silent then Remove(r, i, outcome)
    else Moved(r.(entries := r.entries[i := r.entries[i].(stage := Completing(outcome))],
                  handled := r.handled + [r.entries[i].id]), [])
  }

  /** The task's own promise resolved or rejected. */
  function Settle(r: Registry, id: TaskId, outcome: TaskOutcome): Moved {
    var i := FindId(r.entries, id);
    if i == |r.entries| || Settling(r.entries[i]) then Moved(r, []) else BeginComplete(r, i, outcome)
  }

  function CancelText(reason: Option<string>): string {
    if reason.Some? then reason.value else "cancelled"
  }

  function Cancels(r: Registry, tag: Tag): bool {
    var i := FindTag(r.entries, tag);
    i < |r.entries| && !Settling(r.entries[i])
  }

  function Cancel(r: Registry, tag: Tag, reason: Option<string>): Moved {
    var i := FindTag(r.entries, tag);
    if !Cancels(r, tag) then Moved(r, [])
    else Moved(r.(entries :=
      r.entries[i := r.entries[i].(stage := TearingDown(TaskOutcome(TaskCancelled, CancelText(reason))))]), [])
  }

  /** A task's cancel callback returned. */
  function TeardownReturns(r: Registry, id: TaskId): Moved {
    var i := FindId(r.entries, id);
    if i == |r.entries| || !r.entries[i].stage.TearingDown? then Moved(r, [])
    else BeginComplete(r, i, r.entries[i].stage.pending)
  }

  /** A completion handler returned, threw or ran out of time. */
  function CompletionReturns(r: Registry, id: TaskId): Moved {
    var i := FindId(r.entries, id);
    if i == |r.entries| || !r.entries[i].stage.Completing? then Moved(r, [])
    else Remove(r, i, r.entries[i].stage.pending)
  }

  function StartTeardown(entries: seq<TaskEntry>, reason: string): (es: seq<TaskEntry>)
    ensures |es| == |entries|
    ensures forall i :: 0 <= i < |entries| ==>
      es[i] == if Settling(entries[i]) then entries[i]
        else entries[i].(stage := TearingDown(TaskOutcome(TaskCancelled, reason)))
  {
    seq(|entries|, i requires 0 <= i < |entries| =>
      if Settling(entries[i]) then entries[i]
          else entries[i].(stage := TearingDown(TaskOutcome(TaskCancelled, reason))))
  }

  /** Run-end disposal up to its first await. */
  function Dispose(r: Registry, reason: string): Registry {
    r.(disposed := if r.disposed.Some? then r.disposed else Some(reason), entries := StartTeardown(r.entries, reason))
  }

  // ----- lifecycle -----------------------------------------------------------------------

  ghost predicate DistinctTasks(es: seq<TaskEntry>) {
    forall i, j :: 0 <= i < j < |es| ==> es[i].id != es[j].id
  }

  ghost predicate DistinctTags(es: seq<TaskEntry>) {
    forall i, j :: 0 <= i < j < |es| ==> es[i].tag != es[j].tag
  }

  ghost predicate Distinct(ids: seq<TaskId>) {
    forall i, j :: 0 <= i < j < |ids| ==> ids[i] != ids[j]
  }

  ghost predicate Holds(es: seq<TaskEntry>, id: TaskId) {
    exists i :: 0 <= i < |es| && es[i].id == id
  }

  /** The open entry of an adopted task is that task, at some stage. */
  ghost predicate StageOf(adopted: TaskEntry, e: TaskEntry) {
    e == adopted.(stage := e.stage)
  }

  /** Where an adopted task stands: still open, or settled; its handler ran exactly if it
      has one and its completion has begun. */
  ghost predicate TaskOk(r: Registry, t: TaskEntry) {
    && (t.id in r.settled <==> !Holds(r.entries, t.id))
    && (forall i :: 0 <= i < |r.entries| && r.entries[i].id == t.id ==>
          StageOf(t, r.entries[i]) && (t.id in r.handled <==> r.entries[i].stage.Completing?))
    && (t.id in r.settled ==> (t.id in r.handled <==> !t.silent))
    && t.id < r.minted
  }

  /** Every id in the records belongs to an adopted task. */
  ghost predicate RecordsOk(r: Registry) {
    && (forall id :: id in r.settled ==> Holds(r.registered, id))
    && (forall id :: id in r.handled ==> Holds(r.registered, id))
    && (forall i :: 0 <= i < |r.entries| ==> Holds(r.registered, r.entries[i].id))
    && (forall i :: 0 <= i < |r.entries| && r.entries[i].stage.Completing? ==> !r.entries[i].silent)
  }

  ghost predicate RegistryInv(r: Registry) {
    && DistinctTasks(r.entries) && DistinctTags(r.entries) && DistinctTasks(r.registered)
    && Distinct(r.settled) && Distinct(r.handled)
    && (forall t :: 0 <= t < |r.registered| ==> TaskOk(r, r.registered[t]))
    && RecordsOk(r)
    && |r.registered| == |r.entries| + |r.settled|
    && r.changes == |r.settled|
    && (r.disposed.Some? ==> forall i :: 0 <= i < |r.entries| ==> Settling(r.entries[i]))
  }

  datatype TaskMove =
    | RegisterTask(tag: Tag, silent: bool)
    | TaskDone(id: TaskId, outcome: TaskOutcome)
    | CancelTask(tag: Tag, reason: Option<string>)
    | TeardownDone(id: TaskId)
    | CompletionDone(id: TaskId)

  function Move(r: Registry, m: TaskMove): Moved {
    match m
    case RegisterTask(tag, silent) => Register(r, tag, silent)
    case TaskDone(id, outcome) => Settle(r, id, outcome)
    case CancelTask(tag, reason) => Cancel(r, tag, reason)
    case TeardownDone(id) => TeardownReturns(r, id)
    case CompletionDone(id) => CompletionReturns(r, id)
  }

  // ----- every move keeps the lifecycle -------------------------------------------------------

  lemma HeldAfterAppend(es: seq<TaskEntry>, e: TaskEntry, id: TaskId)
    ensures Holds(es + [e], id) <==> Holds(es, id) || e.id == id
  {
    if Holds(es, id) {
      var i :| 0 <= i < |es| && es[i].id == id;
      assert (es + [e])[i].id == id;
    }
    if e.id == id { assert (es + [e])[|es|].id == id; }
  }

  lemma AdoptKeepsTask(r: Registry, n: Registry, entry: TaskEntry, t: TaskEntry)
    requires TaskOk(r, t) && t.id != entry.id
    requires n == r.(minted := r.minted + 1, entries := r.entries + [entry], registered := n.registered)
    ensures TaskOk(n, t)
  {
    HeldAfterAppend(r.entries, entry, t.id);
  }

  lemma AdoptKeepsRecords(r: Registry, n: Registry, entry: TaskEntry)
    requires RecordsOk(r) && entry.stage.Active?
    requires n == r.(minted := n.minted, entries := r.entries + [entry], registered := r.registered + [entry])
    ensures RecordsOk(n)
  {
    forall id ensures Holds(n.registered, id) <==> Holds(r.registered, id) || id == entry.id {
      HeldAfterAppend(r.registered, entry, id);
    }
  }

  lemma AdoptKeeps(r: Registry, entry: TaskEntry)
    requires RegistryInv(r) && r.disposed.None?
    requires entry.id == r.minted && entry.stage.Active? && FindTag(r.entries, entry.tag) == |r.entries|
    ensures RegistryInv(r.(minted := r.minted + 1, entries := r.entries + [entry],
        registered := r.registered + [entry]))
  {
    var n := r.(minted := r.minted + 1, entries := r.entries + [entry], registered := r.registered + [entry]);
    FreshIdIsUnused(r);
    AdoptKeepsRecords(r, n, entry);
    assert TaskOk(n, entry) by { HeldAfterAppend(r.entries, entry, entry.id); }
    hide RecordsOk;
    forall t | 0 <= t < |n.registered| ensures TaskOk(n, n.registered[t]) {
      if t < |r.registered| { AdoptKeepsTask(r, n, entry, r.registered[t]); }
    }
    hide TaskOk;
  }

  lemma FreshIdIsUnused(r: Registry)
    requires RegistryInv(r)
    ensures r.minted !in r.settled && r.minted !in r.handled
    ensures !Holds(r.entries, r.minted) && !Holds(r.registered, r.minted)
  {
    forall t | 0 <= t < |r.registered| ensures r.registered[t].id != r.minted { assert TaskOk(r, r.registered[t]); }
  }

  lemma OpenTaskIsAdopted(r: Registry, i: nat) returns (t: nat)
    requires RegistryInv(r) && i < |r.entries|
    ensures t < |r.registered| && StageOf(r.registered[t], r.entries[i]) && TaskOk(r, r.registered[t])
    ensures r.entries[i].id !in r.settled
    ensures r.entries[i].id in r.handled <==> r.entries[i].stage.Completing?
  {
    assert Holds(r.registered, r.entries[i].id);
    t :| 0 <= t < |r.registered| && r.registered[t].id == r.entries[i].id;
    assert TaskOk(r, r.registered[t]) && Holds(r.entries, r.registered[t].id);
  }

  lemma HoldsRemoved(r: Registry, i: nat, id: TaskId)
    requires DistinctTasks(r.entries) && i < |r.entries|
    ensures Holds(RemoveAt(r.entries, i), id) <==> Holds(r.entries, id) && id != r.entries[i].id
  {
    var es := RemoveAt(r.entries, i);
    if Holds(es, id) {
      var x :| 0 <= x < |es| && es[x].id == id;
      assert es[x] == r.entries[if x < i then x else x + 1];
    }
    if Holds(r.entries, id) && id != r.entries[i].id {
      var x :| 0 <= x < |r.entries| && r.entries[x].id == id;
      assert es[if x < i then x else x - 1] == r.entries[x];
    }
  }

  lemma RemoveKeeps(r: Registry, i: nat, outcome: TaskOutcome)
    requires RegistryInv(r) && i < |r.entries| && (r.entries[i].silent || r.entries[i].stage.Completing?)
    ensures RegistryInv(Remove(r, i, outcome).registry)
  {
    var n := Remove(r, i, outcome).registry;
    forall t | 0 <= t < |r.registered| ensures TaskOk(n, r.registered[t]) { RemoveKeepsTask(r, i, outcome, t); }
    RemoveKeepsRecords(r, i, outcome);
    forall x | 0 <= x < |n.entries| ensures n.entries[x] == r.entries[if x < i then x else x + 1] {}
    var gone := OpenTaskIsAdopted(r, i);
    hide TaskOk;
    hide RecordsOk;
    hide Holds;
  }

  lemma RemoveKeepsTask(r: Registry, i: nat, outcome: TaskOutcome, t: nat)
    requires RegistryInv(r) && i < |r.entries| && (r.entries[i].silent || r.entries[i].stage.Completing?) &&
        t < |r.registered|
    ensures TaskOk(Remove(r, i, outcome).registry, r.registered[t])
  {
    var n, task := Remove(r, i, outcome).registry, r.registered[t];
    var gone := OpenTaskIsAdopted(r, i);
    HoldsRemoved(r, i, task.id);
    assert TaskOk(r, task);
    forall x | 0 <= x < |n.entries| ensures n.entries[x] == r.entries[if x < i then x else x + 1] {}
    hide RecordsOk;
    hide Holds;
  }

  lemma RemoveKeepsRecords(r: Registry, i: nat, outcome: TaskOutcome)
    requires RegistryInv(r) && i < |r.entries|
    ensures RecordsOk(Remove(r, i, outcome).registry)
  {
    var n := Remove(r, i, outcome).registry;
    assert RecordsOk(r) && Holds(r.registered, r.entries[i].id);
    forall x | 0 <= x < |n.entries| ensures n.entries[x] == r.entries[if x < i then x else x + 1] {}
    hide TaskOk;
    hide Holds;
  }

  lemma HoldsRestaged(es: seq<TaskEntry>, i: nat, e: TaskEntry, id: TaskId)
    requires i < |es| && e.id == es[i].id
    ensures Holds(es[i := e], id) <==> Holds(es, id)
  {
    forall x | 0 <= x < |es| ensures es[i := e][x].id == es[x].id {}
    if Holds(es, id) {
      var x :| 0 <= x < |es| && es[x].id == id;
      assert es[i := e][x].id == id;
    }
  }

  /** Moving an entry to its next stage; `handled` grows when its handler is invoked. */
  lemma RestageKeeps(r: Registry, i: nat, stage: Stage)
    requires RegistryInv(r) && i < |r.entries| && !r.entries[i].stage.Completing? && !stage.Active?
    requires stage.Completing? ==> !r.entries[i].silent
    ensures RegistryInv(r.(entries := r.entries[i := r.entries[i].(stage := stage)],
                           handled := if stage.Completing? then r.handled + [r.entries[i].id] else r.handled))
  {
    var e := r.entries[i].(stage := stage);
    var n := r.(entries := r.entries[i := e], handled := if stage.Completing? then r.handled + [e.id] else r.handled);
    var own := OpenTaskIsAdopted(r, i);
    forall id ensures Holds(n.entries, id) <==> Holds(r.entries, id) { HoldsRestaged(r.entries, i, e, id); }
    forall t | 0 <= t < |r.registered| ensures TaskOk(n, r.registered[t]) {
      assert TaskOk(r, r.registered[t]);
    }
  }

  lemma BeginCompleteKeeps(r: Registry, i: nat, outcome: TaskOutcome)
    requires RegistryInv(r) && i < |r.entries| && !r.entries[i].stage.Completing?
    ensures RegistryInv(BeginComplete(r, i, outcome).registry)
  {
    if r.entries[i].silent { RemoveKeeps(r, i, outcome); } else { RestageKeeps(r, i, Completing(outcome)); }
  }

  lemma DisposeHoldsSame(r: Registry, reason: string, id: TaskId)
    ensures Holds(Dispose(r, reason).entries, id) <==> Holds(r.entries, id)
  {
    if Holds(r.entries, id) {
      var x :| 0 <= x < |r.entries| && r.entries[x].id == id;
      assert Dispose(r, reason).entries[x].id == id;
    }
  }

  lemma DisposeKeepsTask(r: Registry, reason: string, t: TaskEntry)
    requires TaskOk(r, t)
    ensures TaskOk(Dispose(r, reason), t)
  {
    var n := Dispose(r, reason);
    DisposeHoldsSame(r, reason, t.id);
    hide Holds;
    forall i | 0 <= i < |n.entries| && n.entries[i].id == t.id
      ensures StageOf(t, n.entries[i]) && (t.id in r.handled <==> n.entries[i].stage.Completing?)
    {
      assert StageOf(t, r.entries[i]);
    }
  }

  lemma DisposeKeeps(r: Registry, reason: string)
    requires RegistryInv(r)
    ensures RegistryInv(Dispose(r, reason)) && Dispose(r, reason).disposed.Some?
  {
    hide TaskOk;
    forall t | 0 <= t < |r.registered| ensures TaskOk(Dispose(r, reason), r.registered[t]) {
      DisposeKeepsTask(r, reason, r.registered[t]);
    }
    hide Holds;
  }

  ghost predicate NoneSettles(r: Registry, m: Moved) {
    && m.registry.changes == r.changes && m.registry.settled == r.settled
    && forall e :: e in m.events ==> e.TaskRegistered?
  }

  ghost predicate OneSettles(r: Registry, m: Moved) {
    && |m.events| == 1 && m.events[0].TaskSettled?
    && m.registry.changes == r.changes + 1 && m.registry.settled == r.settled + [m.events[0].id]
  }

  ghost predicate AdoptsNothing(r: Registry, m: Moved) {
    && m.registry.registered == r.registered && |m.registry.entries| <= |r.entries|
    && forall e :: e in m.events ==> e.TaskSettled?
  }

  /** What one move does to the records: at most one task settles, and only then does the
      counter advance; a disposed registry adopts nothing more. */
  ghost predicate Advances(r: Registry, m: Moved) {
    && (NoneSettles(r, m) || OneSettles(r, m))
    && r.registered <= m.registry.registered && r.handled <= m.registry.handled
    && m.registry.disposed == r.disposed
    && (r.disposed.Some? ==> AdoptsNothing(r, m))
  }

  lemma StayAdvances(r: Registry, entries: seq<TaskEntry>)
    requires |entries| == |r.entries|
    ensures Advances(r, Moved(r.(entries := entries), []))
  {
  }

  lemma RemoveAdvances(r: Registry, i: nat, outcome: TaskOutcome)
    requires i < |r.entries|
    ensures Advances(r, Remove(r, i, outcome))
  {
  }

  lemma BeginCompleteAdvances(r: Registry, i: nat, outcome: TaskOutcome)
    requires i < |r.entries|
    ensures Advances(r, BeginComplete(r, i, outcome))
  {
    if r.entries[i].silent { RemoveAdvances(r, i, outcome); }
  }

  lemma RegisterAdvances(r: Registry, tag: Tag, silent: bool)
    ensures Advances(r, Register(r, tag, silent))
  {
  }

  lemma MoveAdvances(r: Registry, m: TaskMove)
    ensures Advances(r, Move(r, m))
  {
    hide Advances;
    hide BeginComplete;
    hide Remove;
    hide Register;
    StayAdvances(r, r.entries);
    match m {
      case RegisterTask(tag, silent) => RegisterAdvances(r, tag, silent);
      case TaskDone(id, outcome) =>
        var i := FindId(r.entries, id);
        if i < |r.entries| { BeginCompleteAdvances(r, i, outcome); }
      case CancelTask(tag, reason) => StayAdvances(r, Cancel(r, tag, reason).registry.entries);
      case TeardownDone(id) =>
        var i := FindId(r.entries, id);
        if i < |r.entries| && r.entries[i].stage.TearingDown? {
          BeginCompleteAdvances(r, i, r.entries[i].stage.pending);
        }
      case CompletionDone(id) =>
        var i := FindId(r.entries, id);
        if i < |r.entries| && r.entries[i].stage.Completing? { RemoveAdvances(r, i, r.entries[i].stage.pending); }
    }
  }

  lemma MoveKeeps(r: Registry, m: TaskMove)
    requires RegistryInv(r)
    ensures RegistryInv(Move(r, m).registry)
  {
    hide RegistryInv;
    hide BeginComplete;
    match m {
      case RegisterTask(tag, silent) => RegisterKeeps(r, tag, silent);
      case TaskDone(id, outcome) =>
        var i := FindId(r.entries, id);
        if i < |r.entries| && !Settling(r.entries[i]) { BeginCompleteKeeps(r, i, outcome); }
      case CancelTask(tag, reason) =>
        if Cancels(r, tag) {
          RestageKeeps(r, FindTag(r.entries, tag), TearingDown(TaskOutcome(TaskCancelled, CancelText(reason))));
        }
      case TeardownDone(id) =>
        var i := FindId(r.entries, id);
        if i < |r.entries| && r.entries[i].stage.TearingDown? { BeginCompleteKeeps(r, i, r.entries[i].stage.pending); }
      case CompletionDone(id) =>
        var i := FindId(r.entries, id);
        if i < |r.entries| && r.entries[i].stage.Completing? { RemoveKeeps(r, i, r.entries[i].stage.pending); }
    }
  }

  lemma RegisterKeeps(r: Registry, tag: Tag, silent: bool)
    requires RegistryInv(r)
    ensures RegistryInv(Register(r, tag, silent).registry)
  {
    if Registering(r, tag).Adopted? { AdoptKeeps(r, TaskEntry(r.minted, tag, silent, Active)); }
    else { MintKeeps(r); }
  }

  lemma MintKeeps(r: Registry)
    requires RegistryInv(r)
    ensures RegistryInv(r.(minted := r.minted + 1))
  {
    var n := r.(minted := r.minted + 1);
    forall t | 0 <= t < |r.registered| ensures TaskOk(n, r.registered[t]) { assert TaskOk(r, r.registered[t]); }
  }

  // ----- run-end disposal ---------------------------------------------------------------------

  function Moves(r: Registry, ms: seq<TaskMove>): Registry {
    if ms == [] then r else Move(Moves(r, ms[..|ms| - 1]), ms[|ms| - 1]).registry
  }

  lemma {:induction false} MovesKeep(r: Registry, ms: seq<TaskMove>)
    requires RegistryInv(r)
    ensures RegistryInv(Moves(r, ms)) && Moves(r, ms).disposed == r.disposed
  {
    hide RegistryInv;
    hide Move;
    if ms != [] {
      var front := Moves(r, ms[..|ms| - 1]);
      MovesKeep(r, ms[..|ms| - 1]);
      MoveKeeps(front, ms[|ms| - 1]);
      MoveAdvances(front, ms[|ms| - 1]);
    }
  }

  /** Each adopted task is settled at most once and its handler runs at most once, exactly
      once when it has settled and has one, never for a silent task. */
  lemma TasksSettleOnce(ms: seq<TaskMove>, t: nat)
    requires t < |Moves(NO_TASKS, ms).registered|
    ensures var r := Moves(NO_TASKS, ms);
      var task := r.registered[t];
      && Distinct(r.settled) && Distinct(r.handled) && DistinctTags(r.entries)
      && (task.id in r.settled <==> !Holds(r.entries, task.id))
      && (task.id in r.handled ==> !task.silent)
      && (task.id in r.settled && !task.silent ==> task.id in r.handled)
      && |r.registered| - |r.settled| == |r.entries| && r.changes == |r.settled|
  {
    EmptyRegistry();
    MovesKeep(NO_TASKS, ms);
    var r := Moves(NO_TASKS, ms);
    var task := r.registered[t];
    assert TaskOk(r, task);
    if task.id !in r.settled {
      var i :| 0 <= i < |r.entries| && r.entries[i].id == task.id;
      assert StageOf(task, r.entries[i]);
    }
  }

  lemma EmptyRegistry()
    ensures RegistryInv(NO_TASKS)
  {
  }

  lemma RemoveHoldsFewer(r: Registry, i: nat, outcome: TaskOutcome, id: TaskId)
    requires i < |r.entries| && Holds(Remove(r, i, outcome).registry.entries, id)
    ensures Holds(r.entries, id)
  {
    var es := RemoveAt(r.entries, i);
    var x :| 0 <= x < |es| && es[x].id == id;
    assert r.entries[if x < i then x else x + 1].id == id;
  }

  lemma RestageHoldsSame(r: Registry, i: nat, stage: Stage, id: TaskId)
    requires i < |r.entries| && Holds(r.entries[i := r.entries[i].(stage := stage)], id)
    ensures Holds(r.entries, id)
  {
    var x :| 0 <= x < |r.entries| && r.entries[i := r.entries[i].(stage := stage)][x].id == id;
    assert r.entries[x].id == id;
  }

  lemma BeginCompleteHoldsFewer(r: Registry, i: nat, outcome: TaskOutcome, id: TaskId)
    requires i < |r.entries| && Holds(BeginComplete(r, i, outcome).registry.entries, id)
    ensures Holds(r.entries, id)
  {
    if r.entries[i].silent {
      RemoveHoldsFewer(r, i, outcome, id);
    } else {
      RestageHoldsSame(r, i, Completing(outcome), id);
    }
  }

  lemma MoveHoldsFewer(r: Registry, m: TaskMove, id: TaskId)
    requires r.disposed.Some? && Holds(Move(r, m).registry.entries, id)
    ensures Holds(r.entries, id)
  {
    hide Holds;
    hide BeginComplete;
    hide Remove;
    match m {
      case RegisterTask(tag, silent) =>
      case TaskDone(task, outcome) =>
        var i := FindId(r.entries, task);
        if i < |r.entries| && !Settling(r.entries[i]) { BeginCompleteHoldsFewer(r, i, outcome, id); }
      case CancelTask(tag, reason) =>
        var i := FindTag(r.entries, tag);
        if Cancels(r, tag) { RestageHoldsSame(r, i, TearingDown(TaskOutcome(TaskCancelled, CancelText(reason))), id); }
      case TeardownDone(task) =>
        var i := FindId(r.entries, task);
        if i < |r.entries| && r.entries[i].stage.TearingDown? {
          BeginCompleteHoldsFewer(r, i, r.entries[i].stage.pending, id);
        }
      case CompletionDone(task) =>
        var i := FindId(r.entries, task);
        if i < |r.entries| && r.entries[i].stage.Completing? { RemoveHoldsFewer(r, i, r.entries[i].stage.pending, id); }
    }
  }

  lemma {:induction false} MovesHoldFewer(r: Registry, ms: seq<TaskMove>, id: TaskId)
    requires RegistryInv(r) && r.disposed.Some? && Holds(Moves(r, ms).entries, id)
    ensures Holds(r.entries, id)
  {
    hide RegistryInv;
    hide Holds;
    hide Move;
    if ms != [] {
      MovesKeep(r, ms[..|ms| - 1]);
      MoveHoldsFewer(Moves(r, ms[..|ms| - 1]), ms[|ms| - 1], id);
      MovesHoldFewer(r, ms[..|ms| - 1], id);
    }
  }

  /** The disposal of `r` has returned once every task it took on is gone. */
  ghost predicate DisposalReturned(r: Registry, later: Registry) {
    forall i :: 0 <= i < |r.entries| && !Settling(r.entries[i]) ==> !Holds(later.entries, r.entries[i].id)
  }

  ghost predicate WasSettling(r: Registry, id: TaskId) {
    exists i :: 0 <= i < |r.entries| && r.entries[i].id == id && Settling(r.entries[i])
  }

  /** What the disposal leaves behind was already settling when it was called. */
  lemma DisposalLeavesOnlySettling(r: Registry, reason: string, ms: seq<TaskMove>, id: TaskId)
    requires RegistryInv(r)
    requires var later := Moves(Dispose(r, reason), ms); DisposalReturned(r, later) && Holds(later.entries, id)
    ensures WasSettling(r, id)
  {
    DisposeKeeps(r, reason);
    var d := Dispose(r, reason);
    MovesHoldFewer(d, ms, id);
    var i :| 0 <= i < |d.entries| && d.entries[i].id == id;
    assert r.entries[i].id == id;
  }

  /** Teardown and completion take one task out and leave every other entry alone. */
  lemma FinishOne(r: Registry, i: nat)
    requires DistinctTasks(r.entries) && i < |r.entries| && r.entries[i].stage.TearingDown?
    ensures var id := r.entries[i].id;
      Move(Move(r, TeardownDone(id)).registry, CompletionDone(id)).registry.entries == RemoveAt(r.entries, i)
  {
    var id := r.entries[i].id;
    assert FindId(r.entries, id) == i;
    var a := Move(r, TeardownDone(id)).registry;
    if r.entries[i].silent {
      assert a.entries == RemoveAt(r.entries, i);
      forall x | 0 <= x < |a.entries| ensures a.entries[x].id != id {
        assert a.entries[x] == r.entries[if x < i then x else x + 1];
      }
      assert FindId(a.entries, id) == |a.entries|;
    } else {
      var pending := r.entries[i].stage.pending;
      assert a.entries == r.entries[i := r.entries[i].(stage := Completing(pending))];
      forall x | 0 <= x < i ensures a.entries[x].id != id { assert a.entries[x] == r.entries[x]; }
      assert a.entries[i].id == id;
      assert FindId(a.entries, id) == i;
      assert RemoveAt(a.entries, i) == RemoveAt(r.entries, i);
    }
  }

  /** A schedule in which the disposal returns while a task that was settling stays open. */
  lemma {:induction false} FinishOthers(r: Registry, keep: TaskId, open: set<TaskId>) returns (ms: seq<TaskMove>)
    requires RegistryInv(r) && Holds(r.entries, keep) && keep !in open
    requires forall i :: 0 <= i < |r.entries| && r.entries[i].id in open ==> r.entries[i].stage.TearingDown?
    ensures var later := Moves(r, ms);
      Holds(later.entries, keep) && forall id :: id in open ==> !Holds(later.entries, id)
    decreases |r.entries|
  {
    hide RegistryInv;
    hide Move;
    hide Moves;
    if exists i :: 0 <= i < |r.entries| && r.entries[i].id in open {
      var i :| 0 <= i < |r.entries| && r.entries[i].id in open;
      var id := r.entries[i].id;
      var next := FinishNext(r, keep, open, i);
      var rest := FinishOthers(next, keep, open);
      ms := [TeardownDone(id), CompletionDone(id)] + rest;
      TwoMoves(r, TeardownDone(id), CompletionDone(id));
      MovesSplit(r, [TeardownDone(id), CompletionDone(id)], rest);
    } else {
      ms := [];
      NoMoves(r);
    }
  }

  lemma FinishNext(r: Registry, keep: TaskId, open: set<TaskId>, i: nat) returns (next: Registry)
    requires RegistryInv(r) && Holds(r.entries, keep) && keep !in open
    requires forall x :: 0 <= x < |r.entries| && r.entries[x].id in open ==> r.entries[x].stage.TearingDown?
    requires i < |r.entries| && r.entries[i].id in open
    ensures next == Move(Move(r, TeardownDone(r.entries[i].id)).registry, CompletionDone(r.entries[i].id)).registry
    ensures RegistryInv(next) && Holds(next.entries, keep) && |next.entries| == |r.entries| - 1
    ensures forall x :: 0 <= x < |next.entries| && next.entries[x].id in open ==> next.entries[x].stage.TearingDown?
  {
    hide Move;
    var id := r.entries[i].id;
    FinishOne(r, i);
    MoveKeeps(r, TeardownDone(id));
    MoveKeeps(Move(r, TeardownDone(id)).registry, CompletionDone(id));
    next := Move(Move(r, TeardownDone(id)).registry, CompletionDone(id)).registry;
    HoldsRemoved(r, i, keep);
    forall x | 0 <= x < |next.entries| && next.entries[x].id in open ensures next.entries[x].stage.TearingDown? {
      assert next.entries[x] == r.entries[if x < i then x else x + 1];
    }
  }

  lemma NoMoves(r: Registry)
    ensures Moves(r, []) == r
  {
  }

  lemma TwoMoves(r: Registry, a: TaskMove, b: TaskMove)
    ensures Moves(r, [a, b]) == Move(Move(r, a).registry, b).registry
  {
    hide Move;
    assert [a, b][..1] == [a];
    assert [a][..0] == [];
    assert Moves(r, [a]) == Move(Moves(r, []), a).registry;
  }

  lemma {:induction false} MovesSplit(r: Registry, a: seq<TaskMove>, b: seq<TaskMove>)
    ensures Moves(r, a + b) == Moves(Moves(r, a), b)
  {
    if b == [] {
      assert a + b == a;
    } else {
      assert (a + b)[..|a + b| - 1] == a + b[..|b| - 1];
      MovesSplit(r, a, b[..|b| - 1]);
    }
  }

  /** Driven by `ms`, the disposal has not returned yet or the registry is empty. */
  ghost predicate ReturnsEmpty(r: Registry, reason: string, ms: seq<TaskMove>) {
    var later := Moves(Dispose(r, reason), ms);
    DisposalReturned(r, later) ==> later.entries == []
  }

  lemma SettlingTaskOutlives(r: Registry, reason: string, i: nat) returns (ms: seq<TaskMove>)
    requires RegistryInv(r) && i < |r.entries| && Settling(r.entries[i])
    ensures !ReturnsEmpty(r, reason, ms)
  {
    hide RegistryInv;
    hide Moves;
    DisposeKeeps(r, reason);
    var d := Dispose(r, reason);
    var open := set x | 0 <= x < |r.entries| && !Settling(r.entries[x]) :: r.entries[x].id;
    assert d.entries[i].id == r.entries[i].id;
    DistinctEntries(r);
    ms := FinishOthers(d, r.entries[i].id, open);
  }

  lemma DistinctEntries(r: Registry)
    requires RegistryInv(r)
    ensures DistinctTasks(r.entries)
  {
  }

  /** The registry is empty whenever the disposal returns, exactly if no task was settling
      when it was called: the disposal does not wait for those. */
  lemma DisposalEmptiesExactly(r: Registry, reason: string)
    requires RegistryInv(r)
    ensures (forall ms :: ReturnsEmpty(r, reason, ms)) <==>
        (forall i :: 0 <= i < |r.entries| ==> !Settling(r.entries[i]))
  {
    hide RegistryInv;
    hide Moves;
    hide Dispose;
    if i :| 0 <= i < |r.entries| && Settling(r.entries[i]) {
      var ms := SettlingTaskOutlives(r, reason, i);
    } else {
      forall ms ensures ReturnsEmpty(r, reason, ms) {
        var later := Moves(Dispose(r, reason), ms);
        if DisposalReturned(r, later) && later.entries != [] {
          DisposalLeavesOnlySettling(r, reason, ms, later.entries[0].id);
        }
      }
    }
  }
}
