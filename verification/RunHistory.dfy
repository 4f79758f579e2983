/** A run's one history list. */
module RunHistory {
  import opened Text
  import opened Notifications

  datatype Call = Call(id: string, name: string, input: string)

  datatype CallResult = CallResult(id: string, content: string, isError: bool, isTerminal: bool)

  datatype Message =
    | Initial(text: string)
    | Steered(text: string)
    | Notified(note: Note)
    | Assistant(text: string, calls: seq<Call>)
    | ToolResults(results: seq<CallResult>)

  // ----- answering a batch ------------------------------------------------------------

  /** The last result carrying `id`. */
  function ResultFor(results: seq<CallResult>, id: string): (r: Option<CallResult>)
    ensures r.Some? ==> r.value in results && r.value.id == id
    ensures r.None? <==> forall x :: 0 <= x < |results| ==> results[x].id != id
  {
    if results == [] then None
    else if results[|results| - 1].id == id then Some(results[|results| - 1])
    else ResultFor(results[..|results| - 1], id)
  }

  lemma {:induction false} ResultForIsLast(results: seq<CallResult>, id: string) returns (i: nat)
    requires ResultFor(results, id).Some?
    ensures i < |results| && results[i].id == id && ResultFor(results, id) == Some(results[i])
    ensures forall j :: i < j < |results| ==> results[j].id != id
  {
    if results[|results| - 1].id == id { i := |results| - 1; }
    else { i := ResultForIsLast(results[..|results| - 1], id); }
  }

  const INTERRUPTED := "interrupted"

  function Interrupted(id: string): CallResult {
    CallResult(id, INTERRUPTED, true, false)
  }

  function Answer(results: seq<CallResult>, id: string): CallResult {
    match ResultFor(results, id)
    case Some(r) => r
    case None => Interrupted(id)
  }

  /** The batch's results as the history records them: whatever the executor returned,
      one answer for every call, in call order. */
  function NormalizeBatch(calls: seq<Call>, results: seq<CallResult>): (r: seq<CallResult>)
    ensures |r| == |calls|
    ensures forall i :: 0 <= i < |calls| ==> r[i] == Answer(results, calls[i].id)
  {
    seq(|calls|, i requires 0 <= i < |calls| => Answer(results, calls[i].id))
  }

  ghost predicate Answers(calls: seq<Call>, results: seq<CallResult>) {
    |results| == |calls| && forall i :: 0 <= i < |calls| ==> results[i].id == calls[i].id
  }

  /** Whatever the executor does, its batch answers exactly the calls, in order; a result
      it gave for a call is kept, the last one when it gave several. */
  lemma NormalizedAnswers(calls: seq<Call>, results: seq<CallResult>)
    ensures Answers(calls, NormalizeBatch(calls, results))
    ensures forall r :: r in NormalizeBatch(calls, results) ==> r in results || (r.isError && !r.isTerminal)
  {
  }

  ghost predicate DistinctIds(calls: seq<Call>) {
    forall i, j :: 0 <= i < j < |calls| ==> calls[i].id != calls[j].id
  }

  /** With distinct ids a complete batch passes through unchanged. */
  lemma NormalizeIsIdentity(calls: seq<Call>, results: seq<CallResult>)
    requires DistinctIds(calls) && Answers(calls, results)
    ensures NormalizeBatch(calls, results) == results
  {
    forall i | 0 <= i < |calls| ensures Answer(results, calls[i].id) == results[i] {
      LastOneCarrying(results, i);
    }
  }

  lemma {:induction false} LastOneCarrying(results: seq<CallResult>, i: nat)
    requires i < |results| && forall x, y :: 0 <= x < y < |results| ==> results[x].id != results[y].id
    ensures ResultFor(results, results[i].id) == Some(results[i])
  {
    if i < |results| - 1 {
      var front := results[..|results| - 1];
      LastOneCarrying(front, i);
    }
  }

  /** Without that, an earlier result can be shadowed by a later one: even the result that
      should end the run. */
  lemma DuplicateIdsShadowResults()
    ensures var done, other := CallResult("a", "submission accepted", false, true), CallResult("a", "ok", false, false);
      var calls := [Call("a", "submit", ""), Call("a", "read", "")];
      NormalizeBatch(calls, [done, other]) == [other, other]
  {
    var done, other := CallResult("a", "submission accepted", false, true), CallResult("a", "ok", false, false);
    assert ResultFor([done, other], "a") == Some(other);
  }

  /** The loop over the executor's results, and then over the calls. */
  method NormalizeResults(calls: seq<Call>, results: seq<CallResult>) returns (answers: seq<CallResult>)
    ensures answers == NormalizeBatch(calls, results)
    ensures Answers(calls, answers)
  {
    var byId: map<string, CallResult> := map[];
    for i := 0 to |results|
      invariant forall id :: id in byId <==> ResultFor(results[..i], id).Some?
      invariant forall id :: id in byId ==> ResultFor(results[..i], id) == Some(byId[id])
    {
      assert results[..i + 1][..i] == results[..i];
      byId := byId[results[i].id := results[i]];
    }
    assert results[..|results|] == results;
    answers := [];
    for i := 0 to |calls|
      invariant |answers| == i && forall t :: 0 <= t < i ==> answers[t] == Answer(results, calls[t].id)
    {
      var id := calls[i].id;
      answers := answers + [if id in byId then byId[id] else Interrupted(id)];
    }
  }

  // ----- the history ---------------------------------------------------------------------

  predicate HasCalls(m: Message) {
    m.Assistant? && m.calls != []
  }

  /** Every assistant message with tool uses is followed at once by the message that
      answers exactly those, in order. */
  ghost predicate History(h: seq<Message>) {
    forall i :: 0 <= i < |h| && HasCalls(h[i]) ==> AnsweredAt(h, i)
  }

  ghost predicate AnsweredAt(h: seq<Message>, i: int) {
    0 <= i < |h| - 1 && h[i].Assistant? && h[i + 1].ToolResults? && Answers(h[i].calls, h[i + 1].results)
  }

  /** All answered but the last message, whose calls are being worked on. */
  ghost predicate Open(h: seq<Message>, calls: seq<Call>) {
    |h| >= 1 && h[|h| - 1].Assistant? && h[|h| - 1].calls == calls && calls != [] && History(h[..|h| - 1])
  }

  lemma HistoryAppends(h: seq<Message>, more: seq<Message>)
    requires History(h) && forall x :: 0 <= x < |more| ==> !HasCalls(more[x])
    ensures History(h + more)
  {
    var all := h + more;
    forall i | 0 <= i < |all| && HasCalls(all[i]) ensures AnsweredAt(all, i) {
      assert i < |h| ==> all[i] == h[i];
      assert AnsweredAt(h, i);
    }
  }

  lemma TurnOpens(h: seq<Message>, text: string, calls: seq<Call>)
    requires History(h) && calls != []
    ensures Open(h + [Assistant(text, calls)], calls)
  {
    assert (h + [Assistant(text, calls)])[..|h|] == h;
  }

  lemma ResultsClose(h: seq<Message>, calls: seq<Call>, results: seq<CallResult>)
    requires Open(h, calls) && Answers(calls, results)
    ensures History(h + [ToolResults(results)])
  {
    var all := h + [ToolResults(results)];
    forall i | 0 <= i < |all| && HasCalls(all[i]) ensures AnsweredAt(all, i) {
      if i < |h| - 1 {
        assert h[..|h| - 1][i] == all[i];
        assert AnsweredAt(h[..|h| - 1], i);
      }
    }
  }

  // ----- what a history holds ----------------------------------------------------------------

  function Steers(h: seq<Message>): seq<string> {
    if h == [] then []
    else
      var last := h[|h| - 1];
      Steers(h[..|h| - 1]) + (if last.Steered? then [last.text] else [])
  }

  function Notes(h: seq<Message>): seq<Note> {
    if h == [] then []
    else
      var last := h[|h| - 1];
      Notes(h[..|h| - 1]) + (if last.Notified? then [last.note] else [])
  }

  function TurnCount(h: seq<Message>): nat {
    if h == [] then 0 else TurnCount(h[..|h| - 1]) + (if h[|h| - 1].Assistant? then 1 else 0)
  }

  lemma LastOfBoth(a: seq<Message>, b: seq<Message>)
    requires b != []
    ensures (a + b)[..|a + b| - 1] == a + b[..|b| - 1] && (a + b)[|a + b| - 1] == b[|b| - 1]
  {
  }

  lemma {:induction false} SteersAppend(a: seq<Message>, b: seq<Message>)
    ensures Steers(a + b) == Steers(a) + Steers(b)
    decreases |b|
  {
    if b == [] {
      assert a + b == a;
    } else {
      LastOfBoth(a, b);
      SteersAppend(a, b[..|b| - 1]);
    }
  }

  lemma {:induction false} NotesAppend(a: seq<Message>, b: seq<Message>)
    ensures Notes(a + b) == Notes(a) + Notes(b)
    decreases |b|
  {
    if b == [] {
      assert a + b == a;
    } else {
      LastOfBoth(a, b);
      NotesAppend(a, b[..|b| - 1]);
    }
  }

  lemma {:induction false} TurnsAppend(a: seq<Message>, b: seq<Message>)
    ensures TurnCount(a + b) == TurnCount(a) + TurnCount(b)
    decreases |b|
  {
    if b == [] {
      assert a + b == a;
    } else {
      LastOfBoth(a, b);
      TurnsAppend(a, b[..|b| - 1]);
    }
  }

  lemma HistoryHolds(a: seq<Message>, b: seq<Message>)
    ensures Steers(a + b) == Steers(a) + Steers(b)
    ensures Notes(a + b) == Notes(a) + Notes(b)
    ensures TurnCount(a + b) == TurnCount(a) + TurnCount(b)
  {
    SteersAppend(a, b);
    NotesAppend(a, b);
    TurnsAppend(a, b);
  }

  function SteerMessages(steers: seq<string>): (ms: seq<Message>)
    ensures |ms| == |steers| && forall i :: 0 <= i < |steers| ==> ms[i] == Steered(steers[i])
  {
    seq(|steers|, i requires 0 <= i < |steers| => Steered(steers[i]))
  }

  function NoteMessages(notes: seq<Note>): (ms: seq<Message>)
    ensures |ms| == |notes| && forall i :: 0 <= i < |notes| ==> ms[i] == Notified(notes[i])
  {
    seq(|notes|, i requires 0 <= i < |notes| => Notified(notes[i]))
  }

  lemma {:induction false} SteerMessagesHold(steers: seq<string>)
    ensures Steers(SteerMessages(steers)) == steers && Notes(SteerMessages(steers)) == [] &&
        TurnCount(SteerMessages(steers)) == 0
  {
    if steers != [] {
      var front := steers[..|steers| - 1];
      assert SteerMessages(steers)[..|steers| - 1] == SteerMessages(front);
      SteerMessagesHold(front);
    }
  }

  lemma {:induction false} NoteMessagesHold(notes: seq<Note>)
    ensures Steers(NoteMessages(notes)) == [] && Notes(NoteMessages(notes)) == notes &&
        TurnCount(NoteMessages(notes)) == 0
  {
    if notes != [] {
      var front := notes[..|notes| - 1];
      assert NoteMessages(notes)[..|notes| - 1] == NoteMessages(front);
      NoteMessagesHold(front);
    }
  }

  // ----- the order in a history ---------------------------------------------------------------

  predicate Marks(m: Message) {
    m.Assistant? || m.ToolResults?
  }

  ghost predicate Parted(h: seq<Message>, i: int, j: int) {
    exists k :: 0 <= i < k < j <= |h| && Marks(h[k])
  }

  /** Between neighbouring assistant and tool-result messages every steer stands before
      every note. */
  ghost predicate SteersFirst(h: seq<Message>) {
    forall i, j :: 0 <= i < j < |h| && h[i].Notified? && h[j].Steered? ==> Parted(h, i, j)
  }

  /** No note since the last assistant or tool-result message. */
  ghost predicate NotesParted(h: seq<Message>) {
    forall i :: 0 <= i < |h| && h[i].Notified? ==> Parted(h, i, |h|)
  }

  lemma DrainOrders(h: seq<Message>, steers: seq<string>, notes: seq<Note>)
    requires SteersFirst(h) && NotesParted(h)
    ensures SteersFirst(h + SteerMessages(steers) + NoteMessages(notes))
  {
    var all := h + SteerMessages(steers) + NoteMessages(notes);
    forall i, j | 0 <= i < j < |all| && all[i].Notified? && all[j].Steered? ensures Parted(all, i, j) {
      assert j < |h| + |steers|;
      assert i < |h| && all[i] == h[i];
      var end := if j < |h| then j else |h|;
      assert j < |h| ==> all[j] == h[j];
      assert Parted(h, i, end);
      var k :| 0 <= i < k < end <= |h| && Marks(h[k]);
      assert Marks(all[k]);
    }
  }

  lemma MarkOrders(h: seq<Message>, m: Message)
    requires SteersFirst(h) && Marks(m)
    ensures SteersFirst(h + [m]) && NotesParted(h + [m])
  {
    var all := h + [m];
    forall i, j | 0 <= i < j < |all| && all[i].Notified? && all[j].Steered? ensures Parted(all, i, j) {
      assert Parted(h, i, j);
      var k :| 0 <= i < k < j <= |h| && Marks(h[k]);
      assert Marks(all[k]);
    }
    forall i | 0 <= i < |all| && all[i].Notified? ensures Parted(all, i, |all|) { assert Marks(all[|h|]); }
  }

  /** The history object: every append pushes onto one list. */
  class Conversation {
    var llm: seq<Message>

    constructor (initial: seq<string>)
      ensures llm == InitialMessages(initial) && History(llm)
    {
      llm := InitialMessages(initial);
    }

    method AppendUser(message: Message)
      requires !message.Assistant? && !message.ToolResults?
      modifies this
      ensures llm == old(llm) + [message]
      ensures old(History(llm)) ==> History(llm)
    {
      ghost var before := llm;
      llm := llm + [message];
      if History(before) { HistoryAppends(before, [message]); }
    }

    method AppendAssistant(text: string, calls: seq<Call>)
      modifies this
      ensures llm == old(llm) + [Assistant(text, calls)]
      ensures old(History(llm)) ==> if calls == [] then History(llm) else Open(llm, calls)
    {
      ghost var before := llm;
      llm := llm + [Assistant(text, calls)];
      if History(before) {
        if calls == [] { HistoryAppends(before, [Assistant(text, calls)]); } else { TurnOpens(before, text, calls); }
      }
    }

    method AppendToolResults(ghost calls: seq<Call>, results: seq<CallResult>)
      modifies this
      ensures llm == old(llm) + [ToolResults(results)]
      ensures old(Open(llm, calls)) && Answers(calls, results) ==> History(llm)
    {
      ghost var before := llm;
      llm := llm + [ToolResults(results)];
      if Open(before, calls) && Answers(calls, results) { ResultsClose(before, calls, results); }
    }
  }

  function InitialMessages(texts: seq<string>): (ms: seq<Message>)
    ensures |ms| == |texts| && forall i :: 0 <= i < |texts| ==> ms[i] == Initial(texts[i])
  {
    seq(|texts|, i requires 0 <= i < |texts| => Initial(texts[i]))
  }

  lemma {:induction false} InitialMessagesHold(texts: seq<string>)
    ensures Steers(InitialMessages(texts)) == [] && Notes(InitialMessages(texts)) == [] &&
        TurnCount(InitialMessages(texts)) == 0
  {
    if texts != [] {
      var front := texts[..|texts| - 1];
      assert InitialMessages(texts)[..|texts| - 1] == InitialMessages(front);
      InitialMessagesHold(front);
    }
  }
}
