/** The run's mailbox of published notes. */
module Notifications {
  import opened Text
  import opened Wakeups

  // A pending note with the same key is replaced in place, everything else queues, and the
  // loop drains the lot at a boundary.

  /** `stamp` numbers the publishes of a run and `window` counts the drains before this
      one; both only serve to say what became of each publish. */
  datatype Note = Note(message: string, key: Option<string>, stamp: nat, window: nat)

  /** Position of the pending note that `key` replaces, or the length when there is none. */
  function PendingIndex(entries: seq<Note>, key: Option<string>): (i: nat)
    ensures i <= |entries|
    ensures i < |entries| ==> key.Some? && entries[i].key == key
    ensures key.Some? ==> forall t :: 0 <= t < i ==> entries[t].key != key
    ensures key.None? ==> i == |entries|
  {
    if entries == [] || (key.Some? && entries[0].key == key) then 0
    else 1 + PendingIndex(entries[1..], key)
  }

  function Queue(entries: seq<Note>, note: Note): seq<Note> {
    var i := PendingIndex(entries, note.key);
    if i < |entries| then entries[i := note] else entries + [note]
  }

  // ----- what becomes of every publish ------------------------------------------------

  /** A later publish with the same key, made before the loop drained again. */
  ghost predicate Superseded(published: seq<Note>, i: int) {
    0 <= i < |published| && published[i].key.Some? &&
    exists j :: i < j < |published| && published[j].key == published[i].key &&
      published[j].window == published[i].window
  }

  ghost predicate FromPublishes(published: seq<Note>, notes: seq<Note>) {
    forall x :: 0 <= x < |notes| ==> notes[x].stamp < |published| && published[notes[x].stamp] == notes[x]
  }

  ghost predicate DistinctStamps(notes: seq<Note>) {
    forall x, y :: 0 <= x < y < |notes| ==> notes[x].stamp != notes[y].stamp
  }

  ghost predicate DistinctKeys(notes: seq<Note>) {
    forall x, y :: 0 <= x < y < |notes| && notes[x].key.Some? ==> notes[x].key != notes[y].key
  }

  ghost predicate Stamped(published: seq<Note>) {
    forall i :: 0 <= i < |published| ==> published[i].stamp == i
  }

  /** The queue that the publishes of one window leave. */
  function QueueOf(published: seq<Note>, window: nat): seq<Note> {
    if published == [] then []
    else
      var front, last := QueueOf(published[..|published| - 1], window), published[|published| - 1];
      if last.window == window then Queue(front, last) else front
  }

  /** What the first `window` drains took, one queue after the other. */
  function DrainedBy(published: seq<Note>, window: nat): seq<Note> {
    if window == 0 then [] else DrainedBy(published, window - 1) + QueueOf(published, window - 1)
  }

  /** Delivered is what the drains so far took, window by window in queue order; pending is
      what the publishes since then left queued. */
  ghost predicate Accounted(published: seq<Note>, delivered: seq<Note>, pending: seq<Note>, window: nat) {
    && Stamped(published) && (forall i :: 0 <= i < |published| ==> published[i].window <= window)
    && delivered == DrainedBy(published, window) && pending == QueueOf(published, window)
  }

  lemma NothingPublished()
    ensures Accounted([], [], [], 0)
  {
  }

  /** A window nobody published in leaves no queue. */
  lemma {:induction false} QuietWindow(published: seq<Note>, window: nat)
    requires forall i :: 0 <= i < |published| ==> published[i].window != window
    ensures QueueOf(published, window) == []
  {
    if published != [] { QuietWindow(published[..|published| - 1], window); }
  }

  lemma {:induction false} LaterPublish(published: seq<Note>, window: nat, note: Note)
    requires window <= note.window
    ensures DrainedBy(published + [note], window) == DrainedBy(published, window)
  {
    if window > 0 {
      LaterPublish(published, window - 1, note);
      assert (published + [note])[..|published|] == published;
    }
  }

  /** Publishing keeps the account, whether the note queues or replaces another. */
  lemma PublishKeeps(published: seq<Note>, delivered: seq<Note>, pending: seq<Note>, window: nat, note: Note)
    requires Accounted(published, delivered, pending, window)
    requires note.stamp == |published| && note.window == window
    ensures Accounted(published + [note], delivered, Queue(pending, note), window)
  {
    LaterPublish(published, window, note);
    assert (published + [note])[..|published|] == published;
  }

  /** Draining delivers everything pending, in queue order. */
  lemma DrainKeeps(published: seq<Note>, delivered: seq<Note>, pending: seq<Note>, window: nat)
    requires Accounted(published, delivered, pending, window)
    ensures Accounted(published, delivered + pending, [], window + 1)
  {
    QuietWindow(published, window + 1);
  }

  /** A window's queue holds, once each, its publishes that no later one there replaced. */
  ghost predicate HoldsWindow(published: seq<Note>, queue: seq<Note>, window: nat) {
    && FromPublishes(published, queue) && DistinctStamps(queue) && DistinctKeys(queue)
    && (forall x :: 0 <= x < |queue| ==> queue[x].window == window)
    && (forall i :: 0 <= i < |published| ==>
      (published[i] in queue <==> published[i].window == window && !Superseded(published, i)))
  }

  lemma SupersededAfter(published: seq<Note>, note: Note, i: int)
    requires 0 <= i < |published|
    ensures Superseded(published + [note], i) <==>
      Superseded(published, i) || (published[i].key.Some? && note.key == published[i].key &&
        note.window == published[i].window)
  {
    var more := published + [note];
    if Superseded(published, i) {
      var j :| i < j < |published| && published[j].key == published[i].key &&
        published[j].window == published[i].window;
      assert more[j] == published[j] && more[i] == published[i];
    } else if published[i].key.Some? && note.key == published[i].key && note.window == published[i].window {
      assert more[|published|] == note && more[i] == published[i];
    }
  }

  /** `note` goes last, or takes the place of the one pending note of its key. */
  lemma QueueContents(queue: seq<Note>, note: Note, other: Note)
    requires DistinctKeys(queue) && other != note
    ensures other in Queue(queue, note) <==> other in queue && !(note.key.Some? && other.key == note.key)
    ensures note in Queue(queue, note)
  {
    var at, after := PendingIndex(queue, note.key), Queue(queue, note);
    assert after[at] == note;
    if other in queue && !(note.key.Some? && other.key == note.key) {
      var x :| 0 <= x < |queue| && queue[x] == other;
      assert after[x] == other;
    }
    if other in after {
      var x :| 0 <= x < |after| && after[x] == other;
      assert x != at && x < |queue| && queue[x] == other;
    }
  }

  lemma QueueKeepsShape(published: seq<Note>, queue: seq<Note>, note: Note)
    requires FromPublishes(published, queue) && DistinctStamps(queue) && DistinctKeys(queue) &&
        note.stamp == |published|
    requires forall x :: 0 <= x < |queue| ==> queue[x].window == note.window
    ensures var after := Queue(queue, note);
      && FromPublishes(published + [note], after) && DistinctStamps(after) && DistinctKeys(after)
      && forall x :: 0 <= x < |after| ==> after[x].window == note.window
  {
    var after := Queue(queue, note);
    forall x | 0 <= x < |after| ensures after[x] == note || (x < |queue| && after[x] == queue[x]) {}
  }

  lemma QueueHolds(published: seq<Note>, queue: seq<Note>, note: Note)
    requires Stamped(published) && HoldsWindow(published, queue, note.window) && note.stamp == |published|
    ensures HoldsWindow(published + [note], Queue(queue, note), note.window)
  {
    var more, after := published + [note], Queue(queue, note);
    QueueKeepsShape(published, queue, note);
    forall i | 0 <= i < |published| ensures more[i] in after <==>
      more[i].window == note.window && !Superseded(more, i) {
      assert more[i] == published[i] && more[i] != note;
      SupersededAfter(published, note, i);
      QueueContents(queue, note, more[i]);
    }
    QueueContents(queue, note, Note("", None, |published| + 1, 0));
    assert !Superseded(more, |published|);
    hide Queue;
    hide DistinctKeys;
    hide DistinctStamps;
    hide FromPublishes;
  }

  lemma OtherWindowHolds(published: seq<Note>, queue: seq<Note>, window: nat, note: Note)
    requires Stamped(published) && HoldsWindow(published, queue, window) && note.stamp == |published| &&
        note.window != window
    ensures HoldsWindow(published + [note], queue, window)
  {
    var more := published + [note];
    assert more[|published|] == note;
    forall i | 0 <= i < |published| ensures more[i] in queue <==> more[i].window == window && !Superseded(more, i) {
      SupersededAfter(published, note, i);
    }
  }

  lemma {:induction false} EveryWindowHolds(published: seq<Note>, window: nat)
    requires Stamped(published)
    ensures HoldsWindow(published, QueueOf(published, window), window)
  {
    if published != [] {
      var front, last := published[..|published| - 1], published[|published| - 1];
      assert published == front + [last];
      EveryWindowHolds(front, window);
      hide HoldsWindow;
      if last.window == window { QueueHolds(front, QueueOf(front, window), last); }
      else { OtherWindowHolds(front, QueueOf(front, window), window, last); }
    }
  }

  ghost predicate HoldsEarlier(published: seq<Note>, taken: seq<Note>, window: nat) {
    && FromPublishes(published, taken) && DistinctStamps(taken)
    && (forall x :: 0 <= x < |taken| ==> taken[x].window < window)
    && (forall i :: 0 <= i < |published| ==>
      (published[i] in taken <==> published[i].window < window && !Superseded(published, i)))
  }

  lemma NextWindowHolds(published: seq<Note>, taken: seq<Note>, queue: seq<Note>, window: nat)
    requires Stamped(published) && HoldsEarlier(published, taken, window) && HoldsWindow(published, queue, window)
    ensures HoldsEarlier(published, taken + queue, window + 1)
  {
    hide Superseded;
    hide DistinctKeys;
    hide Stamped;
  }

  /** What the drains took: each surviving publish of an earlier window, once. */
  lemma {:induction false} DrainedHolds(published: seq<Note>, window: nat)
    requires Stamped(published)
    ensures HoldsEarlier(published, DrainedBy(published, window), window)
  {
    if window > 0 {
      hide HoldsEarlier;
      hide HoldsWindow;
      hide Stamped;
      hide QueueOf;
      DrainedHolds(published, window - 1);
      EveryWindowHolds(published, window - 1);
      NextWindowHolds(published, DrainedBy(published, window - 1), QueueOf(published, window - 1), window - 1);
    }
  }

  /** What became of every publish: it is delivered or pending, by the window it fell in,
      unless a later one of its window and key replaced it; nothing is held twice. */
  lemma PublishFate(published: seq<Note>, delivered: seq<Note>, pending: seq<Note>, window: nat)
    requires Accounted(published, delivered, pending, window)
    ensures FromPublishes(published, delivered + pending) && DistinctStamps(delivered + pending)
    ensures forall i :: 0 <= i < |published| ==>
      && (published[i] in delivered <==> published[i].window < window && !Superseded(published, i))
      && (published[i] in pending <==> published[i].window == window && !Superseded(published, i))
  {
    DrainedHolds(published, window);
    EveryWindowHolds(published, window);
    hide Superseded;
    hide DistinctKeys;
  }

  // ----- the order in a queue -------------------------------------------------------------

  /** The window's first publish with this key, or the number of publishes. */
  function FirstWithKey(published: seq<Note>, window: nat, key: Option<string>): (f: nat)
    ensures f <= |published|
    ensures f < |published| ==> published[f].window == window && published[f].key == key
    ensures forall t :: 0 <= t < f && published[t].window == window ==> published[t].key != key
  {
    if published == [] then 0
    else
      var n := |published| - 1;
      var f := FirstWithKey(published[..n], window, key);
      assert forall t :: 0 <= t < n ==> published[t] == published[..n][t];
      if f < n || (published[n].window == window && published[n].key == key) then f else n + 1
  }

  /** The publish whose place the note has: the first of its key in its window, or itself
      without a key. */
  function PlaceOf(published: seq<Note>, note: Note): nat {
    if note.key.None? then note.stamp else FirstWithKey(published, note.window, note.key)
  }

  ghost predicate PlacesKept(published: seq<Note>, queue: seq<Note>) {
    forall x, y :: 0 <= x < y < |queue| ==> PlaceOf(published, queue[x]) < PlaceOf(published, queue[y])
  }

  /** Every key published in the window is in its queue. */
  ghost predicate KeysHeld(published: seq<Note>, queue: seq<Note>, window: nat) {
    forall i :: 0 <= i < |published| && published[i].window == window && published[i].key.Some? ==>
      exists x :: 0 <= x < |queue| && queue[x].key == published[i].key
  }

  lemma PlaceStays(published: seq<Note>, more: Note, note: Note)
    requires note.stamp < |published| && published[note.stamp] == note
    ensures PlaceOf(published + [more], note) == PlaceOf(published, note) < |published|
  {
    assert (published + [more])[..|published|] == published;
  }

  lemma KeyIsHeld(published: seq<Note>, queue: seq<Note>, window: nat, f: nat)
    requires KeysHeld(published, queue, window)
    requires f < |published| && published[f].window == window && published[f].key.Some?
    ensures PendingIndex(queue, published[f].key) < |queue|
  {
    var x :| 0 <= x < |queue| && queue[x].key == published[f].key;
  }

  lemma FirstGrows(published: seq<Note>, note: Note)
    ensures FirstWithKey(published + [note], note.window, note.key) == FirstWithKey(published, note.window, note.key)
  {
    assert (published + [note])[..|published|] == published;
  }

  /** A new note goes last, or has the place of the one it replaces. */
  lemma NewPlace(published: seq<Note>, queue: seq<Note>, note: Note)
    requires KeysHeld(published, queue, note.window) && note.stamp == |published|
    requires forall x :: 0 <= x < |queue| ==> queue[x].window == note.window
    ensures var at := PendingIndex(queue, note.key);
      PlaceOf(published + [note], note) == if at < |queue| then PlaceOf(published, queue[at]) else |published|
  {
    FirstGrows(published, note);
    var f := FirstWithKey(published, note.window, note.key);
    if note.key.Some? && f < |published| { KeyIsHeld(published, queue, note.window, f); }
    hide FirstWithKey;
    hide KeysHeld;
  }

  lemma QueueKeepsPlaces(published: seq<Note>, queue: seq<Note>, note: Note)
    requires PlacesKept(published, queue) && KeysHeld(published, queue, note.window)
    requires FromPublishes(published, queue) && note.stamp == |published|
    requires forall x :: 0 <= x < |queue| ==> queue[x].window == note.window
    ensures PlacesKept(published + [note], Queue(queue, note))
  {
    var all, after := published + [note], Queue(queue, note);
    NewPlace(published, queue, note);
    forall x | 0 <= x < |queue| ensures PlaceOf(all, queue[x]) == PlaceOf(published, queue[x]) < |published| {
      PlaceStays(published, note, queue[x]);
    }
    hide PlaceOf;
    hide FirstWithKey;
    hide KeysHeld;
    forall x | 0 <= x < |after|
      ensures PlaceOf(all, after[x]) == if x < |queue| then PlaceOf(published, queue[x]) else |published| {}
  }

  lemma KeysStay(published: seq<Note>, queue: seq<Note>, note: Note)
    requires KeysHeld(published, queue, note.window)
    ensures KeysHeld(published + [note], Queue(queue, note), note.window)
  {
    var all, after, at := published + [note], Queue(queue, note), PendingIndex(queue, note.key);
    assert after[at] == note;
    forall i | 0 <= i < |all| && all[i].window == note.window && all[i].key.Some?
      ensures exists x :: 0 <= x < |after| && after[x].key == all[i].key
    {
      if i < |published| {
        assert all[i] == published[i];
        var x :| 0 <= x < |queue| && queue[x].key == published[i].key;
        assert after[x].key == queue[x].key;
      }
    }
  }

  lemma OtherKeepsPlaces(published: seq<Note>, queue: seq<Note>, window: nat, note: Note)
    requires PlacesKept(published, queue) && KeysHeld(published, queue, window) && FromPublishes(published, queue)
    requires note.window != window
    ensures PlacesKept(published + [note], queue) && KeysHeld(published + [note], queue, window)
  {
    var all := published + [note];
    forall x | 0 <= x < |queue| ensures PlaceOf(all, queue[x]) == PlaceOf(published, queue[x]) {
      PlaceStays(published, note, queue[x]);
    }
    forall i | 0 <= i < |all| && all[i].window == window && all[i].key.Some?
      ensures exists x :: 0 <= x < |queue| && queue[x].key == all[i].key
    {
      assert all[i] == published[i];
    }
    hide PlaceOf;
  }

  /** A window's queue stands in the order in which its keys were first published there: a
      replacing note takes the place of the one it replaces. */
  lemma {:induction false} QueueInOrder(published: seq<Note>, window: nat)
    requires Stamped(published)
    ensures PlacesKept(published, QueueOf(published, window)) && KeysHeld(published, QueueOf(published, window), window)
  {
    if published != [] {
      var front, last := published[..|published| - 1], published[|published| - 1];
      assert published == front + [last];
      QueueInOrder(front, window);
      EveryWindowHolds(front, window);
      hide PlacesKept;
      hide KeysHeld;
      if last.window == window {
        QueueKeepsPlaces(front, QueueOf(front, window), last);
        KeysStay(front, QueueOf(front, window), last);
      } else {
        OtherKeepsPlaces(front, QueueOf(front, window), window, last);
      }
    }
  }

  /** By window, and within one by the place of each note. */
  ghost predicate InOrder(published: seq<Note>, notes: seq<Note>) {
    forall x, y :: 0 <= x < y < |notes| ==>
      notes[x].window < notes[y].window ||
        (notes[x].window == notes[y].window && PlaceOf(published, notes[x]) < PlaceOf(published, notes[y]))
  }

  lemma {:induction false} DrainedInOrder(published: seq<Note>, window: nat)
    requires Stamped(published)
    ensures InOrder(published, DrainedBy(published, window))
  {
    if window > 0 {
      var before, queue := DrainedBy(published, window - 1), QueueOf(published, window - 1);
      DrainedInOrder(published, window - 1);
      DrainedHolds(published, window - 1);
      EveryWindowHolds(published, window - 1);
      QueueInOrder(published, window - 1);
      hide PlaceOf;
      hide FromPublishes;
      hide DistinctStamps;
      hide DistinctKeys;
      hide Superseded;
    }
  }

  /** Everything delivered and pending stands in the order of first publishes, window by
      window. */
  lemma AllInOrder(published: seq<Note>, delivered: seq<Note>, pending: seq<Note>, window: nat)
    requires Accounted(published, delivered, pending, window)
    ensures InOrder(published, delivered + pending)
  {
    DrainedInOrder(published, window + 1);
  }

  // ----- the mailbox object -------------------------------------------------------------

  class NotificationInbox {
    var entries: seq<Note>
    var stamps: nat
    var window: nat
    var wakers: set<Waker>
    ghost var published: seq<Note>
    ghost var delivered: seq<Note>

    ghost predicate Valid()
      reads this
    {
      stamps == |published| && Accounted(published, delivered, entries, window)
    }

    constructor ()
      ensures Valid() && entries == [] && published == [] && delivered == [] && stamps == 0 && window == 0 &&
          wakers == {}
    {
      entries, stamps, window, wakers, published, delivered := [], 0, 0, {}, [], [];
      new;
      NothingPublished();
    }

    /** Queue a message, or replace the pending one with the same key where it stands. */
    method Publish(message: string, key: Option<string>)
      requires Valid()
      modifies this`entries, this`published, this`stamps
      ensures Valid()
      ensures var note := Note(message, key, old(stamps), old(window));
        published == old(published) + [note] && entries == Queue(old(entries), note)
      ensures delivered == old(delivered) && window == old(window) && stamps == old(stamps) + 1
    {
      var entry := Note(message, key, stamps, window);
      PublishKeeps(published, delivered, entries, window, entry);
      var pending := -1;
      if key.Some? {
        for i := 0 to |entries|
          invariant PendingIndex(entries, key) == i + PendingIndex(entries[i..], key)
        {
          assert entries[i..][1..] == entries[i + 1..];
          if entries[i].key == key {
            pending := i;
            break;
          }
        }
      }
      if pending >= 0 { entries := entries[pending := entry]; } else { entries := entries + [entry]; }
      published, stamps := published + [entry], stamps + 1;
    }

    /** Take everything pending, in queue order. */
    method Drain() returns (drained: seq<Note>)
      requires Valid()
      modifies this`entries, this`window, this`delivered
      ensures Valid() && drained == old(entries) && entries == []
      ensures delivered == old(delivered) + drained && published == old(published)
      ensures window == old(window) + 1 && stamps == old(stamps)
    {
      DrainKeeps(published, delivered, entries, window);
      drained := entries;
      entries, window := [], window + 1;
      delivered := delivered + drained;
    }

    /** Level-triggered: ready with notes pending or the signal aborted, else hooked to the
        next publish. */
    method WaitForNext(waker: Waker, aborted: bool) returns (ready: bool)
      requires Valid()
      modifies this`wakers
      ensures Valid() && (ready <==> entries != [] || aborted)
      ensures wakers == if ready then old(wakers) else old(wakers) + {waker}
    {
      ready := |entries| > 0 || aborted;
      if !ready { wakers := wakers + {waker}; }
    }
  }
}
