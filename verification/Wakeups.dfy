/** How the parked loop waits. One park is one race of three promises. Each waits on its own
    source and on the signal that the race shares; whichever resolves first resumes the loop,
    which aborts the race's signal and so unhooks the other two. */
module Wakeups {
  datatype Source = SteerSource | NoteSource | TaskSource

  /** The closure one wait leaves behind; it serves one race on one source. */
  datatype Waker = Waker(race: nat, source: Source)

  /** `steer`, `note` and `task` are the waker sets of handle, mailbox and registry,
      `listeners` the wakers hooked to the signal of their race, `resolved` those whose
      promise has resolved; `races` counts the parks. */
  datatype Wakers = Wakers(
    races: nat,
    steer: set<Waker>,
    note: set<Waker>,
    task: set<Waker>,
    listeners: set<Waker>,
    resolved: set<Waker>)

  const NO_WAKERS := Wakers(0, {}, {}, {}, {}, {})

  /** The closures run: each leaves its source and its signal and resolves its promise. */
  function Fire(k: Wakers, fired: set<Waker>): Wakers {
    k.(steer := k.steer - fired, note := k.note - fired, task := k.task - fired,
       listeners := k.listeners - fired, resolved := k.resolved + fired)
  }

  /** A level-triggered wait: resolved at once if there is something already, else hooked. */
  function Wait(k: Wakers, waker: Waker, ready: bool): Wakers {
    if ready then k.(resolved := k.resolved + {waker})
    else
      var hooked := k.(listeners := k.listeners + {waker});
      match waker.source
      case SteerSource => hooked.(steer := k.steer + {waker})
      case NoteSource => hooked.(note := k.note + {waker})
      case TaskSource => hooked.(task := k.task + {waker})
  }

  function StartRace(k: Wakers, steers: bool, notes: bool, changed: bool): Wakers {
    var a := Wait(k, Waker(k.races, SteerSource), steers);
    var b := Wait(a, Waker(k.races, NoteSource), notes);
    Wait(b, Waker(k.races, TaskSource), changed).(races := k.races + 1)
  }

  lemma WaitKeepsCount(k: Wakers, steers: bool, notes: bool, changed: bool)
    ensures var a := Wait(k, Waker(k.races, SteerSource), steers);
      a.races == k.races && Wait(a, Waker(k.races, NoteSource), notes).races == k.races
  {
  }

  predicate Won(k: Wakers, race: nat) {
    exists s: Source :: Waker(race, s) in k.resolved
  }

  function OfRace(wakers: set<Waker>, race: nat): set<Waker> {
    set w | w in wakers && w.race == race
  }

  /** The race's own signal aborts. */
  function EndRace(k: Wakers, race: nat): Wakers {
    Fire(k, OfRace(k.listeners, race))
  }

  // ----- what firing and waiting keep ----------------------------------------------------------

  /** A waker is hooked to its signal exactly while it is in its source's set, and its
      promise resolves exactly when it leaves both. */
  ghost predicate WakersOk(k: Wakers) {
    && k.listeners == k.steer + k.note + k.task
    && (forall w :: w in k.steer ==> w.source.SteerSource?)
    && (forall w :: w in k.note ==> w.source.NoteSource?)
    && (forall w :: w in k.task ==> w.source.TaskSource?)
    && (forall w: Waker :: w.race < k.races <==> w in k.listeners || w in k.resolved)
    && k.listeners !! k.resolved
  }

  lemma FireKeeps(k: Wakers, fired: set<Waker>)
    requires WakersOk(k) && fired <= k.listeners
    ensures WakersOk(Fire(k, fired))
  {
    var n := Fire(k, fired);
    assert n.listeners == n.steer + n.note + n.task;
    forall w: Waker ensures w.race < n.races <==> w in n.listeners || w in n.resolved {}
  }

  lemma FireInTurn(k: Wakers, first: set<Waker>, second: set<Waker>)
    ensures Fire(Fire(k, first), second) == Fire(k, first + second)
  {
  }

  lemma RaceKeeps(k: Wakers, steers: bool, notes: bool, changed: bool)
    requires WakersOk(k)
    ensures WakersOk(StartRace(k, steers, notes, changed))
  {
    var n := StartRace(k, steers, notes, changed);
    assert n.listeners == n.steer + n.note + n.task;
    forall w: Waker ensures w.race < n.races <==> w in n.listeners || w in n.resolved {
      if w.race == k.races {
        assert w == Waker(k.races, w.source);
        match w.source {
          case SteerSource =>
          case NoteSource =>
          case TaskSource =>
        }
      }
    }
  }

  /** All three waits of a race are still out. */
  ghost predicate Hooked(k: Wakers, race: nat) {
    && Waker(race, SteerSource) in k.steer && Waker(race, NoteSource) in k.note && Waker(race, TaskSource) in k.task
    && (forall s: Source :: Waker(race, s) in k.listeners)
  }

  /** Only `race` has wakers out. */
  ghost predicate OnlyRace(k: Wakers, race: nat) {
    forall w :: w in k.listeners ==> w.race == race
  }

  /** A race nobody won has all its wakers out. */
  lemma UnwonIsHooked(k: Wakers, race: nat)
    requires WakersOk(k) && race < k.races && !Won(k, race)
    ensures Hooked(k, race)
  {
    forall s: Source ensures Waker(race, s) in k.listeners {
      assert Waker(race, s).race < k.races;
    }
  }

  /** The race is over at once exactly if one of its sources is ready; if none is, its three
      wakers are hooked to their sources and to the signal. */
  lemma RaceStarts(k: Wakers, steers: bool, notes: bool, changed: bool)
    requires WakersOk(k)
    ensures var n := StartRace(k, steers, notes, changed);
      && (Won(n, k.races) <==> steers || notes || changed)
      && (Won(n, k.races) || Hooked(n, k.races))
  {
    var n := StartRace(k, steers, notes, changed);
    forall s: Source ensures Waker(k.races, s) !in k.resolved {
      assert !(Waker(k.races, s).race < k.races);
    }
    if steers { assert Waker(k.races, SteerSource) in n.resolved; }
    if notes { assert Waker(k.races, NoteSource) in n.resolved; }
    if changed { assert Waker(k.races, TaskSource) in n.resolved; }
    RaceKeeps(k, steers, notes, changed);
    if !Won(n, k.races) { UnwonIsHooked(n, k.races); }
  }

  /** Ending the only race leaves no waker behind, and every promise resolved. */
  lemma EndUnhooks(k: Wakers, race: nat)
    requires WakersOk(k) && OnlyRace(k, race)
    ensures WakersOk(EndRace(k, race)) && EndRace(k, race).listeners == {}
  {
    FireKeeps(k, OfRace(k.listeners, race));
  }
}
