/** The whole filter: many sessions sharing one history store, with the
    maintenance sweep interleaved at arbitrary points. Events for one session
    arrive in order; interleavings of different sessions and of sweeps are
    arbitrary, which is all the lock around the store guarantees. */
module Engine {
  import opened Records
  import opened History
  import opened Handlers

  /** Identifies a connection; the framework's own session handle is opaque. */
  type SessionId = nat

  datatype World = World(sessions: map<SessionId, SessionData>, store: Store)

  /** One observable step: an event delivered to a session, or a sweep pass. */
  datatype Action = Deliver(id: SessionId, event: Event) | SweepAt(now: int)

  /** The state of a connection; the framework allocates a zeroed session
      before the first event. */
  function SessionOf(w: World, id: SessionId): SessionData
  {
    if id in w.sessions then w.sessions[id] else NewSession()
  }

  /** Performs one action. None means a transaction event reached a session
      with no transaction: the original indexes past the end of an empty
      list there, a runtime panic that stops the filter. */
  function Perform(w: World, a: Action): (r: Option<World>)
    requires Valid(w.store)
    ensures r.None? <==> a.Deliver? && !Enabled(SessionOf(w, a.id), a.event)
    ensures r.Some? ==> Valid(r.value.store)
    ensures r.Some? && ScoresInUnit(w.store) ==> ScoresInUnit(r.value.store)
    ensures a.SweepAt? ==> r.Some? && Bounded(r.value.store) && r.value.sessions == w.sessions
    ensures a.SweepAt? ==> r.Some? && r.value.store.Keys <= w.store.Keys
    ensures a.Deliver? && r.Some? ==>
      forall id :: id in w.sessions && id != a.id ==> id in r.value.sessions && r.value.sessions[id] == w.sessions[id]
  {
    match a
    case SweepAt(now) => Some(World(w.sessions, Sweep(w.store, now)))
    case Deliver(id, e) =>
      var s := SessionOf(w, id);
      if !Enabled(s, e) then None
      else
        var f := Step(Filter(s, w.store), e);
        Some(World(w.sessions[id := f.session], f.store))
  }

  /** Performs a sequence of actions, stopping at the first panic. */
  function Run(w: World, actions: seq<Action>): (r: Option<World>)
    requires Valid(w.store)
    ensures r.Some? ==> Valid(r.value.store)
    ensures r.Some? && ScoresInUnit(w.store) ==> ScoresInUnit(r.value.store)
    decreases |actions|
  {
    if |actions| == 0 then Some(w)
    else
      match Perform(w, actions[0])
      case None => None
      case Some(w') => Run(w', actions[1..])
  }

  /** Running `a` then `b` is running `a + b`. */
  lemma {:induction false} RunConcat(w: World, a: seq<Action>, b: seq<Action>)
    requires Valid(w.store)
    ensures Run(w, a + b) == (match Run(w, a) case None => None case Some(w') => Run(w', b))
    decreases |a|
  {
    if |a| == 0 {
      assert a + b == b;
    } else {
      assert (a + b)[0] == a[0];
      assert (a + b)[1..] == a[1..] + b;
      match Perform(w, a[0])
      case None =>
      case Some(w') => RunConcat(w', a[1..], b);
    }
  }

  /** Whatever happened before, right after a sweep every stored history is
      non-empty and at most MaxHistory long. */
  lemma RunEndingInSweepIsBounded(w: World, actions: seq<Action>, now: int)
    requires Valid(w.store)
    requires Run(w, actions + [SweepAt(now)]).Some?
    ensures Bounded(Run(w, actions + [SweepAt(now)]).value.store)
  {
    RunConcat(w, actions, [SweepAt(now)]);
  }
}
