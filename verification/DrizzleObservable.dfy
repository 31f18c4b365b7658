/** A lazy observation whose primed session is adopted once (Source/Drizzle/DrizzleObservable.ts). */
module DrizzleObservable {
  import opened Options

  /**
   * Sessions are numbered as they start. `watched` is the owner's view: set by `onActive`, cleared by `onIdle`. `adopted`
   * and `over` are history: which sessions were given to a subscriber, and which have closed.
   */
  datatype Observation = Observation(closed: bool, prime: Option<nat>, sessions: set<nat>, started: nat, watched: bool,
                                     adopted: seq<nat>, over: set<nat>)

  function Lazy(): Observation {
    Observation(false, None, {}, 0, false, [], {})
  }

  function Start(o: Observation): Observation {
    o.(sessions := o.sessions + {o.started}, started := o.started + 1, watched := true)
  }

  /** A subscription adopts the prime, or starts a session of its own; `starts` says whether that is allowed. */
  function Subscribe(o: Observation, starts: bool): Observation {
    if o.closed || !starts then o
    else if o.prime.Some? then o.(prime := None, adopted := o.adopted + [o.prime.value])
    else Start(o).(adopted := o.adopted + [o.started])
  }

  /** `current` primes a session, or asks the one that is primed. */
  function Current(o: Observation, starts: bool): Observation {
    if o.closed || o.prime.Some? || !starts then o else Start(o).(prime := Some(o.started))
  }

  /** A session closes, for whatever reason, and tells its owner. */
  function SessionCloses(o: Observation, id: nat): Observation {
    if id !in o.sessions then o else
      var sessions := o.sessions - {id};
      o.(sessions := sessions, over := o.over + {id}, watched := o.watched && sessions != {})
  }

  function Close(o: Observation): Observation {
    if o.closed then o else
      o.(closed := true, prime := None, sessions := {}, over := o.over + o.sessions, watched := false)
  }

  datatype Event = Subscribes(starts: bool) | Asks(starts: bool) | Ends(id: nat) | Closes

  function Next(o: Observation, e: Event): Observation {
    match e
    case Subscribes(starts) => Subscribe(o, starts)
    case Asks(starts) => Current(o, starts)
    case Ends(id) => SessionCloses(o, id)
    case Closes => Close(o)
  }

  function Run(trace: seq<Event>): Observation {
    if trace == [] then Lazy() else Next(Run(trace[..|trace| - 1]), trace[|trace| - 1])
  }

  ghost predicate Inv(o: Observation) {
    && (forall id: nat :: id in o.sessions || id in o.over <==> id < o.started)
    && o.sessions !! o.over
    && (o.watched <==> o.sessions != {})
    && (forall i :: 0 <= i < |o.adopted| ==> o.adopted[i] < o.started)
    && (forall i, j :: 0 <= i < j < |o.adopted| ==> o.adopted[i] != o.adopted[j])
    && (o.prime.Some? ==> o.prime.value < o.started && o.prime.value !in o.adopted && !o.closed)
    && (o.closed ==> o.sessions == {})
  }

  lemma StartsKeep(o: Observation, starts: bool)
    requires Inv(o)
    ensures Inv(Subscribe(o, starts))
    ensures Inv(Current(o, starts))
  {
    assert forall id :: id in o.sessions ==> id < o.started;
    assert o.started in Start(o).sessions;
  }

  lemma EndsKeep(o: Observation, id: nat)
    requires Inv(o)
    ensures Inv(SessionCloses(o, id))
    ensures Inv(Close(o))
  {
  }

  lemma {:induction false} RunKeeps(trace: seq<Event>)
    ensures Inv(Run(trace))
  {
    if trace == [] {
      assert Inv(Lazy());
    } else {
      var o := Run(trace[..|trace| - 1]);
      RunKeeps(trace[..|trace| - 1]);
      hide Inv, Subscribe, Current, SessionCloses, Close;
      match trace[|trace| - 1]
      case Subscribes(starts) => StartsKeep(o, starts);
      case Asks(starts) => StartsKeep(o, starts);
      case Ends(id) => EndsKeep(o, id);
      case Closes => EndsKeep(o, 0);
    }
  }

  /**
   * No session is ever given to two subscribers, a primed one to none but the next; the owner watches exactly while a
   * session is open; and after `close` every session that was ever started has closed.
   */
  lemma SessionsAreAdoptedOnce(trace: seq<Event>)
    ensures var o := Run(trace);
            && (forall i, j :: 0 <= i < j < |o.adopted| ==> o.adopted[i] != o.adopted[j])
            && (o.prime.Some? ==> o.prime.value !in o.adopted)
            && (o.watched <==> o.sessions != {})
            && (o.closed ==> forall id: nat :: id < o.started ==> id in o.over)
  {
    RunKeeps(trace);
    hide Run;
  }

  // ---- what each call means ---------------------------------------------------------------------

  /** Every permitted subscription gets a session: the primed one, or a new one that its owner then watches. */
  lemma SubscribersGetASession(o: Observation)
    requires !o.closed
    ensures var o' := Next(o, Subscribes(true));
            && o'.prime.None? && !o'.closed && o'.over == o.over
            && (if o.prime.Some? then o'.adopted == o.adopted + [o.prime.value] && o'.sessions == o.sessions && o'.started == o.started
                else o'.adopted == o.adopted + [o.started] && o'.sessions == o.sessions + {o.started} && o'.started == o.started + 1 && o'.watched)
  {
  }

  /** Asking primes a session, unless one is primed, and gives none to a subscriber. */
  lemma AskingPrimesASession(o: Observation)
    requires !o.closed
    ensures var o' := Next(o, Asks(true));
            && o'.adopted == o.adopted && !o'.closed && o'.over == o.over
            && (if o.prime.Some? then o' == o
                else o'.prime == Some(o.started) && o'.sessions == o.sessions + {o.started} && o'.started == o.started + 1 && o'.watched)
  {
  }

  /** Nothing is started without permission, or after `close`. */
  lemma NothingStartsOtherwise(o: Observation, starts: bool)
    requires o.closed || !starts
    ensures Next(o, Subscribes(starts)) == o && Next(o, Asks(starts)) == o
  {
  }

  /** A session that closes is forgotten, and with the last one its owner stops watching; `close` ends all of them. */
  lemma EndedSessionsAreForgotten(o: Observation, id: nat)
    requires Inv(o)
    ensures id in o.sessions ==>
              Next(o, Ends(id)) == o.(sessions := o.sessions - {id}, over := o.over + {id}, watched := o.sessions != {id})
    ensures !o.closed ==>
              Next(o, Closes) == o.(closed := true, prime := None, sessions := {}, over := o.over + o.sessions, watched := false)
  {
    if id in o.sessions { assert o.sessions - {id} == {} <==> o.sessions == {id}; }
  }

  /** The permitted subscriptions before `close`, by the calls alone. */
  function Subscriptions(trace: seq<Event>): nat {
    if trace == [] then 0
    else
      var before := trace[..|trace| - 1];
      Subscriptions(before) + if trace[|trace| - 1] == Subscribes(true) && Closes !in before then 1 else 0
  }

  /** In every run each permitted subscription before `close` was given a session, and nothing else was. */
  lemma {:induction false} EverySubscriptionIsServed(trace: seq<Event>)
    ensures |Run(trace).adopted| == Subscriptions(trace)
    ensures Run(trace).closed <==> Closes in trace
  {
    if trace != [] {
      EverySubscriptionIsServed(trace[..|trace| - 1]);
      assert trace == trace[..|trace| - 1] + [trace[|trace| - 1]];
    }
  }

  /**
   * A subscriber is given a session that has closed already exactly when that is the primed one: a prime that ends by
   * itself stays primed until somebody subscribes.
   */
  lemma SubscribersGetAnOpenSessionExactly(o: Observation)
    requires Inv(o) && !o.closed
    ensures var o' := Next(o, Subscribes(true));
            |o'.adopted| == |o.adopted| + 1 && (o'.adopted[|o.adopted|] in o'.sessions <==> !(o.prime.Some? && o.prime.value in o.over))
  {
  }

  lemma EndedPrimesAreHandedOut()
    ensures var o := Next(Next(Next(Lazy(), Asks(true)), Ends(0)), Subscribes(true)); o.adopted == [0] && 0 in o.over
  {
  }

  /** A session, as far as its observable is concerned: how often it was given to a subscriber, and whether it has closed. */
  class SessionHandle {
    const id: nat
    var adoptions: nat
    var closed: bool

    constructor (id: nat)
      ensures this.id == id && adoptions == 0 && !closed
    {
      this.id, adoptions, closed := id, 0, false;
    }
  }

  function IdsOf(s: set<SessionHandle>): set<nat> {
    set x | x in s :: x.id
  }

  lemma EverybodyEnds(o: Observation)
    requires Inv(o)
    ensures forall id: nat :: id < o.started ==> id in Close(o).over
  {
  }

  lemma WatchedWhileOpen(o: Observation)
    requires Inv(o)
    ensures o.watched <==> o.sessions != {}
    ensures o.closed ==> Close(o) == o
  {
  }

  class Observable {
    var closed: bool
    var prime: SessionHandle?
    var sessions: set<SessionHandle>
    var watched: bool
    // History, which the program does not store.
    var started: seq<SessionHandle>
    ghost var adopted: seq<nat>
    ghost var over: set<nat>

    ghost function State(): Observation
      reads this
    {
      Observation(closed, if prime == null then None else Some(prime.id), IdsOf(sessions), |started|, watched, adopted, over)
    }

    predicate Mine(x: SessionHandle)
      reads this`started
    {
      x.id < |started| && started[x.id] == x
    }

    /** The objects agree with each other, and with what happened to them. */
    ghost predicate Sound()
      reads this, started
    {
      && (forall i :: 0 <= i < |started| ==> started[i].id == i)
      && (forall x :: x in sessions ==> Mine(x))
      && (prime != null ==> Mine(prime))
      && (forall i :: 0 <= i < |started| ==>
            && started[i].adoptions == (if i in adopted then 1 else 0)
            && (started[i].closed <==> i in over))
    }

    ghost predicate Valid()
      reads this, started
    {
      Sound() && Inv(State())
    }

    constructor ()
      ensures Valid() && State() == Lazy()
    {
      closed, prime, sessions, watched, started, adopted, over := false, null, {}, false, [], [], {};
    }

    method StartSession() returns (session: SessionHandle)
      requires Valid()
      modifies this`sessions, this`started, this`watched
      ensures Sound() && Mine(session) && fresh(session) && started == old(started) + [session]
      ensures State() == Start(old(State()))
    {
      session := new SessionHandle(|started|);
      started := started + [session];
      sessions := sessions + {session};
      watched := true;
      assert Mine(session) && IdsOf(sessions) == old(IdsOf(sessions)) + {session.id} by { assert session in sessions; }
      assert forall x :: x in sessions ==> Mine(x) by { assert forall x :: x in old(sessions) ==> old(Mine(x)); }
    }

    /** A subscriber is given the primed session, or a new one: one that no other subscriber was or will be given. */
    method Subscribe(starts: bool) returns (session: SessionHandle?)
      requires Valid()
      modifies this, started
      ensures Valid() && State() == Next(old(State()), Subscribes(starts))
      ensures session == null <==> old(closed) || !starts
      ensures session != null ==> session.adoptions == 1 && session in started && (old(prime) != null ==> session == old(prime))
      ensures forall other :: other in old(started) && other != session ==> other.adoptions == old(other.adoptions)
    {
      StartsKeep(State(), starts);
      if closed || !starts { return null; }
      assert prime != null ==> prime.id !in adopted;
      assert |started| !in adopted;
      hide Inv;
      if prime != null { session := prime; } else { session := StartSession(); }
      Give(session);
    }

    /** A session is given to its one subscriber. */
    method Give(session: SessionHandle)
      requires Sound() && Mine(session) && session.id !in adopted
      modifies this`prime, this`adopted, session`adoptions
      ensures Sound() && prime == null && adopted == old(adopted) + [session.id] && session.adoptions == 1
    {
      prime := null;
      adopted := adopted + [session.id];
      session.adoptions := session.adoptions + 1;
    }

    /** `current` primes a session, or asks the one that is primed. */
    method Current(starts: bool) returns (session: SessionHandle?)
      requires Valid()
      modifies this
      ensures Valid() && State() == Next(old(State()), Asks(starts))
      ensures session == prime && (old(prime) != null ==> session == old(prime))
      ensures session == null <==> old(closed) || (old(prime) == null && !starts)
      ensures session != null ==> session.adoptions == 0
    {
      StartsKeep(State(), starts);
      if closed || prime != null || !starts { return prime; }
      prime := StartSession();
      return prime;
    }

    /** The callback a session calls when it closes. */
    method SessionEnds(session: SessionHandle)
      requires Sound() && Mine(session)
      modifies this`sessions, this`over, this`watched, session`closed
      ensures Sound() && State() == SessionCloses(old(State()), session.id)
      ensures sessions == old(sessions) - {session} && (old(Valid()) ==> Valid())
    {
      EndingKeeps(session.id);
      hide Inv;
      if session !in sessions { return; }
      assert forall x :: x in sessions && x != session ==> x.id != session.id;
      sessions := sessions - {session};
      over := over + {session.id};
      session.closed := true;
      if sessions == {} { watched := false; }
      assert IdsOf(sessions) == old(IdsOf(sessions)) - {session.id};
      NobodyLeft();
    }

    lemma EndingKeeps(id: nat)
      ensures Inv(State()) ==> Inv(SessionCloses(State(), id))
    {
      if Inv(State()) { EndsKeep(State(), id); }
    }

    lemma NobodyLeft()
      ensures sessions == {} <==> IdsOf(sessions) == {}
    {
      if x :| x in sessions { assert x.id in IdsOf(sessions); }
    }

    /** The loop of `close`: every session that is open is closed, and calls back. */
    method EndAll()
      requires Sound()
      modifies this`sessions, this`over, this`watched, started
      ensures Sound() && sessions == {} && over == old(over + IdsOf(sessions)) && (watched ==> old(watched) && old(sessions) == {})
    {
      ghost var ids, was := IdsOf(sessions), over;
      while sessions != {}
        invariant Sound() && IdsOf(sessions) <= ids && over == was + (ids - IdsOf(sessions))
        invariant watched ==> old(watched) && (sessions != {} || old(sessions) == {})
        decreases sessions
      {
        var session :| session in sessions;
        EndOne(session);
      }
    }

    method EndOne(session: SessionHandle)
      requires Sound() && session in sessions
      modifies this`sessions, this`over, this`watched, started
      ensures Sound() && sessions == old(sessions) - {session} && IdsOf(sessions) == old(IdsOf(sessions)) - {session.id}
      ensures over == old(over) + {session.id} && session.id in old(IdsOf(sessions))
      ensures watched ==> old(watched) && sessions != {}
    {
      assert Mine(session) && session in started;
      NobodyLeft();
      hide Sound, Inv;
      SessionEnds(session);
      NobodyLeft();
      hide IdsOf;
    }

    method Close()
      requires Valid()
      modifies this, started
      ensures Valid() && State() == Next(old(State()), Closes)
      ensures forall session :: session in started ==> session.closed
    {
      EndsKeep(State(), 0);
      EverybodyEnds(State());
      NobodyLeft();
      WatchedWhileOpen(State());
      hide Inv, Sound, IdsOf;
      if !closed {
        ShutDown();
      }
      OverIsClosed();
    }

    method ShutDown()
      requires Sound() && !closed
      modifies this, started
      ensures Sound() && closed && prime == null && IdsOf(sessions) == {} && started == old(started) && adopted == old(adopted)
      ensures over == old(over + IdsOf(sessions)) && (watched ==> old(watched) && old(sessions) == {})
    {
      hide Sound, Inv;
      Shut();
      EndAll();
      NobodyLeft();
      Forget();
    }

    method Shut()
      requires Sound()
      modifies this`closed
      ensures Sound() && closed
    {
      closed := true;
    }

    lemma OverIsClosed()
      requires Sound() && forall id: nat :: id < |started| ==> id in over
      ensures forall session :: session in started ==> session.closed
    {
    }

    method Forget()
      requires Sound()
      modifies this`prime
      ensures Sound() && prime == null
    {
      prime := null;
    }
  }
}
