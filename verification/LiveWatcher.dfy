/**
 * The watcher as the object it is. Listeners and change streams are objects of their own: the set of listeners, the
 * releases and the pumps that still owe an error share the former, the watcher and each stream's pump the latter. What
 * the machine of MongoDBWatcher keeps as history is here what those objects experienced.
 */
module LiveWatcher {
  import opened Options
  import opened Machine = MongoDBWatcher
  import opened MongoDBWatcherEvents
  import Maps

  /** The callbacks of one `listen`: which streams sent it an event, and how often it was given an error. */
  class Listener {
    const id: nat
    var received: seq<nat>
    var errors: nat

    constructor (id: nat)
      ensures this.id == id && received == [] && errors == 0
    {
      this.id, received, errors := id, [], 0;
    }
  }

  class ChangeStream {
    const number: nat
    var closes: nat

    constructor (number: nat)
      ensures this.number == number && closes == 0
    {
      this.number, closes := number, 0;
    }
  }

  function IdsOf(s: set<Listener>): set<nat> {
    set x | x in s :: x.id
  }

  /** A pump, with the listeners it will tell. */
  datatype LivePump = Pumping | Closing(owed: set<Listener>) | Finished

  function PumpOf(p: LivePump): Pump {
    match p
    case Pumping => Reading
    case Closing(owed) => Failing(IdsOf(owed))
    case Finished => Ended
  }

  function NumberOf(s: ChangeStream?): Option<nat> {
    if s == null then None else Some(s.number)
  }

  function PumpsOf(s: seq<LivePump>): (r: seq<Pump>)
    ensures |r| == |s| && forall i :: 0 <= i < |r| ==> r[i] == PumpOf(s[i])
  {
    seq(|s|, i requires 0 <= i < |s| => PumpOf(s[i]))
  }

  function ClosesOf(s: seq<ChangeStream>): seq<nat>
    reads s
  {
    seq(|s|, i requires 0 <= i < |s| reads s => s[i].closes)
  }

  /** `for (const listener of listeners) listener.change(event)`. */
  method SendEach(xs: set<Listener>, stream: nat)
    modifies xs
    ensures forall x :: x in xs ==> x.received == old(x.received) + [stream] && x.errors == old(x.errors)
  {
    var rest := xs;
    while rest != {}
      invariant rest <= xs
      invariant forall x :: x in xs ==> x.errors == old(x.errors)
      invariant forall x :: x in xs ==> x.received == if x in rest then old(x.received) else old(x.received) + [stream]
      decreases rest
    {
      var x :| x in rest;
      x.received := x.received + [stream];
      rest := rest - {x};
    }
  }

  /** `for (const listener of listeners) listener.error(error)`. */
  method FailEach(xs: set<Listener>)
    modifies xs
    ensures forall x :: x in xs ==> x.errors == old(x.errors) + 1 && x.received == old(x.received)
  {
    var rest := xs;
    while rest != {}
      invariant rest <= xs
      invariant forall x :: x in xs ==> x.received == old(x.received)
      invariant forall x :: x in xs ==> x.errors == if x in rest then old(x.errors) else old(x.errors) + 1
      decreases rest
    {
      var x :| x in rest;
      x.errors := x.errors + 1;
      rest := rest - {x};
    }
  }

  class MongoDBWatcher {
    var disposed: bool
    var generation: nat
    var listeners: set<Listener>
    var stream: ChangeStream?
    var opening: Option<nat>
    // Suspended coroutines, and the objects they refer to: every listener that was registered, every stream opened.
    var starts: seq<Start>
    var calls: map<nat, Call>
    var pumps: seq<LivePump>
    var registered: map<nat, Listener>
    var streams: seq<ChangeStream>
    // History, which the program does not store.
    ghost var told: multiset<nat>
    ghost var released: set<nat>
    ghost var delivered: seq<(nat, set<nat>)>

    predicate Mine(x: Listener)
      reads this`registered
    {
      x.id in registered && registered[x.id] == x
    }

    /** Whatever refers to a listener or a stream refers to the one object that was registered or opened. */
    ghost predicate Shared()
      reads this`listeners, this`stream, this`calls, this`pumps, this`registered, this`streams
    {
      && (forall id :: id in registered ==> registered[id].id == id)
      && (forall x :: x in listeners ==> Mine(x))
      && (forall i, x :: 0 <= i < |pumps| && pumps[i].Closing? && x in pumps[i].owed ==> Mine(x))
      && (forall id :: id in calls && !calls[id].Failed? ==> id in registered)
      && (forall id :: id in registered ==> id in calls)
      && |streams| == |pumps|
      && (forall i :: 0 <= i < |streams| ==> streams[i].number == i)
      && (stream != null ==> stream.number < |streams| && streams[stream.number] == stream)
    }

    /** What the history tells of a listener is what it experienced. */
    ghost predicate Experienced()
      reads this`registered, this`told, this`delivered, registered.Values
    {
      && (forall id :: id in registered ==> registered[id].errors == told[id] && registered[id].received == Received(delivered, id))
      && (forall id :: id !in registered ==> told[id] == 0 && Received(delivered, id) == [])
    }

    ghost function State(): Watcher
      reads this, streams
    {
      Watcher(disposed, generation, IdsOf(listeners), NumberOf(stream), opening, starts, calls, PumpsOf(pumps), ClosesOf(streams), told, released, delivered)
    }

    /** The objects agree with each other and with the history. */
    ghost predicate Sound()
      reads this`listeners, this`stream, this`calls, this`pumps, this`registered, this`streams, this`told, this`delivered, registered.Values
    {
      Shared() && Experienced()
    }

    ghost predicate Valid()
      reads this, streams, registered.Values
    {
      Sound() && Inv(State())
    }

    ghost function Repr(): set<object>
      reads this`registered, this`streams
    {
      var objects: set<object> := registered.Values;
      objects + set s | s in streams
    }

    twostate predicate Grown()
      reads this`registered, this`streams
    {
      old(Repr()) <= Repr() && fresh(Repr() - old(Repr()))
    }

    constructor ()
      ensures Valid() && State() == Open() && fresh(Repr())
    {
      disposed, generation, listeners, stream, opening := false, 0, {}, null, None;
      starts, calls, pumps, registered, streams, told, released, delivered := [], map[], [], map[], [], multiset{}, {}, [];
      new;
      OpenKeeps();
      hide Inv;
    }

    lemma IdsAreTheirs(x: Listener)
      requires Shared() && Mine(x)
      ensures IdsOf(listeners - {x}) == IdsOf(listeners) - {x.id}
    {
    }

    /** `stream.close()`. */
    method Close(s: ChangeStream)
      requires s.number < |streams| && streams[s.number] == s && forall i :: 0 <= i < |streams| ==> streams[i].number == i
      modifies s
      ensures ClosesOf(streams) == old(ClosesOf(streams))[s.number := old(s.closes) + 1]
    {
      s.closes := s.closes + 1;
    }

    method CloseStream()
      requires Sound()
      modifies streams
      ensures Sound()
      ensures ClosesOf(streams) == var was := old(ClosesOf(streams)); var last := old(NumberOf(stream));
              if last.Some? && last.value < |was| then was[last.value := was[last.value] + 1] else was
    {
      hide Experienced;
      if stream != null { Close(stream); }
    }

    method Reset()
      requires Sound()
      modifies this`generation, this`stream, this`opening
      ensures Sound() && generation == old(generation) + 1 && stream == null && opening == None
    {
      hide Experienced;
      generation := generation + 1;
      stream := null;
      opening := None;
    }

    method Halt()
      requires Sound()
      modifies this`generation, this`stream, this`opening, streams
      ensures Sound() && generation == old(generation) + 1 && stream == null && opening == None
      ensures ClosesOf(streams) == var was := old(ClosesOf(streams)); var last := old(NumberOf(stream));
              if last.Some? && last.value < |was| then was[last.value := was[last.value] + 1] else was
    {
      hide Sound, ClosesOf;
      CloseStream();
      Reset();
    }

    /** `stop`, up to the await of the close. */
    method Stop()
      requires Sound()
      modifies this`generation, this`stream, this`opening, streams
      ensures Sound() && State() == Machine.Stop(old(State()))
    {
      hide Experienced, Shared, IdsOf, PumpsOf, ClosesOf;
      Halt();
    }

    twostate lemma RegisteredIsSound(new x: Listener)
      requires old(Sound()) && x.id !in old(calls) && x.received == [] && x.errors == 0
      requires registered == old(registered)[x.id := x] && listeners == old(listeners) + {x} && calls == old(calls)[x.id := Resolved]
      requires stream == old(stream) && pumps == old(pumps) && streams == old(streams) && told == old(told) && delivered == old(delivered)
      requires forall y :: y in old(registered.Values) ==> y.received == old(y.received) && y.errors == old(y.errors)
      ensures Sound()
    {
      hide Received;
      assert Shared() by {
        hide Experienced;
        forall i, y | 0 <= i < |pumps| && pumps[i].Closing? && y in pumps[i].owed ensures Mine(y) { assert old(Mine(y)); }
        forall y | y in listeners ensures Mine(y) { assert y == x || old(Mine(y)); }
      }
      assert Experienced() by { hide Shared; }
    }

    /** The listener object of a `listen`. */
    method Register(id: nat)
      requires Sound() && id !in calls
      modifies this`listeners, this`registered, this`calls
      ensures Sound() && Grown() && calls == old(calls)[id := Resolved]
      ensures IdsOf(listeners) == old(IdsOf(listeners)) + {id}
    {
      assert id !in registered;
      hide Received, Experienced, Shared;
      var listener := new Listener(id);
      Maps.ValuesAdded(registered, id, listener);
      registered := registered[id := listener];
      listeners := listeners + {listener};
      calls := calls[id := Resolved];
      RegisteredIsSound(listener);
      assert IdsOf(listeners) == old(IdsOf(listeners)) + {id} by { assert listener in listeners; }
    }

    /** Join the start under way, or begin one. */
    method Start(id: nat) returns (k: nat)
      modifies this`opening, this`starts
      ensures var was := old(opening); k == (if was.Some? then was.value else old(|starts|)) && opening == Some(k)
      ensures starts == old(starts) + if old(opening).Some? then [] else [Asking(generation, id)]
    {
      if opening.None? {
        opening := Some(|starts|);
        starts := starts + [Asking(generation, id)];
      }
      k := opening.value;
    }

    /** `listen`, up to its await. */
    method Listen(id: nat)
      requires Sound()
      modifies this
      ensures Sound() && Grown() && State() == Machine.Listen(old(State()), id)
    {
      hide Shared, Experienced, IdsOf, PumpsOf, ClosesOf, Machine.Listen;
      ghost var was := State();
      ListensNot(was, id);
      if id in calls { return; }
      if disposed {
        Refuse(id);
        return;
      }
      var k := Enter(id);
      ListensExactly(was, State(), id, k);
    }

    /** The listener is registered, and its `listen` waits for a start. */
    method Enter(id: nat) returns (k: nat)
      requires Sound() && id !in calls
      modifies this`listeners, this`registered, this`calls, this`opening, this`starts
      ensures Sound() && Grown() && calls == old(calls)[id := Waiting(k)] && IdsOf(listeners) == old(IdsOf(listeners)) + {id}
      ensures var was := old(opening); k == (if was.Some? then was.value else old(|starts|)) && opening == Some(k)
      ensures starts == old(starts) + if old(opening).Some? then [] else [Asking(generation, id)]
    {
      hide Shared, Experienced, IdsOf;
      Register(id);
      k := Start(id);
      Await(id, k);
    }

    /** A `listen` that throws at once registers nothing. */
    method Refuse(id: nat)
      requires Sound() && id !in calls
      modifies this`calls
      ensures Sound() && calls == old(calls)[id := Failed]
    {
      hide Experienced;
      calls := calls[id := Failed];
    }

    method Await(id: nat, start: nat)
      requires Sound() && id in calls && calls[id].Resolved?
      modifies this`calls
      ensures Sound() && calls == old(calls)[id := Waiting(start)]
    {
      hide Experienced;
      calls := calls[id := Waiting(start)];
    }

    method StartFails(k: nat)
      requires k < |starts| && starts[k].Asking?
      modifies this`opening, this`starts
      ensures State() == Machine.StartFails(old(State()), k)
    {
      if starts[k].generation == generation { opening := None; }
      starts := starts[k := Rejected];
    }

    /** A stream is opened, and its pump begins to read. */
    method OpenStream()
      requires Sound()
      modifies this`stream, this`pumps, this`streams
      ensures Sound() && Grown() && stream != null && stream.number == old(|pumps|)
      ensures PumpsOf(pumps) == old(PumpsOf(pumps)) + [Reading] && ClosesOf(streams) == old(ClosesOf(streams)) + [0]
    {
      hide Experienced;
      stream := new ChangeStream(|pumps|);
      pumps := pumps + [Pumping];
      streams := streams + [stream];
    }

    /** The server has answered the start of this generation. */
    method OpenIfHeard()
      requires Sound()
      modifies this`opening, this`stream, this`pumps, this`streams
      ensures Sound() && Grown()
      ensures State() == var w := old(State());
              if w.listeners == {} then w.(opening := None)
              else w.(stream := Some(|w.pumps|), pumps := w.pumps + [Reading], closes := w.closes + [0])
    {
      NobodyListens();
      hide Shared, Experienced, IdsOf, PumpsOf, ClosesOf;
      if listeners == {} { opening := None; } else { OpenStream(); }
    }

    method StartAnswers(k: nat)
      requires Sound() && k < |starts| && starts[k].Asking?
      modifies this`opening, this`stream, this`pumps, this`streams, this`starts
      ensures Sound() && Grown() && State() == Machine.StartAnswers(old(State()), k)
    {
      hide Shared, Experienced, IdsOf, PumpsOf, ClosesOf, Repr;
      if !disposed && starts[k].generation == generation { OpenIfHeard(); }
      starts := starts[k := Fulfilled];
    }

    lemma NobodyListens()
      ensures listeners == {} <==> IdsOf(listeners) == {}
    {
      if x :| x in listeners { assert x.id in IdsOf(listeners); }
    }

    /** `listeners.delete(listener)`. */
    method Delete(id: nat)
      requires Sound() && id in registered
      modifies this`listeners
      ensures Sound() && IdsOf(listeners) == old(IdsOf(listeners)) - {id}
    {
      assert Mine(registered[id]) && registered[id].id == id;
      IdsAreTheirs(registered[id]);
      hide Experienced;
      listeners := listeners - {registered[id]};
    }

    /** The await of a `listen` is over, one way or the other. */
    method Settle(id: nat, c: Call)
      requires Sound() && id in registered && id in calls && !c.Waiting?
      modifies this`calls
      ensures Sound() && calls == old(calls)[id := c]
    {
      hide Experienced;
      calls := calls[id := c];
    }

    method ListenResumes(id: nat)
      requires Sound()
      modifies this`listeners, this`calls
      ensures Sound() && State() == Machine.ListenResumes(old(State()), id)
    {
      if id !in calls || !calls[id].Waiting? || |starts| <= calls[id].start || starts[calls[id].start].Asking? { return; }
      assert id in registered;
      hide Shared, Experienced, IdsOf, PumpsOf, ClosesOf, Machine.Drop;
      if starts[calls[id].start].Rejected? || disposed { Throw(id); } else { Settle(id, Resolved); }
    }

    /** A `listen` that throws is forgotten. */
    method Throw(id: nat)
      requires Sound() && id in registered && id in calls
      modifies this`listeners, this`calls
      ensures Sound() && State() == Machine.Drop(old(State()), id)
    {
      hide Shared, Experienced, IdsOf, PumpsOf, ClosesOf;
      Delete(id);
      Settle(id, Failed);
    }

    /** The release that a resolved `listen` returned is called. */
    method Depart(id: nat)
      requires Sound() && id in registered
      modifies this`listeners, this`released
      ensures Sound() && State() == var w := old(State()); w.(listeners := w.listeners - {id}, released := w.released + {id})
    {
      hide Shared, Experienced, IdsOf, PumpsOf, ClosesOf;
      Delete(id);
      released := released + {id};
    }

    method Release(id: nat)
      requires Sound()
      modifies this`listeners, this`released, this`generation, this`stream, this`opening, streams
      ensures Sound() && State() == Machine.Release(old(State()), id)
    {
      if id !in calls || !calls[id].Resolved? { return; }
      assert id in registered;
      hide Shared, Experienced, IdsOf, PumpsOf, ClosesOf, Machine.Stop;
      Depart(id);
      NobodyListens();
      if listeners == {} { Stop(); }
    }

    /** Every listener is given the event. */
    method Deliver()
      requires Sound() && stream != null
      modifies listeners, this`delivered
      ensures Sound() && delivered == old(delivered) + [(stream.number, IdsOf(listeners))]
    {
      IdsAreShared(listeners);
      hide Received, Shared, IdsOf, Experienced;
      SendEach(listeners, stream.number);
      delivered := delivered + [(stream.number, IdsOf(listeners))];
      DeliveredIsExperienced();
    }

    twostate lemma DeliveredIsExperienced()
      requires old(Experienced()) && registered == old(registered) && told == old(told) && listeners == old(listeners)
      requires stream != null && delivered == old(delivered) + [(stream.number, IdsOf(listeners))]
      requires forall id :: id in IdsOf(listeners) <==> id in registered && registered[id] in listeners
      requires forall id :: id in registered ==>
                 && registered[id].errors == old(registered[id].errors)
                 && registered[id].received == old(registered[id].received) + if registered[id] in listeners then [stream.number] else []
      ensures Experienced()
    {
      hide Received, IdsOf;
      forall id ensures Received(delivered, id) == Received(old(delivered), id) + if id in IdsOf(listeners) then [stream.number] else [] {
        ReceivedOn(old(delivered), stream.number, IdsOf(listeners), id);
      }
    }

    lemma IdsAreShared(xs: set<Listener>)
      requires Shared() && forall x :: x in xs ==> Mine(x)
      ensures forall id :: id in IdsOf(xs) <==> id in registered && registered[id] in xs
    {
    }

    /** These listeners are given an error. */
    method Tell(xs: set<Listener>)
      requires Sound() && forall x :: x in xs ==> Mine(x)
      modifies xs, this`told
      ensures Sound() && told == old(told) + multiset(IdsOf(xs))
    {
      IdsAreShared(xs);
      hide Received, Shared, IdsOf, Experienced;
      FailEach(xs);
      told := told + multiset(IdsOf(xs));
      ToldIsExperienced(xs);
    }

    twostate lemma ToldIsExperienced(xs: set<Listener>)
      requires old(Experienced()) && registered == old(registered) && delivered == old(delivered)
      requires told == old(told) + multiset(IdsOf(xs))
      requires forall id :: id in IdsOf(xs) <==> id in registered && registered[id] in xs
      requires forall id :: id in registered ==>
                 && registered[id].errors == old(registered[id].errors) + (if registered[id] in xs then 1 else 0)
                 && registered[id].received == old(registered[id].received)
      ensures Experienced()
    {
      hide Received, IdsOf;
    }

    method PumpBecomes(s: nat, p: LivePump)
      requires Sound() && s < |pumps| && (p.Closing? ==> p.owed <= listeners)
      modifies this`pumps
      ensures Sound() && pumps == old(pumps)[s := p] && PumpsOf(pumps) == old(PumpsOf(pumps))[s := PumpOf(p)]
    {
      hide Experienced;
      pumps := pumps[s := p];
    }

    method Clear()
      requires Sound()
      modifies this`listeners
      ensures Sound() && listeners == {} && IdsOf(listeners) == {}
    {
      hide Experienced;
      listeners := {};
    }

    /** The current stream fails: whoever listened is owed the error, and told once the stream has closed. */
    method PumpFails(s: nat)
      requires Sound() && s < |pumps|
      modifies this`listeners, this`pumps, this`generation, this`stream, this`opening, streams
      ensures Sound() && State() == Machine.PumpFails(old(State()), s)
    {
      hide Shared, Experienced, PumpsOf, ClosesOf, Machine.Stop;
      PumpBecomes(s, Closing(listeners));
      Clear();
      Stop();
    }

    /** What the pump of one stream awaited has arrived. */
    method StreamAnswers(s: nat, event: bool)
      requires Sound()
      modifies this`listeners, this`pumps, this`generation, this`stream, this`opening, this`delivered, streams, registered.Values
      ensures Sound() && State() == Machine.StreamAnswers(old(State()), s, event)
    {
      if |pumps| <= s || !pumps[s].Pumping? { return; }
      ListenersAreOurs();
      hide Shared, Experienced, IdsOf, PumpsOf, ClosesOf, Machine.PumpFails;
      if NumberOf(stream) != Some(s) || disposed {
        PumpBecomes(s, Finished);
      } else if event {
        Deliver();
      } else {
        PumpFails(s);
      }
    }

    lemma ListenersAreOurs()
      requires Shared()
      ensures listeners <= registered.Values
    {
    }

    /** The close of a stream has settled: a pump that failed tells its listeners. */
    method CloseSettles(s: nat)
      requires Sound()
      modifies this`pumps, this`told, registered.Values
      ensures Sound() && State() == Machine.CloseSettles(old(State()), s)
    {
      if |pumps| <= s || !pumps[s].Closing? { return; }
      var owed := pumps[s].owed;
      assert forall x :: x in owed ==> Mine(x);
      assert owed <= registered.Values;
      assert PumpsOf(pumps)[s] == Failing(IdsOf(owed));
      hide Shared, Experienced, IdsOf, PumpsOf, ClosesOf;
      TellOwed(owed, s);
    }

    method TellOwed(owed: set<Listener>, s: nat)
      requires Sound() && s < |pumps| && owed <= registered.Values && forall x :: x in owed ==> Mine(x)
      modifies this`pumps, this`told, registered.Values
      ensures Sound() && told == old(told) + multiset(IdsOf(owed)) && PumpsOf(pumps) == old(PumpsOf(pumps))[s := Ended]
    {
      hide Shared, Experienced, IdsOf, PumpsOf, ClosesOf;
      Tell(owed);
      PumpBecomes(s, Finished);
    }

    method Dispose()
      requires Sound()
      modifies this`disposed, this`listeners, this`told, this`generation, this`stream, this`opening, streams, registered.Values
      ensures Sound() && State() == Machine.Dispose(old(State()))
    {
      hide Shared, Experienced, IdsOf, PumpsOf, ClosesOf, Machine.Stop;
      if disposed { return; }
      disposed := true;
      TellAll();
      Stop();
    }

    /** Everybody is told, and nobody listens any more. */
    method TellAll()
      requires Sound()
      modifies this`listeners, this`told, registered.Values
      ensures Sound() && told == old(told) + multiset(old(IdsOf(listeners))) && IdsOf(listeners) == {}
    {
      ListenersAreOurs();
      assert forall x :: x in listeners ==> Mine(x);
      hide Shared, Experienced, IdsOf, PumpsOf, ClosesOf;
      Tell(listeners);
      Clear();
    }

    method Refused(k: nat)
      requires Sound()
      modifies this`opening, this`starts
      ensures Sound() && State() == Next(old(State()), Event.Refused(k))
    {
      hide Shared, Experienced, Machine.StartFails;
      if k < |starts| && starts[k].Asking? { StartFails(k); }
    }

    method Answered(k: nat)
      requires Sound()
      modifies this`opening, this`stream, this`pumps, this`streams, this`starts
      ensures Sound() && Grown() && State() == Next(old(State()), Event.Answered(k))
    {
      hide Shared, Experienced, Machine.StartAnswers;
      if k < |starts| && starts[k].Asking? { StartAnswers(k); }
    }

    /** One event, whatever its order: the objects follow the machine and keep its invariant. */
    method Handle(e: Event)
      requires Valid()
      modifies this, Repr()
      ensures State() == Next(old(State()), e) && Valid() && Grown()
      ensures e.Streams? && e.event && old(NumberOf(stream)) == Some(e.stream) ==>
                forall x :: x in old(listeners) ==> x.received == old(x.received) + [e.stream]
    {
      hide Inv, Sound, State, Machine.Listen, Machine.ListenResumes, Machine.Release, Machine.StreamAnswers,
           Machine.CloseSettles, Machine.Dispose;
      NextKeeps(State(), e);
      NextIs(State(), e);
      hide Next;
      match e
      case Listens(id) => Listen(id);
      case Refused(k) => Refused(k);
      case Answered(k) => Answered(k);
      case Resumes(id) => ListenResumes(id);
      case Releases(id) => Release(id);
      case Streams(s, event) =>
        StreamAnswers(s, event);
        if event && old(NumberOf(stream)) == Some(s) { EventIsReceived(s); }
      case Closed(s) => CloseSettles(s);
      case Disposes => Dispose();
    }

    /** Each listening object received the event, once more than before. */
    twostate lemma EventIsReceived(s: nat)
      requires old(Valid()) && Sound() && registered == old(registered) && old(NumberOf(stream)) == Some(s)
      requires State() == Next(old(State()), Streams(s, true))
      ensures forall x :: x in old(listeners) ==> x.received == old(x.received) + [s]
    {
      EventsReachEveryListener(old(State()), s);
      hide Inv, Next, Received;
      forall x | x in old(listeners) ensures x.received == old(x.received) + [s] {
        assert old(Mine(x)) && x.id in old(IdsOf(listeners));
        ReceivedOn(old(delivered), s, old(IdsOf(listeners)), x.id);
      }
    }
  }

  lemma ListensNot(w: Watcher, id: nat)
    ensures id in w.calls ==> Machine.Listen(w, id) == w
    ensures id !in w.calls && w.disposed ==> Machine.Listen(w, id) == w.(calls := w.calls[id := Failed])
  {
  }

  lemma ListensExactly(w: Watcher, w': Watcher, id: nat, k: nat)
    requires id !in w.calls && !w.disposed && k == if w.opening.Some? then w.opening.value else |w.starts|
    requires w'.starts == w.starts + if w.opening.Some? then [] else [Asking(w.generation, id)]
    requires w' == w.(listeners := w.listeners + {id}, calls := w.calls[id := Waiting(k)], starts := w'.starts, opening := Some(k))
    ensures w' == Machine.Listen(w, id)
  {
  }

  lemma NextIs(w: Watcher, e: Event)
    ensures e.Listens? ==> Next(w, e) == Machine.Listen(w, e.id)
    ensures e.Resumes? ==> Next(w, e) == Machine.ListenResumes(w, e.id)
    ensures e.Releases? ==> Next(w, e) == Machine.Release(w, e.id)
    ensures e.Streams? ==> Next(w, e) == Machine.StreamAnswers(w, e.stream, e.event)
    ensures e.Closed? ==> Next(w, e) == Machine.CloseSettles(w, e.stream)
    ensures e.Disposes? ==> Next(w, e) == Machine.Dispose(w)
  {
  }
}
