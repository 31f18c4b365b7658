/**
 * A tenant's entry as the object it is. Its leases and connections are objects of their own, which its set, its routes,
 * its close barrier and its suspended coroutines share by reference; `State` is what the machine of
 * PostgreSQLObservationManager sees of all that, and each method moves the objects as the machine moves its value.
 */
module LiveManager {
  import opened Options
  import opened ObservationGate
  import opened Machine = PostgreSQLObservationManager
  import opened LiveLeases
  import opened LiveSockets
  import Lifecycle = ObservationLifecycle

  class Entry {
    // The entry's life.
    const budget: nat
    var dead: bool
    var wasReady: bool
    var available: bool
    var generation: nat
    var controller: nat
    var aborted: bool
    var retries: nat
    var promises: seq<Promise>
    var startup: Startup
    var recoveries: seq<Recovery>
    var beats: set<nat>
    // Its leases and where they are filed; its connection, and what the manager keeps of earlier ones.
    const leases: Leases
    const sockets: Sockets
    var ready: map<LeaseId, Ready>
    // History, which the program does not store; `past` holds the callbacks of all steps but the latest.
    ghost var losses: nat
    ghost var restored: nat
    ghost var attempts: nat
    ghost var past: seq<Signal>

    ghost function LifeOf(): Life
      reads this
    {
      Life(budget, dead, wasReady, available, generation, controller, aborted, retries, promises, startup, recoveries, beats,
           losses, restored, attempts)
    }

    ghost function IndexOf(): Index
      reads leases, leases.taken.Values
    {
      leases.Contents()
    }

    ghost function NetOf(): Net
      reads sockets, sockets.handed.Values
    {
      sockets.Contents()
    }

    ghost function LogOf(): seq<Signal>
      reads this`past, leases`history
    {
      if past <= leases.history then leases.history[|past|..] else []
    }

    ghost function State(): Tenant
      reads this, leases, leases.taken.Values, sockets, sockets.handed.Values
    {
      Tenant(LifeOf(), IndexOf(), NetOf(), ready, LogOf())
    }

    ghost function Repr(): set<object>
      reads leases, sockets
    {
      {leases, sockets} + leases.taken.Values + sockets.handed.Values
    }

    ghost predicate Sound()
      reads this`past, leases, leases.taken.Values, sockets
    {
      leases.Valid() && sockets.Valid() && past <= leases.history
    }

    /** The same objects, and nothing forgotten of what was said before. */
    twostate predicate Kept()
      reads this`past, leases, sockets
    {
      Repr() == old(Repr()) && past == old(past)
    }

    /** At most new objects were added. */
    twostate predicate Extended()
      reads leases, sockets
    {
      old(Repr()) <= Repr() && fresh(Repr() - old(Repr()))
    }

    twostate predicate Grown()
      reads this`past, leases, sockets
    {
      Extended() && past == old(past)
    }

    ghost predicate Valid()
      reads this, leases, leases.taken.Values, sockets, sockets.handed.Values
    {
      Sound() && Lifecycle.Inv(State())
    }

    /** What the manager keeps for a tenant without an entry. */
    constructor (budget: nat)
      ensures Valid() && State() == Idle(budget) && fresh(Repr())
    {
      Lifecycle.IdleHolds(budget);
      hide Lifecycle.Inv;
      this.budget := budget;
      dead, wasReady, available, generation, controller, aborted, retries := true, false, false, 0, 0, true, 0;
      promises, startup, recoveries, beats, losses, restored, attempts := [Rejected], StartFailed, [], {}, 0, 0, 0;
      leases := new Leases();
      sockets := new Sockets();
      ready, past := map[], [];
    }

    /** `acquire` without a live entry: a new one, which shares the tenant's sockets and its close barrier with the last. */
    constructor Create(last: Entry, l: LeaseId, table: Table)
      requires last.Valid() && last.dead
      modifies last.sockets, last.sockets.handed.Values
      ensures Valid() && sockets == last.sockets
      ensures State() == Machine.Create(old(last.State()), l, table)
    {
      hide Lifecycle.Inv, Machine.OpenBegins, Machine.Create, Leases.Contents, Leases.Valid, Sockets.Contents,
           Sockets.Valid;
      ghost var t := last.State();
      Lifecycle.CreateKeeps(t, l, table);
      budget := last.budget;
      dead, wasReady, available, generation, controller, aborted, retries := false, false, false, 0, 0, false, 0;
      promises, startup, recoveries, beats, losses, restored, attempts := [Pending], StartFailed, [], {}, 0, 0, 0;
      leases := new Leases();
      sockets := last.sockets;
      ready, past := map[l := AwaitStartup], [];
      new;
      FirstLease(t, l, table);
    }

    /** The new entry takes its first lease, and its first `start` begins. */
    method FirstLease(ghost t: Tenant, l: LeaseId, table: Table)
      requires Sound() && l !in leases.taken && NetOf() == t.net && past == [] && leases.history == [] && ready == map[l := AwaitStartup]
      requires IndexOf() == Index(map[], [], map[], map[]) && LifeOf() == Newborn(t, l, table).life
      modifies this, Repr()
      ensures Sound() && Grown() && State() == Machine.Create(t, l, table)
    {
      hide Machine.OpenBegins, Machine.Create, Leases.Contents, Leases.Valid, Sockets.Contents, Sockets.Valid;
      Join(l, table);
      Forget();
      hide Repr;
      StartFirst(t, l, table);
    }

    /** The first `start` begins. */
    method StartFirst(ghost t: Tenant, l: LeaseId, table: Table)
      requires Sound() && State() == Newborn(t, l, table)
      modifies this, Repr()
      ensures Sound() && Kept() && State() == Machine.Create(t, l, table)
    {
      hide Newborn, Machine.OpenBegins, Leases.Contents, Leases.Valid, Sockets.Contents, Sockets.Valid, Repr;
      var stage := OpenBegins();
      startup := Starting(stage, 0);
    }

    // ---- the end --------------------------------------------------------------------------------

    method RejectReady()
      modifies this`promises
      ensures promises == Settle(old(promises), Rejected)
    {
      if promises != [] && promises[|promises| - 1].Pending? { promises := promises[|promises| - 1 := Rejected]; }
    }

    method Abort()
      modifies this`aborted, this`losses
      ensures LifeOf() == old(LifeOf()).(aborted := true, losses := old(losses) + 1)
    {
      aborted := true;
      losses := losses + 1;
    }

    method Die()
      modifies this`dead, this`generation, this`aborted, this`losses, this`promises
      ensures LifeOf() == Machine.Die(old(LifeOf()))
    {
      dead := true;
      generation := generation + 1;
      Abort();
      RejectReady();
    }

    /** The connection is closed behind the barrier. */
    method GiveUp()
      requires Sound()
      modifies sockets, sockets.handed.Values
      ensures Sound() && Repr() == old(Repr()) && NetOf() == Machine.GiveUp(old(NetOf()))
      ensures IndexOf() == old(IndexOf()) && leases.history == old(leases.history)
    {
      hide Machine.GiveUp, Leases.Contents, Leases.Valid, Sockets.Contents, Sockets.Valid;
      sockets.GiveUp();
    }

    /** What every end has in common: the entry is dead, and its connection is given up. */
    method Retire()
      requires Sound()
      modifies this, Repr()
      ensures Sound() && Kept() && LifeOf() == Machine.Die(old(LifeOf())) && NetOf() == Machine.GiveUp(old(NetOf()))
      ensures IndexOf() == old(IndexOf()) && leases.history == old(leases.history) && ready == old(ready)
    {
      hide Machine.Die, Machine.GiveUp, Leases.Contents, Leases.Valid, Sockets.Contents, Sockets.Valid;
      Die();
      GiveUp();
    }

    /** `shutdown` when the last lease goes. */
    method Shutdown()
      requires Sound()
      modifies this, Repr()
      ensures Sound() && Kept() && State() == Machine.Shutdown(old(State()))
    {
      hide Machine.Die, Machine.GiveUp, Leases.Contents, Leases.Valid, Sockets.Contents, Sockets.Valid;
      if dead { return; }
      Retire();
      Clear();
    }

    method Clear()
      requires Sound()
      modifies leases
      ensures Sound() && Repr() == old(Repr()) && IndexOf() == old(IndexOf()).(routing := map[], identities := map[])
      ensures NetOf() == old(NetOf()) && leases.history == old(leases.history)
    {
      hide Leases.Contents, Leases.Valid, Sockets.Contents, Sockets.Valid;
      leases.Clear();
    }

    lemma LogOn(s: Signal)
      requires past <= leases.history
      ensures past <= leases.history + [s] && (leases.history + [s])[|past|..] == leases.history[|past|..] + [s]
    {
    }

    /** Everybody who is held is told, and released. */
    method EndAll(kind: Kind)
      requires Sound()
      modifies leases, leases.taken.Values
      ensures Sound() && Repr() == old(Repr()) && NetOf() == old(NetOf())
      ensures IndexOf() == Machine.ReleaseAll(old(IndexOf())) && LogOf() == old(LogOf()) + [Signal(kind, old(IndexOf().members))]
    {
      ghost var members := leases.Contents().members;
      assert members == Ids(leases.live);
      LogOn(Signal(kind, members));
      hide Machine.ReleaseAll, Leases.Contents, Leases.Valid, Sockets.Contents, Sockets.Valid;
      leases.EndAll(kind);
    }

    method RetireAll(kind: Kind)
      requires Sound()
      modifies this, Repr()
      ensures Sound() && Kept()
      ensures LifeOf() == Machine.Die(old(LifeOf())) && NetOf() == Machine.GiveUp(old(NetOf()))
      ensures IndexOf() == Machine.ReleaseAll(old(IndexOf())) && ready == old(ready)
      ensures LogOf() == old(LogOf()) + [Signal(kind, old(IndexOf().members))]
    {
      hide Machine.Die, Machine.GiveUp, Machine.ReleaseAll, Leases.Contents, Leases.Valid, Sockets.Contents,
           Sockets.Valid;
      Retire();
      EndAll(kind);
    }

    /** `terminate`, and `shutdown` on disposal: everybody is told how it ended. */
    method Finish(kind: Kind)
      requires Sound() && (kind.Fail? || kind.Complete?)
      modifies this, Repr()
      ensures Sound() && Kept()
      ensures State() == if kind.Fail? then Machine.Terminate(old(State())) else Machine.Dispose(old(State()))
    {
      hide Machine.Die, Machine.GiveUp, Machine.ReleaseAll, Leases.Contents, Leases.Valid, Sockets.Contents,
           Sockets.Valid, Repr;
      if dead { return; }
      RetireAll(kind);
    }

    /** What the machine sees of one lease is what its object holds. */
    lemma Looks(l: LeaseId)
      ensures l in IndexOf().leases <==> l in leases.taken
      ensures l in leases.taken ==> IndexOf().leases[l] == leases.taken[l].Value()
    {
    }

    /** The release closure of a lease. */
    method Release(l: LeaseId)
      requires Sound()
      modifies this, Repr()
      ensures Sound() && Kept() && State() == Machine.Release(old(State()), l)
    {
      Looks(l);
      hide Machine.Drop, Machine.Shutdown, Leases.Contents, Leases.Valid, Sockets.Contents, Sockets.Valid;
      if l in leases.taken && !leases.taken[l].released {
        Drop(l);
        LiveIsMembers();
        if leases.live == [] { Shutdown(); }
      }
    }

    method Drop(l: LeaseId)
      requires Sound() && l in leases.taken
      modifies leases, leases.taken.Values
      ensures Sound() && Repr() == old(Repr()) && l in old(IndexOf()).leases
      ensures IndexOf() == Machine.Drop(old(IndexOf()), l) && NetOf() == old(NetOf()) && LogOf() == old(LogOf())
    {
      IsOurs(l);
      hide Machine.Drop, Leases.Contents, Leases.Valid, Sockets.Contents, Sockets.Valid;
      leases.Drop(leases.taken[l]);
    }

    lemma IsOurs(l: LeaseId)
      requires Sound() && l in leases.taken
      ensures leases.Mine(leases.taken[l]) && leases.taken[l].id == l && l in IndexOf().leases
    {
    }

    // ---- losing the listener --------------------------------------------------------------------

    /** What a loss does to the entry's own fields; a listener that was available leaves a new promise behind. */
    method Lose()
      modifies this`available, this`generation, this`aborted, this`losses, this`promises
      ensures LifeOf() == Machine.Lose(old(LifeOf()))
    {
      if available { promises := promises + [Pending]; }
      available := false;
      generation := generation + 1;
      Abort();
    }

    /** Readers are fenced off, and the connection is on its way out. */
    method Fence()
      requires Sound()
      modifies this, Repr()
      ensures Sound() && Kept()
      ensures State() == old(State()).(life := Machine.Lose(old(LifeOf())), net := Machine.GiveUp(old(NetOf())).(connection := None))
    {
      hide Machine.Lose, Machine.GiveUp, Leases.Contents, Leases.Valid, Sockets.Contents, Sockets.Valid;
      Lose();
      GiveUp();
      Forget();
    }

    method Forget()
      requires Sound()
      modifies sockets
      ensures Sound() && Repr() == old(Repr()) && NetOf() == old(NetOf()).(connection := None)
      ensures IndexOf() == old(IndexOf()) && leases.history == old(leases.history)
    {
      hide Leases.Contents, Leases.Valid, Sockets.Contents, Sockets.Valid;
      sockets.Forget();
    }

    /** `recover`, up to its first await. */
    method Recover()
      requires Sound()
      modifies this, Repr()
      ensures Sound() && Kept()
      ensures State() == Spawn(old(State()))
    {
      hide Machine.Retry, Leases.Contents, Leases.Valid, Sockets.Contents, Sockets.Valid, Repr;
      var recovery := Retry();
      if recovery.Some? { recoveries := recoveries + [recovery.value]; }
    }

    method Lost()
      requires Sound()
      modifies this, Repr()
      ensures Sound() && Kept()
      ensures State() == Machine.Lost(old(State()))
    {
      hide Machine.Terminate, Machine.Spawn, Machine.Lose, Machine.GiveUp, Leases.Contents, Leases.Valid,
           Sockets.Contents, Sockets.Valid, Repr;
      if dead || aborted { return; }
      if !wasReady {
        Finish(Fail);
        return;
      }
      var wasAvailable := available;
      Fence();
      if wasAvailable { Recover(); }
    }

    /** The entry becomes available under its generation, and its heartbeat begins. */
    method Restore()
      modifies this`available, this`promises, this`beats, this`restored
      ensures LifeOf() == Machine.Restore(old(LifeOf()))
    {
      available := true;
      if promises != [] && promises[|promises| - 1].Pending? { promises := promises[|promises| - 1 := Resolved(generation)]; }
      beats := beats + {generation};
      restored := generation;
    }

    /** The head of `recover`'s loop; None when it returns. */
    method Retry() returns (recovery: Option<Recovery>)
      requires Sound()
      modifies this, Repr()
      ensures Sound() && Kept()
      ensures (State(), recovery) == Machine.Retry(old(State()))
    {
      LiveIsMembers();
      hide Machine.Terminate, Leases.Contents, Leases.Valid, Sockets.Contents, Sockets.Valid, Repr;
      if dead || leases.live == [] { return None; }
      retries := retries + 1;
      if budget < retries {
        Finish(Fail);
        return None;
      }
      attempts := attempts + 1;
      return Some(Backoff);
    }

    lemma LiveIsMembers()
      ensures leases.live == [] <==> IndexOf().members == []
    {
    }

    // ---- callbacks and timers -------------------------------------------------------------------

    /** `onNotification` of the connection of one generation. */
    method Notify(heard: nat, key: Key)
      requires Sound() && Lifecycle.Inv(State())
      modifies this, Repr()
      ensures Sound() && Kept()
      ensures State() == Machine.Notify(old(State()), heard, key)
    {
      hide Leases.Contents, Leases.Valid, Sockets.Contents, Sockets.Valid, Lifecycle.Inv, LiveLeases.Routing.Routes,
           Reached;
      RoutesAgree(key);
      if dead || heard != generation || key !in leases.routing { return; }
      NotifyRouted(key);
    }

    lemma RoutesAgree(key: Key)
      requires Lifecycle.Inv(State())
      ensures LiveLeases.Routing.Routes(IndexOf()) && (key in leases.routing <==> key in IndexOf().routing)
    {
    }

    method NotifyRouted(key: Key)
      requires Sound() && key in leases.routing && key in IndexOf().routing && LiveLeases.Routing.Routes(IndexOf())
      modifies leases, leases.taken.Values
      ensures Sound() && Repr() == old(Repr()) && IndexOf() == old(IndexOf()) && NetOf() == old(NetOf())
      ensures LogOf() == old(LogOf()) + [Signal(Invalidate, Reached(IndexOf().members, IndexOf().routing[key]))]
    {
      hide Leases.Contents, Leases.Valid, Sockets.Contents, Sockets.Valid, LiveLeases.Routing.Routes, Reached;
      LogOn(Signal(Invalidate, Reached(IndexOf().members, IndexOf().routing[key])));
      leases.Notify(key);
    }

    method Disconnected(heard: nat)
      requires Sound()
      modifies this, Repr()
      ensures Sound() && Kept()
      ensures State() == Step(old(State()), Event.Disconnected(heard))
    {
      hide Machine.Lost, Leases.Contents, Leases.Valid, Sockets.Contents, Sockets.Valid, Repr;
      if !dead && heard == generation { Lost(); }
    }

    method TimedOut(ctl: nat)
      requires Sound()
      modifies this, Repr()
      ensures Sound() && Kept()
      ensures State() == Step(old(State()), Event.TimedOut(ctl))
    {
      hide Machine.Lost, Leases.Contents, Leases.Valid, Sockets.Contents, Sockets.Valid, Repr;
      if ctl == controller && !aborted { Lost(); }
    }

    method BeatAnswered(heard: nat)
      modifies this`retries
      ensures State() == Step(old(State()), Event.BeatAnswered(heard))
    {
      if heard in beats && !dead && heard == generation { retries := 0; }
      hide Leases.Contents, Leases.Valid, Sockets.Contents, Sockets.Valid;
    }

    method BeatFailed(heard: nat)
      requires Sound()
      modifies this, Repr()
      ensures Sound() && Kept()
      ensures State() == Step(old(State()), Event.BeatFailed(heard))
    {
      hide Machine.Lost, Leases.Contents, Leases.Valid, Sockets.Contents, Sockets.Valid, Repr;
      if heard in beats && heard == generation { Lost(); }
    }

    /** `acquire` on an entry that exists. */
    method Acquire(l: LeaseId, table: Table)
      requires Sound()
      modifies this, Repr()
      ensures Sound() && Grown()
      ensures State() == Machine.Acquire(old(State()), l, table)
    {
      Looks(l);
      hide Leases.Contents, Leases.Valid, Sockets.Contents, Sockets.Valid;
      if dead || l in leases.taken { return; }
      Join(l, table);
      ready := ready[l := AwaitStartup];
    }

    method Join(l: LeaseId, table: Table)
      requires Sound() && l !in leases.taken
      modifies leases
      ensures Sound() && Grown() && NetOf() == old(NetOf()) && LogOf() == old(LogOf())
      ensures var x := old(IndexOf());
              IndexOf() == x.(leases := x.leases[l := Machine.Lease(table, None, false)], members := x.members + [l])
    {
      hide Leases.Contents, Leases.Valid, Sockets.Contents, Sockets.Valid;
      leases.Admit(l, table);
    }

    // ---- start ----------------------------------------------------------------------------------

    method Dial() returns (factory: nat)
      requires Sound()
      modifies sockets
      ensures Sound() && Repr() == old(Repr()) && factory == old(NetOf()).calls
      ensures var n := old(NetOf()); NetOf() == n.(factories := n.factories + {n.calls}, calls := n.calls + 1)
      ensures IndexOf() == old(IndexOf()) && leases.history == old(leases.history)
    {
      assert sockets.calls == NetOf().calls;
      hide Leases.Contents, Leases.Valid, Sockets.Contents, Sockets.Valid;
      factory := sockets.CallFactory();
    }

    method CallFactory() returns (stage: Stage)
      requires Sound()
      modifies this, Repr()
      ensures Sound() && Kept()
      ensures (State(), stage) == Machine.CallFactory(old(State())) && recoveries == old(recoveries)
    {
      hide Leases.Contents, Leases.Valid, Sockets.Contents, Sockets.Valid;
      var factory := Dial();
      generation := generation + 1;
      stage := AwaitFactory(factory, generation);
    }

    method OpenBegins() returns (stage: Stage)
      requires Sound()
      modifies this, Repr()
      ensures Sound() && Kept()
      ensures (State(), stage) == Machine.OpenBegins(old(State())) && recoveries == old(recoveries)
    {
      assert IdOf(sockets.barrier) == NetOf().barrier;
      hide Machine.CallFactory, Leases.Contents, Leases.Valid, Sockets.Contents, Sockets.Valid, Repr;
      if sockets.barrier != null { return AwaitBarrier(sockets.barrier.id); }
      stage := CallFactory();
    }

    /** A connection is handed over: whatever its shape, it is closed if it can be and is not kept. */
    method Receive(factory: nat, began: nat, reply: Reply) returns (o: Opening)
      requires Sound() && reply.Handed? && reply.connection !in sockets.handed
      modifies this, Repr()
      ensures Sound() && Grown()
      ensures (State(), o) == Machine.Receive(old(State()), factory, began, reply)
    {
      var kept := ReceiveConnection(factory, reply);
      hide Leases.Contents, Leases.Valid, Sockets.Contents, Sockets.Valid, Machine.ScheduleClose, Hand;
      o := if kept then Onward(AwaitConnect(reply.connection, began)) else Stopped;
    }

    method ReceiveConnection(factory: nat, reply: Reply) returns (kept: bool)
      requires Sound() && reply.Handed? && reply.connection !in sockets.handed
      modifies sockets, sockets.handed.Values
      ensures Sound() && Grown() && IndexOf() == old(IndexOf()) && leases.history == old(leases.history)
      ensures kept <==> !dead && reply.valid && reply.closable
      ensures var n := Hand(old(NetOf()), factory, reply.connection, reply.closable);
              NetOf() == if kept then n.(connection := Some(reply.connection),
                                         sockets := n.sockets[reply.connection := Socket(true, true, 0, false)])
                         else if dead || reply.closable then Machine.ScheduleClose(n, reply.connection, false) else n
    {
      hide Leases.Contents, Leases.Valid, Sockets.Contents, Sockets.Valid, Machine.ScheduleClose, Hand;
      kept := sockets.Receive(dead, factory, reply.connection, reply.valid, reply.closable);
    }

    /** Whether the operation `start` waits for can have settled like this. */
    predicate Settles(stage: Stage, reply: Reply)
      reads sockets, sockets.handed.Values
    {
      match stage
      case AwaitBarrier(c) => reply.Ok? && c in sockets.handed && sockets.handed[c].settled
      case AwaitFactory(f, _) => reply.Handed? && f in sockets.factories && reply.connection !in sockets.handed
      case AwaitConnect(_, _) => reply.Ok?
      case AwaitListen(_, _) => reply.Ok?
    }

    lemma SettlesFits(stage: Stage, reply: Reply)
      ensures Settles(stage, reply) <==> Fits(State(), stage, reply)
    {
    }

    method OpenNext(stage: Stage, reply: Reply) returns (o: Opening)
      requires Sound() && Settles(stage, reply) && Fits(State(), stage, reply)
      modifies this, Repr()
      ensures Sound() && Grown()
      ensures (State(), o) == Machine.OpenNext(old(State()), stage, reply)
    {
      hide Machine.CallFactory, Machine.Receive, Leases.Contents, Leases.Valid, Sockets.Contents, Sockets.Valid, Repr;
      match stage
      case AwaitBarrier(_) =>
        if dead { return Stopped; }
        var next := CallFactory();
        return Onward(next);
      case AwaitFactory(f, began) => o := Receive(f, began, reply);
      case AwaitConnect(c, began) => return Onward(AwaitListen(c, began));
      case AwaitListen(_, began) => return if dead || began != generation then Stopped else Opened;
    }

    method StartFails()
      requires Sound()
      modifies this, Repr()
      ensures Sound() && Kept()
      ensures State() == var t := old(State()); Machine.Terminate(t.(life := t.life.(startup := StartFailed)))
    {
      hide Machine.Terminate, Leases.Contents, Leases.Valid, Sockets.Contents, Sockets.Valid, Repr;
      startup := StartFailed;
      Finish(Fail);
    }

    /** What `start` awaited has settled. */
    method StartGoesOn(reply: Reply)
      requires Sound() && startup.Starting? && Settles(startup.stage, reply) && Fits(State(), startup.stage, reply)
      modifies this, Repr()
      ensures Sound() && Grown()
      ensures State() == Starts(Machine.OpenNext(old(State()), old(startup).stage, reply), old(startup).ctl)
    {
      hide Machine.Terminate, Machine.OpenNext, Fits, Settles, Leases.Contents, Leases.Valid, Sockets.Contents,
           Sockets.Valid, Repr;
      var ctl := startup.ctl;
      var o := OpenNext(startup.stage, reply);
      match o
      case Onward(next) => startup := Starting(next, ctl);
      case Opened => startup := Started;
      case Stopped => StartFails();
    }

    method StartupMoves(reply: Reply)
      requires Sound()
      modifies this, Repr()
      ensures Sound() && Grown()
      ensures State() == StartupStep(old(State()), reply)
    {
      if !startup.Starting? { return; }
      SettlesFits(startup.stage, reply);
      StartsIs(State(), reply);
      hide Machine.Terminate, Machine.OpenNext, Starts, Fits, Settles, StartupStep, Leases.Contents, Leases.Valid,
           Sockets.Contents, Sockets.Valid, Repr;
      if reply.Failed? {
        StartFails();
      } else if startup.ctl == controller && !aborted && Settles(startup.stage, reply) {
        StartGoesOn(reply);
      }
    }

    // ---- recover --------------------------------------------------------------------------------

    method Becomes(i: nat, r: Recovery)
      requires i < |recoveries|
      modifies this`recoveries
      ensures State() == Machine.Becomes(old(State()), i, r)
    {
      recoveries := recoveries[i := r];
      hide Leases.Contents, Leases.Valid, Sockets.Contents, Sockets.Valid;
    }

    method Ends(i: nat)
      requires i < |recoveries|
      modifies this`recoveries
      ensures State() == Machine.Ends(old(State()), i)
    {
      recoveries := recoveries[..i] + recoveries[i + 1..];
      hide Leases.Contents, Leases.Valid, Sockets.Contents, Sockets.Valid;
    }

    method AttemptFails(i: nat)
      requires Sound() && i < |recoveries|
      modifies this, Repr()
      ensures Sound() && Kept()
      ensures State() == Machine.AttemptFails(old(State()), i)
    {
      hide Machine.Lost, Machine.Retry, Machine.Ends, Machine.Becomes, Leases.Contents, Leases.Valid,
           Sockets.Contents, Sockets.Valid, Repr;
      if dead {
        Ends(i);
        return;
      }
      if !aborted { Lost(); }
      var recovery := Retry();
      if i < |recoveries| {
        if recovery.None? { Ends(i); } else { Becomes(i, recovery.value); }
      }
    }

    method Reopen(i: nat)
      requires Sound() && i < |recoveries|
      modifies this, Repr()
      ensures Sound() && Kept()
      ensures State() == Machine.Reopen(old(State()), i)
    {
      hide Machine.Ends, Machine.Becomes, Machine.OpenBegins, Leases.Contents, Leases.Valid, Sockets.Contents,
           Sockets.Valid, Repr;
      if dead {
        Ends(i);
        return;
      }
      controller := controller + 1;
      aborted := false;
      var stage := OpenBegins();
      Becomes(i, Reopening(stage, controller));
    }

    /** Every validated lease is asked to catch up. */
    method AskEverybody()
      requires Sound()
      modifies leases, leases.taken.Values
      ensures Sound() && Repr() == old(Repr()) && IndexOf() == old(IndexOf()) && NetOf() == old(NetOf())
      ensures LogOf() == old(LogOf()) + [Signal(CatchUp, Keyed(IndexOf(), IndexOf().members))]
    {
      hide Leases.Contents, Leases.Valid, Sockets.Contents, Sockets.Valid, Keyed;
      LogOn(Signal(CatchUp, Keyed(IndexOf(), IndexOf().members)));
      leases.CatchUp();
    }

    method Recovered(i: nat, began: nat)
      requires Sound() && i < |recoveries|
      modifies this, Repr()
      ensures Sound() && Kept()
      ensures State() == Machine.Recovered(old(State()), i, began)
    {
      LiveIsMembers();
      hide Machine.Ends, Machine.Restore, Keyed, Leases.Contents, Leases.Valid, Sockets.Contents, Sockets.Valid, Repr;
      if !dead && began == generation && leases.live != [] { Announce(); }
      Ends(i);
    }

    /** Available again: every validated lease is asked to catch up. */
    method Announce()
      requires Sound()
      modifies this, Repr()
      ensures Sound() && Kept()
      ensures State() == old(State()).(life := Machine.Restore(old(LifeOf())),
                                       log := old(LogOf()) + [Signal(CatchUp, Keyed(old(IndexOf()), old(IndexOf().members)))])
      ensures |recoveries| == |old(recoveries)|
    {
      hide Machine.Restore, Keyed, Leases.Contents, Leases.Valid, Sockets.Contents, Sockets.Valid;
      Restore();
      AskEverybody();
    }

    /** A lease that is still held and was validated before. */
    predicate Due(l: LeaseId)
      reads leases, leases.taken.Values
    {
      l in leases.taken && !leases.taken[l].released && leases.taken[l].key.Some?
    }

    /** Skip the leases that need not be validated again. */
    method NextDue(todo: seq<LeaseId>, ghost i: nat, ghost began: nat) returns (rest: seq<LeaseId>)
      requires i < |recoveries|
      ensures Machine.Revalidate(State(), i, began, todo) ==
              if rest == [] then Machine.Recovered(State(), i, began)
              else Machine.Becomes(State(), i, Revalidating(began, rest[0], rest[1..], ReaderCheck, controller))
    {
      rest := todo;
      while rest != [] && !Due(rest[0])
        invariant Machine.Revalidate(State(), i, began, todo) == Machine.Revalidate(State(), i, began, rest)
        decreases |rest|
      {
        hide Machine.Recovered, Machine.Becomes, Leases.Contents, Leases.Valid, Sockets.Contents, Sockets.Valid;
        Looks(rest[0]);
        rest := rest[1..];
      }
      hide Machine.Recovered, Machine.Becomes, Leases.Contents, Leases.Valid, Sockets.Contents, Sockets.Valid;
      if rest != [] { Looks(rest[0]); }
    }

    /** Validate the next lease again; when there is none left, the entry is available. */
    method Revalidate(i: nat, began: nat, todo: seq<LeaseId>)
      requires Sound() && i < |recoveries|
      modifies this, Repr()
      ensures Sound() && Kept()
      ensures State() == Machine.Revalidate(old(State()), i, began, todo)
    {
      hide Machine.Revalidate, Machine.Recovered, Machine.Becomes, Leases.Contents, Leases.Valid, Sockets.Contents,
           Sockets.Valid, Repr;
      var rest := NextDue(todo, i, began);
      if rest == [] {
        Recovered(i, began);
      } else {
        Becomes(i, Revalidating(began, rest[0], rest[1..], ReaderCheck, controller));
      }
    }

    /** `lease.fail`, whereupon the session releases the lease. */
    method FailLease(l: LeaseId)
      requires Sound() && l in leases.taken && !leases.taken[l].released
      modifies this, Repr()
      ensures Sound() && Kept()
      ensures State() == Machine.Release(old(State()).(log := old(LogOf()) + [Signal(Fail, [l])]), l)
    {
      Looks(l);
      hide Machine.Release, Leases.Contents, Leases.Valid, Sockets.Contents, Sockets.Valid;
      TellFailure(l);
      Release(l);
    }

    method TellFailure(l: LeaseId)
      requires Sound() && l in leases.taken
      modifies leases, leases.taken.Values
      ensures Sound() && Repr() == old(Repr()) && IndexOf() == old(IndexOf()) && NetOf() == old(NetOf())
      ensures LogOf() == old(LogOf()) + [Signal(Fail, [l])]
    {
      var xs := {leases.taken[l]};
      assert Names([l], xs) by { assert leases.taken[l].id == l; }
      LogOn(Signal(Fail, [l]));
      hide Leases.Contents, Leases.Valid, Sockets.Contents, Sockets.Valid, Names;
      leases.Call(Fail, xs, [l]);
    }

    /** A definitive outcome fails this lease only. */
    method RejectLease(i: nat, r: Recovery)
      requires Sound() && i < |recoveries| && r.Revalidating?
      modifies this, Repr()
      ensures Sound() && Kept()
      ensures State() == Machine.RejectLease(old(State()), i, r)
    {
      Looks(r.lease);
      hide Machine.Release, Machine.Revalidate, Leases.Contents, Leases.Valid, Sockets.Contents, Sockets.Valid, Repr;
      if r.lease in leases.taken && !leases.taken[r.lease].released { FailLease(r.lease); }
      if i < |recoveries| { Revalidate(i, r.generation, r.todo); }
    }

    /** The reader still resolves a lease to the table and the database it was validated for. */
    predicate StillMaps(l: LeaseId, identity: Identity)
      reads leases, leases.taken.Values
    {
      && l in leases.taken && leases.taken[l].key == Some(identity.key)
      && leases.taken[l].table in leases.identities && leases.identities[leases.taken[l].table].database == identity.database
    }

    lemma StillMapsIs(l: LeaseId, identity: Identity)
      ensures StillMaps(l, identity) <==> SameMapping(IndexOf(), l, identity)
    {
    }

    /** The identity of a lease that passed all its checks again. */
    method Refresh(l: LeaseId, identity: Identity)
      requires Sound() && l in leases.taken
      modifies leases`identities
      ensures Sound() && l in old(IndexOf()).leases
      ensures var x := old(IndexOf()); IndexOf() == x.(identities := x.identities[x.leases[l].table := identity])
      ensures NetOf() == old(NetOf()) && LogOf() == old(LogOf())
    {
      Looks(l);
      hide Leases.Valid, Sockets.Contents, Sockets.Valid, Leases.Values, Leases.Routes;
      leases.identities := leases.identities[leases.taken[l].table := identity];
    }

    method TriggerPasses(i: nat, r: Recovery, identity: Identity)
      requires Sound() && i < |recoveries| && r.Revalidating?
      modifies this, Repr()
      ensures Sound() && Kept()
      ensures State() == var t := old(State());
              var x := if r.lease in t.index.leases && !t.index.leases[r.lease].released && !t.life.dead
                       then t.index.(identities := t.index.identities[t.index.leases[r.lease].table := identity]) else t.index;
              Machine.Revalidate(t.(index := x), i, r.generation, r.todo)
    {
      Looks(r.lease);
      hide Machine.Revalidate, Leases.Contents, Leases.Valid, Sockets.Contents, Sockets.Valid;
      if r.lease in leases.taken && !leases.taken[r.lease].released && !dead { Refresh(r.lease, identity); }
      Revalidate(i, r.generation, r.todo);
    }

    method CheckPasses(i: nat, r: Recovery, reply: Reply)
      requires Sound() && i < |recoveries| && r.Revalidating?
      modifies this, Repr()
      ensures Sound() && Kept()
      ensures State() == Machine.CheckPasses(old(State()), i, r, reply)
    {
      if reply.Mapping? { StillMapsIs(r.lease, reply.identity); }
      hide Machine.RejectLease, Machine.Becomes, Machine.Revalidate, SameMapping, StillMaps, Leases.Contents,
           Leases.Valid, Sockets.Contents, Sockets.Valid, Repr;
      match r.check
      case ReaderCheck =>
        if reply.Mapping? {
          if !StillMaps(r.lease, reply.identity) { RejectLease(i, r); }
          else { Becomes(i, r.(check := ListenerCheck(reply.identity), ctl := controller)); }
        }
      case ListenerCheck(identity) =>
        if reply.Database? {
          if reply.database != identity.database { RejectLease(i, r); }
          else { Becomes(i, r.(check := TriggerCheck(identity), ctl := controller)); }
        }
      case TriggerCheck(identity) =>
        if reply.Ok? { TriggerPasses(i, r, identity); }
    }

    method CheckFails(i: nat, r: Recovery, definitive: bool)
      requires Sound() && i < |recoveries| && r.Revalidating?
      modifies this, Repr()
      ensures Sound() && Kept()
      ensures State() == Machine.CheckFails(old(State()), i, r, definitive)
    {
      hide Machine.AttemptFails, Machine.RejectLease, Machine.Lost, Leases.Contents, Leases.Valid, Sockets.Contents,
           Sockets.Valid, Repr;
      if aborted {
        AttemptFails(i);
      } else if definitive && !r.check.ListenerCheck? {
        RejectLease(i, r);
      } else if r.check.ReaderCheck? {
        AttemptFails(i);
      } else {
        var stays := if r.check.ListenerCheck? then r.generation != generation else !wasReady || available;
        if !stays { Lost(); }
        if i < |recoveries| { AttemptFails(i); }
      }
    }

    method ReopenNext(i: nat, stage: Stage, ctl: nat, reply: Reply)
      requires Sound() && i < |recoveries| && Settles(stage, reply) && Fits(State(), stage, reply)
      modifies this, Repr()
      ensures Sound() && Grown()
      ensures State() == Machine.ReopenNext(old(State()), i, stage, ctl, reply)
    {
      OpenLeavesRecoveries(State(), stage, reply);
      hide Machine.OpenNext, Machine.Becomes, Machine.Revalidate, Machine.AttemptFails, Fits, Settles,
           Leases.Contents, Leases.Valid, Sockets.Contents, Sockets.Valid, Repr;
      ReopensIs(State(), i, stage, ctl, reply);
      hide Machine.ReopenNext, Reopens;
      var o := OpenNext(stage, reply);
      OpeningEnds(i, ctl, o);
    }

    /** What an attempt makes of a step of its opening. */
    method OpeningEnds(i: nat, ctl: nat, o: Opening)
      requires Sound() && i < |recoveries|
      modifies this, Repr()
      ensures Sound() && Kept()
      ensures State() == Reopens(old(State()), i, ctl, o)
    {
      hide Machine.Becomes, Machine.Revalidate, Machine.AttemptFails, Leases.Contents, Leases.Valid,
           Sockets.Contents, Sockets.Valid, Repr;
      match o
      case Onward(next) => Becomes(i, Reopening(next, ctl));
      case Opened => RevalidateAll(i);
      case Stopped => AttemptFails(i);
    }

    /** `start` has succeeded: every lease that is held now has to be validated again. */
    method RevalidateAll(i: nat)
      requires Sound() && i < |recoveries|
      modifies this, Repr()
      ensures Sound() && Kept()
      ensures State() == Machine.Revalidate(old(State()), i, old(generation), old(IndexOf()).members)
    {
      assert IndexOf().members == Ids(leases.live);
      hide Machine.Revalidate, Leases.Contents, Leases.Valid, Sockets.Contents, Sockets.Valid, Repr;
      var all := Ids(leases.live);
      Revalidate(i, generation, all);
    }

    /** An operation of `start` has settled. */
    method StageSettles(i: nat, stage: Stage, ctl: nat, reply: Reply)
      requires Sound() && i < |recoveries|
      modifies this, Repr()
      ensures Sound() && Grown()
      ensures State() == var t := old(State());
              if reply.Failed? then Machine.AttemptFails(t, i)
              else if Live(t.life, ctl) && Fits(t, stage, reply) then Machine.ReopenNext(t, i, stage, ctl, reply) else t
    {
      SettlesFits(stage, reply);
      hide Machine.AttemptFails, Machine.ReopenNext, Fits, Settles, Leases.Contents, Leases.Valid, Sockets.Contents,
           Sockets.Valid, Repr;
      if reply.Failed? { AttemptFails(i); }
      else if ctl == controller && !aborted && Settles(stage, reply) { ReopenNext(i, stage, ctl, reply); }
    }

    method RecoveryMoves(i: nat, reply: Reply)
      requires Sound()
      modifies this, Repr()
      ensures Sound() && Grown()
      ensures State() == RecoveryStep(old(State()), i, reply)
    {
      hide Machine.Reopen, Machine.AttemptFails, Machine.ReopenNext, Machine.CheckFails, Machine.CheckPasses, Fits,
           Leases.Contents, Leases.Valid, Sockets.Contents, Sockets.Valid, Repr;
      if |recoveries| <= i { return; }
      var r := recoveries[i];
      match r
      case Backoff => Reopen(i);
      case Reopening(stage, ctl) => StageSettles(i, stage, ctl, reply);
      case Revalidating(_, _, _, _, _) => CheckSettles(i, r, reply);
    }

    method CheckSettles(i: nat, r: Recovery, reply: Reply)
      requires Sound() && i < |recoveries| && r.Revalidating?
      modifies this, Repr()
      ensures Sound() && Kept()
      ensures State() == var t := old(State());
              if reply.Failed? then Machine.CheckFails(t, i, r, reply.definitive)
              else if Live(t.life, r.ctl) then Machine.CheckPasses(t, i, r, reply) else t
    {
      hide Machine.CheckFails, Machine.CheckPasses, Leases.Contents, Leases.Valid, Sockets.Contents, Sockets.Valid,
           Repr;
      if reply.Failed? { CheckFails(i, r, reply.definitive); }
      else if r.ctl == controller && !aborted { CheckPasses(i, r, reply); }
    }

    // ---- a lease becomes ready ------------------------------------------------------------------

    /** The lease is held by a live entry. */
    predicate Holds(l: LeaseId)
      reads this`dead, leases, leases.taken.Values
    {
      l in leases.taken && !leases.taken[l].released && !dead
    }

    lemma HoldsIs(l: LeaseId)
      ensures Holds(l) <==> Held(State(), l)
    {
    }

    /** Whether what was learned under this generation no longer counts. */
    predicate Outdated(began: nat)
      reads this
    {
      wasReady && (began != generation || !available)
    }

    method Await(l: LeaseId, r: Ready)
      modifies this`ready
      ensures State() == Machine.Await(old(State()), l, r)
    {
      ready := ready[l := r];
      hide Leases.Contents, Leases.Valid, Sockets.Contents, Sockets.Valid;
    }

    method ReadyFails(l: LeaseId)
      requires Sound()
      modifies this, Repr()
      ensures Sound() && Kept()
      ensures State() == Machine.ReadyFails(old(State()), l)
    {
      hide Machine.Release, Leases.Contents, Leases.Valid, Sockets.Contents, Sockets.Valid, Repr;
      ready := ready - {l};
      Release(l);
    }

    method ReadyTop(l: LeaseId)
      requires Sound()
      modifies this, Repr()
      ensures Sound() && Kept()
      ensures State() == Machine.ReadyTop(old(State()), l)
    {
      hide Machine.ReadyFails, Machine.Await, Held, Holds, Leases.Contents, Leases.Valid, Sockets.Contents,
           Sockets.Valid, Repr;
      HoldsIs(l);
      var next := if wasReady && !available then AwaitReadiness(Newest(promises))
                  else Checking(generation, ReaderCheck, controller);
      if Holds(l) { Await(l, next); } else { ReadyFails(l); }
    }

    method ReadyErrs(l: LeaseId, began: nat)
      requires Sound()
      modifies this, Repr()
      ensures Sound() && Kept()
      ensures State() == Machine.ReadyErrs(old(State()), l, began)
    {
      hide Machine.ReadyFails, Machine.ReadyTop, Held, Holds, Leases.Contents, Leases.Valid, Sockets.Contents,
           Sockets.Valid, Repr;
      HoldsIs(l);
      if Holds(l) && Outdated(began) { ReadyTop(l); } else { ReadyFails(l); }
    }

    method FileLease(l: LeaseId, identity: Identity)
      requires Sound() && l in leases.taken
      modifies leases, leases.taken.Values
      ensures Sound() && Repr() == old(Repr()) && l in old(IndexOf()).leases
      ensures IndexOf() == Machine.Route(old(IndexOf()), l, identity) && NetOf() == old(NetOf()) && LogOf() == old(LogOf())
    {
      IsOurs(l);
      hide Machine.Route, Leases.Contents, Leases.Valid, Sockets.Contents, Sockets.Valid;
      leases.File(leases.taken[l], identity);
    }

    method FirstReadiness()
      modifies this`available, this`promises, this`beats, this`restored, this`wasReady
      ensures LifeOf() == Machine.Restore(old(LifeOf())).(wasReady := true)
    {
      hide Machine.Restore;
      Restore();
      wasReady := true;
    }

    /** The first lease that is validated opens the entry for reading. */
    method Open()
      modifies this`available, this`promises, this`beats, this`restored, this`wasReady
      ensures LifeOf() == var f := old(LifeOf()); if f.wasReady then f else Machine.Restore(f).(wasReady := true)
    {
      hide Machine.Restore;
      if !wasReady { FirstReadiness(); }
    }

    method Validated(l: LeaseId, identity: Identity)
      requires Sound() && l in leases.taken
      modifies this, Repr()
      ensures Sound() && Kept()
      ensures l in old(IndexOf()).leases && State() == Machine.Validated(old(State()), l, identity)
    {
      hide Machine.Route, Machine.Restore, Leases.Contents, Leases.Valid, Sockets.Contents, Sockets.Valid;
      ready := ready - {l};
      Open();
      FileLease(l, identity);
    }

    /** Another lease of the same table was validated against something else. */
    predicate Contradicts(l: LeaseId, identity: Identity)
      requires l in leases.taken
      reads leases, leases.taken.Values
    {
      leases.taken[l].table in leases.identities && leases.identities[leases.taken[l].table] != identity
    }

    lemma ContradictsIs(l: LeaseId, identity: Identity)
      requires l in leases.taken
      ensures l in IndexOf().leases && (Contradicts(l, identity) <==> Conflicts(IndexOf(), l, identity))
    {
    }

    /** The trigger is in order, too. */
    method LastCheckPasses(l: LeaseId, r: Ready, identity: Identity)
      requires Sound() && r.Checking? && r.check == TriggerCheck(identity)
      modifies this, Repr()
      ensures Sound() && Kept()
      ensures State() == Machine.ReadyPasses(old(State()), l, r, Ok)
    {
      HoldsIs(l);
      Looks(l);
      if l in leases.taken { ContradictsIs(l, identity); }
      assert Holds(l) ==> l in leases.taken;
      hide Machine.ReadyFails, Machine.ReadyTop, Machine.ReadyErrs, Machine.Await, Machine.Validated, Conflicts,
           Contradicts, Held, Holds, Leases.Contents, Leases.Valid, Sockets.Contents, Sockets.Valid, Repr;
      if !Holds(l) { ReadyFails(l); }
      else if Outdated(r.generation) { ReadyTop(l); }
      else if Contradicts(l, identity) { ReadyErrs(l, r.generation); }
      else { Validated(l, identity); }
    }

    method ReadyPasses(l: LeaseId, r: Ready, reply: Reply)
      requires Sound() && r.Checking?
      modifies this, Repr()
      ensures Sound() && Kept()
      ensures State() == Machine.ReadyPasses(old(State()), l, r, reply)
    {
      hide Machine.ReadyFails, Machine.ReadyTop, Machine.ReadyErrs, Machine.Await, Machine.Validated, Conflicts,
           Held, Holds, Leases.Contents, Leases.Valid, Sockets.Contents, Sockets.Valid, Repr;
      HoldsIs(l);
      match r.check
      case ReaderCheck =>
        if reply.Mapping? {
          if !Holds(l) { ReadyFails(l); }
          else if Outdated(r.generation) { ReadyTop(l); }
          else { Await(l, r.(check := ListenerCheck(reply.identity), ctl := controller)); }
        }
      case ListenerCheck(identity) =>
        if reply.Database? {
          if reply.database != identity.database { ReadyErrs(l, r.generation); }
          else { Await(l, r.(check := TriggerCheck(identity), ctl := controller)); }
        }
      case TriggerCheck(identity) =>
        if reply.Ok? { LastCheckPasses(l, r, identity); }
    }

    /** A check of a new lease has failed. */
    method CheckErrs(l: LeaseId, began: nat, check: Check, definitive: bool)
      requires Sound()
      modifies this, Repr()
      ensures Sound() && Kept()
      ensures State() == var t := old(State());
              var loses := check.TriggerCheck? && t.life.wasReady && !t.life.available && !definitive;
              Machine.ReadyErrs(if loses then Machine.Lost(t) else t, l, began)
    {
      hide Machine.ReadyErrs, Machine.Lost, Leases.Contents, Leases.Valid, Sockets.Contents, Sockets.Valid, Repr;
      if check.TriggerCheck? && wasReady && !available && !definitive { Lost(); }
      ReadyErrs(l, began);
    }

    /** The readiness that a new lease awaited has settled, or not. */
    method ReadinessMoves(l: LeaseId, i: nat)
      requires Sound()
      modifies this, Repr()
      ensures Sound() && Kept()
      ensures State() == var t := old(State());
              if |t.life.promises| <= i || t.life.promises[i].Pending? then t
              else if t.life.promises[i].Rejected? || !Held(t, l) then Machine.ReadyFails(t, l)
              else Machine.Await(t, l, Checking(t.life.generation, ReaderCheck, t.life.controller))
    {
      hide Machine.ReadyFails, Machine.Await, Held, Holds, Leases.Contents, Leases.Valid, Sockets.Contents,
           Sockets.Valid, Repr;
      HoldsIs(l);
      if i < |promises| && !promises[i].Pending? {
        if promises[i].Rejected? || !Holds(l) { ReadyFails(l); }
        else { Await(l, Checking(generation, ReaderCheck, controller)); }
      }
    }

    /** A check that a new lease awaited has settled. */
    method NewCheckSettles(l: LeaseId, r: Ready, reply: Reply)
      requires Sound() && r.Checking?
      modifies this, Repr()
      ensures Sound() && Kept()
      ensures State() == var t := old(State());
              if reply.Failed? then
                var loses := r.check.TriggerCheck? && t.life.wasReady && !t.life.available && !reply.definitive;
                Machine.ReadyErrs(if loses then Machine.Lost(t) else t, l, r.generation)
              else if Live(t.life, r.ctl) then Machine.ReadyPasses(t, l, r, reply) else t
    {
      hide Machine.ReadyErrs, Machine.ReadyPasses, Machine.Lost, Leases.Contents, Leases.Valid, Sockets.Contents,
           Sockets.Valid, Repr;
      if reply.Failed? { CheckErrs(l, r.generation, r.check, reply.definitive); }
      else if r.ctl == controller && !aborted { ReadyPasses(l, r, reply); }
    }

    method ReadyMoves(l: LeaseId, reply: Reply)
      requires Sound()
      modifies this, Repr()
      ensures Sound() && Kept()
      ensures State() == ReadyStep(old(State()), l, reply)
    {
      hide Machine.ReadyFails, Machine.ReadyTop, Machine.ReadyErrs, Machine.ReadyPasses, Machine.Lost, Machine.Await,
           Held, Leases.Contents, Leases.Valid, Sockets.Contents, Sockets.Valid, Repr;
      if l !in ready { return; }
      match ready[l]
      case AwaitStartup =>
        if startup.Started? { ReadyTop(l); } else if startup.StartFailed? { ReadyFails(l); }
      case AwaitReadiness(i) => ReadinessMoves(l, i);
      case Checking(_, _, _) => NewCheckSettles(l, ready[l], reply);
    }

    // ---- every event ----------------------------------------------------------------------------

    /**
     * One event of the entry, whatever its order: the objects follow the machine and keep its invariant, and every lease
     * heard exactly the callbacks that the machine makes for it.
     */
    method Handle(e: Event)
      requires Valid()
      modifies this, Repr()
      ensures Valid() && Extended() && Heard()
      ensures State() == Next(old(State()), e) && past == old(past + State().log)
    {
      hide Lifecycle.Inv, Step, Next, State, LogOf, Sound, Heard, Leases.Contents, Leases.Valid, Sockets.Contents,
           Sockets.Valid;
      Lifecycle.NextKeeps(State(), e);
      NextIsStep(State(), e);
      Turn();
      Act(e);
      HistoryIsHeard();
    }

    /** Every lease ever taken heard what the machine said to it, in all steps so far. */
    ghost predicate Heard()
      reads this, leases, leases.taken.Values, sockets, sockets.handed.Values
    {
      forall l :: l in leases.taken ==> leases.taken[l].heard == Kinds(past + State().log, l)
    }

    lemma NextIsStep(t: Tenant, e: Event)
      ensures Next(t, e) == Step(t.(log := []), e)
    {
    }

    lemma LogIsHistory(t: Tenant)
      requires Lifecycle.Inv(t)
      ensures Lifecycle.Inv(t.(log := []))
    {
    }

    method Act(e: Event)
      requires Sound() && Lifecycle.Inv(State())
      modifies this, Repr()
      ensures Sound() && Grown()
      ensures State() == Step(old(State()), e)
    {
      hide Lifecycle.Inv, Step, Leases.Contents, Leases.Valid, Sockets.Contents, Sockets.Valid, Repr;
      if e.Acquired? || e.Released? || e.StartupMoves? || e.RecoveryMoves? || e.ReadyMoves? { Proceed(e); } else { Hear(e); }
    }

    /** A new step begins. */
    ghost method Turn()
      requires Valid()
      modifies this`past
      ensures Valid() && State() == old(State()).(log := []) && past == old(past + State().log)
    {
      hide Lifecycle.Inv, Leases.Contents, Leases.Valid, Sockets.Contents, Sockets.Valid;
      LogIsHistory(State());
      past := leases.history;
      assert LogOf() == [];
    }

    lemma HistoryIsHeard()
      requires Sound()
      ensures Heard()
    {
      assert past + LogOf() == leases.history;
      hide Kinds;
    }

    /** A call of `acquire` or of a release, or a coroutine that goes on. */
    method Proceed(e: Event)
      requires e.Acquired? || e.Released? || e.StartupMoves? || e.RecoveryMoves? || e.ReadyMoves?
      requires Sound()
      modifies this, Repr()
      ensures Sound() && Grown()
      ensures State() == Step(old(State()), e)
    {
      hide StartupStep, RecoveryStep, ReadyStep, Machine.Release, Machine.Acquire, Leases.Contents, Leases.Valid,
           Sockets.Contents, Sockets.Valid;
      match e
      case Acquired(l, table) => Acquire(l, table);
      case Released(l) => Release(l);
      case StartupMoves(reply) => StartupMoves(reply);
      case RecoveryMoves(i, reply) => RecoveryMoves(i, reply);
      case ReadyMoves(l, reply) => ReadyMoves(l, reply);
    }

    /** A factory that returns, although nobody waits for it any more. */
    method FactoryReturns(f: nat, id: Connection, closable: bool)
      requires Sound()
      modifies this, Repr()
      ensures Sound() && Grown()
      ensures State() == Step(old(State()), Event.FactoryReturns(f, id, closable))
    {
      ExpectsIs(f);
      hide Machine.FactoryReturnsLate, Awaited, Expects, Leases.Contents, Leases.Valid, Sockets.Contents, Sockets.Valid;
      if !Expects(f) { ReturnLate(f, id, closable); }
    }

    /** Whether some coroutine still waits for a factory under a live controller. */
    predicate Expects(f: nat)
      reads this
    {
      || (startup.Starting? && startup.stage.AwaitFactory? && startup.stage.factory == f && startup.ctl == controller && !aborted)
      || (!aborted && exists i :: 0 <= i < |recoveries| && recoveries[i].Reopening? && recoveries[i].stage.AwaitFactory?
                                  && recoveries[i].stage.factory == f && recoveries[i].ctl == controller)
    }

    lemma ExpectsIs(f: nat)
      ensures Expects(f) <==> Awaited(LifeOf(), f)
    {
    }

    method ReturnLate(f: nat, id: Connection, closable: bool)
      requires Sound()
      modifies sockets, sockets.handed.Values
      ensures Sound() && Grown() && IndexOf() == old(IndexOf()) && leases.history == old(leases.history)
      ensures NetOf() == Machine.FactoryReturnsLate(old(NetOf()), f, id, closable)
    {
      hide Machine.FactoryReturnsLate, Leases.Contents, Leases.Valid, Sockets.Contents, Sockets.Valid;
      sockets.ReturnLate(f, id, closable);
    }

    /** The `close` of a connection has settled. */
    method SocketCloses(id: Connection)
      requires Sound()
      modifies this, Repr()
      ensures Sound() && Kept()
      ensures State() == Step(old(State()), Event.SocketCloses(id))
    {
      hide Machine.CloseSettles, Leases.Contents, Leases.Valid, Sockets.Contents, Sockets.Valid;
      CloseSettles(id);
    }

    method CloseSettles(id: Connection)
      requires Sound()
      modifies sockets, sockets.handed.Values
      ensures Sound() && Repr() == old(Repr()) && IndexOf() == old(IndexOf()) && leases.history == old(leases.history)
      ensures NetOf() == Machine.CloseSettles(old(NetOf()), id)
    {
      assert id in NetOf().sockets <==> id in sockets.handed;
      if id !in sockets.handed { return; }
      assert sockets.handed[id].id == id;
      hide Machine.CloseSettles, Leases.Contents, Leases.Valid, Sockets.Contents, Sockets.Valid;
      sockets.CloseSettles(sockets.handed[id]);
    }

    /** A timer, a connection or a factory makes itself heard. */
    method Hear(e: Event)
      requires !(e.Acquired? || e.Released? || e.StartupMoves? || e.RecoveryMoves? || e.ReadyMoves?) && Lifecycle.Inv(State())
      requires Sound()
      modifies this, Repr()
      ensures Sound() && Grown()
      ensures State() == Step(old(State()), e)
    {
      hide Lifecycle.Inv, Step, Leases.Contents, Leases.Valid, Sockets.Contents, Sockets.Valid, Repr;
      match e
      case FactoryReturns(f, id, closable) => FactoryReturns(f, id, closable);
      case SocketCloses(id) => SocketCloses(id);
      case Disconnected(heard) => Disconnected(heard);
      case TimedOut(ctl) => TimedOut(ctl);
      case BeatAnswered(heard) => BeatAnswered(heard);
      case BeatFailed(heard) => BeatFailed(heard);
      case Notified(heard, key) => Notified(heard, key);
      case Disposed => Dispose();
    }

    method Notified(heard: nat, key: Key)
      requires Sound() && Lifecycle.Inv(State())
      modifies this, Repr()
      ensures Sound() && Kept()
      ensures State() == Step(old(State()), Event.Notified(heard, key))
    {
      hide Lifecycle.Inv, Machine.Notify, Leases.Contents, Leases.Valid, Sockets.Contents, Sockets.Valid, Repr;
      Notify(heard, key);
    }

    /** `shutdown` on disposal. */
    method Dispose()
      requires Sound()
      modifies this, Repr()
      ensures Sound() && Kept()
      ensures State() == Step(old(State()), Disposed)
    {
      hide Machine.Dispose, Leases.Contents, Leases.Valid, Sockets.Contents, Sockets.Valid, Repr;
      Finish(Complete);
    }
  }

  /** How an attempt goes on after a step of its opening. */
  function Reopens(t: Tenant, i: nat, ctl: nat, o: Opening): Tenant
    requires i < |t.life.recoveries|
  {
    match o
    case Onward(next) => Machine.Becomes(t, i, Reopening(next, ctl))
    case Opened => Machine.Revalidate(t, i, t.life.generation, t.index.members)
    case Stopped => Machine.AttemptFails(t, i)
  }

  lemma ReopensIs(t: Tenant, i: nat, stage: Stage, ctl: nat, reply: Reply)
    requires i < |t.life.recoveries| && Fits(t, stage, reply)
    ensures var (t1, o) := Machine.OpenNext(t, stage, reply);
            i < |t1.life.recoveries| && Machine.ReopenNext(t, i, stage, ctl, reply) == Reopens(t1, i, ctl, o)
  {
  }

  lemma OpenLeavesRecoveries(t: Tenant, stage: Stage, reply: Reply)
    requires Fits(t, stage, reply)
    ensures Machine.OpenNext(t, stage, reply).0.life.recoveries == t.life.recoveries
  {
  }

  /** How `start` goes on after a step of its opening. */
  function Starts(next: (Tenant, Opening), ctl: nat): Tenant {
    var (t1, o) := next;
    match o
    case Onward(stage) => t1.(life := t1.life.(startup := Starting(stage, ctl)))
    case Opened => t1.(life := t1.life.(startup := Started))
    case Stopped => Machine.Terminate(t1.(life := t1.life.(startup := StartFailed)))
  }

  lemma StartsIs(t: Tenant, reply: Reply)
    requires t.life.startup.Starting?
    ensures var stage, ctl := t.life.startup.stage, t.life.startup.ctl;
            StartupStep(t, reply) ==
            if reply.Failed? then Machine.Terminate(t.(life := t.life.(startup := StartFailed)))
            else if Live(t.life, ctl) && Fits(t, stage, reply) then Starts(Machine.OpenNext(t, stage, reply), ctl) else t
  {
  }
}
