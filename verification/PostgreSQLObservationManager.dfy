/**
 * One tenant's shared PostgreSQL listener (Source/Drizzle/PostgreSQLObservationManager.ts) as a state machine. A step is
 * the code between two awaits; suspended coroutines are values: the entry's `startup`, its `recoveries`, one `ready` per
 * lease, and the factory calls and socket closes that outlive the entry that began them.
 */
module PostgreSQLObservationManager {
  import opened Options
  import opened ObservationGate

  type LeaseId = nat
  type Table = nat
  type Key = nat
  type Connection = nat

  /** A resolved table: the canonical name notifications carry, and the database it lives in. */
  datatype Identity = Identity(key: Key, database: nat)
  datatype Lease = Lease(table: Table, key: Option<Key>, released: bool)

  // ---- suspended coroutines ---------------------------------------------------------------------

  /** Where `start` is suspended. */
  datatype Stage =
    | AwaitBarrier(closing: Connection)
    | AwaitFactory(factory: nat, generation: nat)
    | AwaitConnect(connection: Connection, generation: nat)
    | AwaitListen(connection: Connection, generation: nat)

  /** The three operations that validate one lease: its reader's mapping, the listener's database, the trigger. */
  datatype Check = ReaderCheck | ListenerCheck(identity: Identity) | TriggerCheck(identity: Identity)

  /** `ctl` is the abort controller the suspended operation listens to. */
  datatype Startup = Starting(stage: Stage, ctl: nat) | Started | StartFailed
  datatype Recovery =
    | Backoff
    | Reopening(stage: Stage, ctl: nat)
    | Revalidating(generation: nat, lease: LeaseId, todo: seq<LeaseId>, check: Check, ctl: nat)
  datatype Ready = AwaitStartup | AwaitReadiness(index: nat) | Checking(generation: nat, check: Check, ctl: nat)

  // ---- state ------------------------------------------------------------------------------------

  /** `losses`, `restored` and `attempts` are history; `budget` is the number of reconnect delays. */
  datatype Life = Life(
    budget: nat, dead: bool, wasReady: bool, available: bool, generation: nat, controller: nat, aborted: bool,
    retries: nat, promises: seq<Promise>, startup: Startup, recoveries: seq<Recovery>, beats: set<nat>,
    losses: nat, restored: nat, attempts: nat)

  datatype Index = Index(leases: map<LeaseId, Lease>, members: seq<LeaseId>, identities: map<Table, Identity>,
                         routing: map<Key, set<LeaseId>>)

  /** What became of a connection a factory handed over. */
  datatype Socket = Socket(connected: bool, closable: bool, closes: nat, settled: bool)

  /** `barrier` is the tenant's latest serialized close; `factories` are calls that have not returned. */
  datatype Net = Net(connection: Option<Connection>, barrier: Option<Connection>, sockets: map<Connection, Socket>,
                     factories: set<nat>, calls: nat)

  datatype Kind = Invalidate | CatchUp | Fail | Complete
  /** A callback made for each of these leases. */
  datatype Signal = Signal(kind: Kind, leases: seq<LeaseId>)

  /** `log` holds the callbacks of the latest step. */
  datatype Tenant = Tenant(life: Life, index: Index, net: Net, ready: map<LeaseId, Ready>, log: seq<Signal>)

  // ---- sockets ----------------------------------------------------------------------------------

  function ScheduleClose(n: Net, c: Connection, serialize: bool): Net {
    if c !in n.sockets then n else
      n.(sockets := n.sockets[c := n.sockets[c].(closes := n.sockets[c].closes + 1)],
      barrier := if serialize then Some(c) else n.barrier)
  }

  /** The `close` promise of a socket settles, either way. */
  function CloseSettles(n: Net, c: Connection): Net {
    if c !in n.sockets || n.sockets[c].closes == 0 || n.sockets[c].settled then n else
      n.(sockets := n.sockets[c := n.sockets[c].(settled := true)],
      barrier := if n.barrier == Some(c) then None else n.barrier)
  }

  function Hand(n: Net, factory: nat, c: Connection, closable: bool): Net {
    n.(factories := n.factories - {factory}, sockets := n.sockets[c := Socket(false, closable, 0, false)])
  }

  /** A factory that returns after nobody waits for it any more still has its connection closed. */
  function FactoryReturnsLate(n: Net, factory: nat, c: Connection, closable: bool): Net {
    if factory !in n.factories || c in n.sockets then n
    else ScheduleClose(Hand(n, factory, c, closable), c, false)
  }

  /** The connection of an entry that gives it up. */
  function GiveUp(n: Net): Net {
    if n.connection.None? then n else ScheduleClose(n, n.connection.value, true)
  }

  // ---- leases and routing -----------------------------------------------------------------------

  function Remove(s: seq<LeaseId>, l: LeaseId): (r: seq<LeaseId>)
    ensures forall x :: x in r <==> x in s && x != l
  {
    if s == [] then [] else if s[0] == l then Remove(s[1..], l) else [s[0]] + Remove(s[1..], l)
  }

  /** A lease leaves its entry: out of the set, out of the routes under its key, and with it its table if it was the last. */
  function Drop(x: Index, l: LeaseId): Index
    requires l in x.leases
  {
    var lease := x.leases[l];
    var members := Remove(x.members, l);
    Index(x.leases[l := lease.(released := true)], members,
          if exists other :: other in members && other in x.leases && x.leases[other].table == lease.table
          then x.identities else x.identities - {lease.table},
          if lease.key.None? then x.routing else Unroute(x.routing, lease.key.value, l))
  }

  function Unroute(routing: map<Key, set<LeaseId>>, key: Key, l: LeaseId): map<Key, set<LeaseId>> {
    if key !in routing then routing
    else if routing[key] - {l} == {} then routing - {key}
    else routing[key := routing[key] - {l}]
  }

  function Route(x: Index, l: LeaseId, identity: Identity): Index
    requires l in x.leases
  {
    var routed := if identity.key in x.routing then x.routing[identity.key] else {};
    x.(leases := x.leases[l := x.leases[l].(key := Some(identity.key))],
    identities := x.identities[x.leases[l].table := identity],
    routing := x.routing[identity.key := routed + {l}])
  }

  /** Every lease that is still held is released; the dead entry routes nothing. */
  function ReleaseAll(x: Index): Index {
    Index(map l | l in x.leases :: if l in x.members then x.leases[l].(released := true) else x.leases[l],
          [], map[], map[])
  }

  // ---- the entry's life -------------------------------------------------------------------------

  function Settle(promises: seq<Promise>, p: Promise): seq<Promise> {
    if promises == [] || !promises[|promises| - 1].Pending? then promises
    else promises[|promises| - 1 := p]
  }

  function Die(f: Life): Life {
    f.(dead := true, generation := f.generation + 1, aborted := true, losses := f.losses + 1,
    promises := Settle(f.promises, Rejected))
  }

  /** `shutdown`: retire the entry, forget its routes, close its connection. */
  function Shutdown(t: Tenant): Tenant {
    if t.life.dead then t else
      t.(life := Die(t.life), index := t.index.(routing := map[], identities := map[]), net := GiveUp(t.net))
  }

  /** `shutdown` on disposal: every lease is completed, and a completed session releases its lease. */
  function Dispose(t: Tenant): Tenant {
    if t.life.dead then t else
      t.(life := Die(t.life), index := ReleaseAll(t.index), net := GiveUp(t.net),
      log := t.log + [Signal(Complete, t.index.members)])
  }

  /** `terminate`: shut down first, then fail every lease; a failed session releases its lease. */
  function Terminate(t: Tenant): Tenant {
    if t.life.dead then t else
      t.(life := Die(t.life), index := ReleaseAll(t.index), net := GiveUp(t.net),
      log := t.log + [Signal(Fail, t.index.members)])
  }

  function Release(t: Tenant, l: LeaseId): Tenant {
    if l !in t.index.leases || t.index.leases[l].released then t else
      var t1 := t.(index := Drop(t.index, l));
      if t1.index.members == [] then Shutdown(t1) else t1
  }

  // ---- losing and recovering the listener -------------------------------------------------------

  /** The head of `recover`'s loop: spend a delay, or give up. */
  function Retry(t: Tenant): (Tenant, Option<Recovery>) {
    if t.life.dead || t.index.members == [] then (t, None)
    else if t.life.budget <= t.life.retries then
      (Terminate(t.(life := t.life.(retries := t.life.retries + 1))), None)
    else (t.(life := t.life.(retries := t.life.retries + 1, attempts := t.life.attempts + 1)), Some(Backoff))
  }

  function Spawn(t: Tenant): Tenant {
    var (t1, recovery) := Retry(t);
    if recovery.None? then t1 else t1.(life := t1.life.(recoveries := t1.life.recoveries + [recovery.value]))
  }

  function Lose(f: Life): Life {
    f.(available := false, generation := f.generation + 1, aborted := true, losses := f.losses + 1,
    promises := if f.available then f.promises + [Pending] else f.promises)
  }

  /** `lost`: before the first readiness it ends the entry; afterwards it fences, closes, and starts one recovery. */
  function Lost(t: Tenant): Tenant {
    if t.life.dead || t.life.aborted then t
    else if !t.life.wasReady then Terminate(t)
    else
      var t1 := t.(life := Lose(t.life), net := GiveUp(t.net).(connection := None));
      if t.life.available then Spawn(t1) else t1
  }

  function Without(recoveries: seq<Recovery>, i: nat): seq<Recovery>
    requires i < |recoveries|
  {
    recoveries[..i] + recoveries[i + 1..]
  }

  function Ends(t: Tenant, i: nat): Tenant
    requires i < |t.life.recoveries|
  {
    t.(life := t.life.(recoveries := Without(t.life.recoveries, i)))
  }

  function Becomes(t: Tenant, i: nat, r: Recovery): Tenant
    requires i < |t.life.recoveries|
  {
    t.(life := t.life.(recoveries := t.life.recoveries[i := r]))
  }

  // ---- start: barrier, factory, connect, LISTEN -------------------------------------------------

  /** How an awaited operation settles. A connection may be handed over in the wrong shape, even without a `close`. */
  datatype Reply =
    | Ok
    | Handed(connection: Connection, valid: bool, closable: bool)
    | Mapping(identity: Identity)
    | Database(database: nat)
    | Failed(definitive: bool)

  /** Whether operations under this controller can still succeed; otherwise they can only be rejected. */
  predicate Live(f: Life, ctl: nat) {
    ctl == f.controller && !f.aborted
  }

  predicate Fits(t: Tenant, stage: Stage, reply: Reply) {
    match stage
    case AwaitBarrier(c) => reply.Ok? && c in t.net.sockets && t.net.sockets[c].settled
    case AwaitFactory(f, _) => reply.Handed? && f in t.net.factories && reply.connection !in t.net.sockets
    case AwaitConnect(_, _) => reply.Ok?
    case AwaitListen(_, _) => reply.Ok?
  }

  function CallFactory(t: Tenant): (Tenant, Stage) {
    (t.(life := t.life.(generation := t.life.generation + 1),
     net := t.net.(factories := t.net.factories + {t.net.calls}, calls := t.net.calls + 1)),
     AwaitFactory(t.net.calls, t.life.generation + 1))
  }

  /** `start` first waits for the tenant's previous socket to be closed. */
  function OpenBegins(t: Tenant): (Tenant, Stage) {
    if t.net.barrier.Some? then (t, AwaitBarrier(t.net.barrier.value)) else CallFactory(t)
  }

  datatype Opening = Onward(stage: Stage) | Opened | Stopped

  /** A connection arrives: reject a wrong shape, but close it whenever it can be closed; otherwise connect. */
  function Receive(t: Tenant, factory: nat, generation: nat, reply: Reply): (Tenant, Opening)
    requires reply.Handed?
  {
    var n := Hand(t.net, factory, reply.connection, reply.closable);
    if t.life.dead || (!reply.valid && reply.closable) then
      (t.(net := ScheduleClose(n, reply.connection, false)), Stopped)
    else if !reply.valid || !reply.closable then (t.(net := n), Stopped)
    else
      (t.(net := n.(connection := Some(reply.connection),
                    sockets := n.sockets[reply.connection := Socket(true, true, 0, false)])),
       Onward(AwaitConnect(reply.connection, generation)))
  }

  function OpenNext(t: Tenant, stage: Stage, reply: Reply): (Tenant, Opening)
    requires Fits(t, stage, reply)
  {
    match stage
    case AwaitBarrier(_) => if t.life.dead then (t, Stopped) else var (t1, next) := CallFactory(t); (t1, Onward(next))
    case AwaitFactory(f, generation) => Receive(t, f, generation, reply)
    case AwaitConnect(c, generation) => (t, Onward(AwaitListen(c, generation)))
    case AwaitListen(_, generation) =>
      (t, if t.life.dead || generation != t.life.generation then Stopped else Opened)
  }

  /** The first `start`: when it fails the entry is terminated. */
  function StartupStep(t: Tenant, reply: Reply): Tenant {
    if !t.life.startup.Starting? then t else
      var stage, ctl := t.life.startup.stage, t.life.startup.ctl;
      if reply.Failed? then Terminate(t.(life := t.life.(startup := StartFailed)))
      else if !Live(t.life, ctl) || !Fits(t, stage, reply) then t
      else
        var (t1, o) := OpenNext(t, stage, reply);
        match o
        case Onward(next) => t1.(life := t1.life.(startup := Starting(next, ctl)))
        case Opened => t1.(life := t1.life.(startup := Started))
        case Stopped => Terminate(t1.(life := t1.life.(startup := StartFailed)))
  }

  // ---- recover ----------------------------------------------------------------------------------

  /** The catch block of an attempt, and the head of the loop again. */
  function AttemptFails(t: Tenant, i: nat): Tenant
    requires i < |t.life.recoveries|
  {
    if t.life.dead then Ends(t, i) else
      var t1 := if t.life.aborted then t else Lost(t);
      var (t2, recovery) := Retry(t1);
      if !(i < |t2.life.recoveries|) then t2
      else if recovery.None? then Ends(t2, i) else Becomes(t2, i, recovery.value)
  }

  /** After the backoff: a new controller, and `start` again. */
  function Reopen(t: Tenant, i: nat): Tenant
    requires i < |t.life.recoveries|
  {
    if t.life.dead then Ends(t, i) else
      var t1 := t.(life := t.life.(controller := t.life.controller + 1, aborted := false));
      var (t2, stage) := OpenBegins(t1);
      Becomes(t2, i, Reopening(stage, t2.life.controller))
  }

  /** The leases a recovered entry asks to catch up. */
  function Keyed(x: Index, members: seq<LeaseId>): (r: seq<LeaseId>)
    ensures forall l :: l in r <==> l in members && l in x.leases && x.leases[l].key.Some? && !x.leases[l].released
  {
    if members == [] then []
    else if members[0] in x.leases && x.leases[members[0]].key.Some? && !x.leases[members[0]].released
    then [members[0]] + Keyed(x, members[1..]) else Keyed(x, members[1..])
  }

  function Restore(f: Life): Life {
    f.(available := true, promises := Settle(f.promises, Resolved(f.generation)), beats := f.beats + {f.generation},
    restored := f.generation)
  }

  /** Every lease has been validated again: the entry is available under its new generation. */
  function Recovered(t: Tenant, i: nat, generation: nat): Tenant
    requires i < |t.life.recoveries|
  {
    if t.life.dead || generation != t.life.generation || t.index.members == [] then Ends(t, i) else
      Ends(t.(life := Restore(t.life), log := t.log + [Signal(CatchUp, Keyed(t.index, t.index.members))]), i)
  }

  /** Take the next lease that is still held and was validated before. */
  function Revalidate(t: Tenant, i: nat, generation: nat, todo: seq<LeaseId>): Tenant
    requires i < |t.life.recoveries|
    decreases |todo|
  {
    if todo == [] then Recovered(t, i, generation)
    else if todo[0] !in t.index.leases || t.index.leases[todo[0]].released || t.index.leases[todo[0]].key.None?
    then Revalidate(t, i, generation, todo[1..])
    else Becomes(t, i, Revalidating(generation, todo[0], todo[1..], ReaderCheck, t.life.controller))
  }

  /** A definitive outcome fails this lease only; the attempt goes on. */
  function RejectLease(t: Tenant, i: nat, r: Recovery): Tenant
    requires i < |t.life.recoveries| && r.Revalidating?
  {
    var t1 := if r.lease !in t.index.leases || t.index.leases[r.lease].released then t
              else Release(t.(log := t.log + [Signal(Fail, [r.lease])]), r.lease);
    if i < |t1.life.recoveries| then Revalidate(t1, i, r.generation, r.todo) else t1
  }

  predicate SameMapping(x: Index, l: LeaseId, identity: Identity) {
    && l in x.leases && x.leases[l].key == Some(identity.key)
    && x.leases[l].table in x.identities && x.identities[x.leases[l].table].database == identity.database
  }

  /** One settled operation of a revalidation whose controller is live. */
  function CheckPasses(t: Tenant, i: nat, r: Recovery, reply: Reply): Tenant
    requires i < |t.life.recoveries| && r.Revalidating?
  {
    match r.check
    case ReaderCheck =>
      if !reply.Mapping? then t
      else if !SameMapping(t.index, r.lease, reply.identity) then RejectLease(t, i, r)
      else Becomes(t, i, r.(check := ListenerCheck(reply.identity), ctl := t.life.controller))
    case ListenerCheck(identity) =>
      if !reply.Database? then t
      else if reply.database != identity.database then RejectLease(t, i, r)
      else Becomes(t, i, r.(check := TriggerCheck(identity), ctl := t.life.controller))
    case TriggerCheck(identity) =>
      if !reply.Ok? then t else
        var x := if r.lease in t.index.leases && !t.index.leases[r.lease].released && !t.life.dead
                 then t.index.(identities := t.index.identities[t.index.leases[r.lease].table := identity]) else t.index;
        Revalidate(t.(index := x), i, r.generation, r.todo)
  }

  function CheckFails(t: Tenant, i: nat, r: Recovery, definitive: bool): Tenant
    requires i < |t.life.recoveries| && r.Revalidating?
  {
    if t.life.aborted then AttemptFails(t, i)
    else if definitive && !r.check.ListenerCheck? then RejectLease(t, i, r)
    else if r.check.ReaderCheck? then AttemptFails(t, i)
    else
      var t1 := if r.check.ListenerCheck? && r.generation != t.life.generation then t
                else if r.check.TriggerCheck? && (!t.life.wasReady || t.life.available) then t else Lost(t);
      if i < |t1.life.recoveries| then AttemptFails(t1, i) else t1
  }

  function ReopenNext(t: Tenant, i: nat, stage: Stage, ctl: nat, reply: Reply): Tenant
    requires i < |t.life.recoveries| && Fits(t, stage, reply)
  {
    var (t1, o) := OpenNext(t, stage, reply);
    match o
    case Onward(next) => Becomes(t1, i, Reopening(next, ctl))
    case Opened => Revalidate(t1, i, t1.life.generation, t1.index.members)
    case Stopped => AttemptFails(t1, i)
  }

  function RecoveryStep(t: Tenant, i: nat, reply: Reply): Tenant {
    if |t.life.recoveries| <= i then t else
      match t.life.recoveries[i]
      case Backoff => Reopen(t, i)
      case Reopening(stage, ctl) =>
        if reply.Failed? then AttemptFails(t, i)
        else if Live(t.life, ctl) && Fits(t, stage, reply) then ReopenNext(t, i, stage, ctl, reply) else t
      case Revalidating(_, _, _, _, ctl) =>
        if reply.Failed? then CheckFails(t, i, t.life.recoveries[i], reply.definitive)
        else if Live(t.life, ctl) then CheckPasses(t, i, t.life.recoveries[i], reply) else t
  }

  // ---- a lease becomes ready --------------------------------------------------------------------

  function Await(t: Tenant, l: LeaseId, r: Ready): Tenant {
    t.(ready := t.ready[l := r])
  }

  predicate Held(t: Tenant, l: LeaseId) {
    l in t.index.leases && !t.index.leases[l].released && !t.life.dead
  }

  /** Whether what was learned under this generation no longer counts. */
  predicate Stale(f: Life, generation: nat) {
    f.wasReady && (generation != f.generation || !f.available)
  }

  /** The readiness promise an entry offers now is its newest. */
  function Newest(promises: seq<Promise>): nat {
    if promises == [] then 0 else |promises| - 1
  }

  function ReadyFails(t: Tenant, l: LeaseId): Tenant {
    Release(t.(ready := t.ready - {l}), l)
  }

  /** The head of the validation loop: wait out a recovery, then resolve the reader's mapping. */
  function ReadyTop(t: Tenant, l: LeaseId): Tenant {
    if !Held(t, l) then ReadyFails(t, l)
    else if t.life.wasReady && !t.life.available then Await(t, l, AwaitReadiness(Newest(t.life.promises)))
    else Await(t, l, Checking(t.life.generation, ReaderCheck, t.life.controller))
  }

  function ReadyErrs(t: Tenant, l: LeaseId, generation: nat): Tenant {
    if Held(t, l) && Stale(t.life, generation) then ReadyTop(t, l) else ReadyFails(t, l)
  }

  /** The lease has been validated: file it, and on the first readiness open the entry for reading. */
  function Validated(t: Tenant, l: LeaseId, identity: Identity): Tenant
    requires l in t.index.leases
  {
    var f := if t.life.wasReady then t.life else Restore(t.life).(wasReady := true);
    t.(life := f, index := Route(t.index, l, identity), ready := t.ready - {l})
  }

  predicate Conflicts(x: Index, l: LeaseId, identity: Identity)
    requires l in x.leases
  {
    x.leases[l].table in x.identities && x.identities[x.leases[l].table] != identity
  }

  function ReadyPasses(t: Tenant, l: LeaseId, r: Ready, reply: Reply): Tenant
    requires r.Checking?
  {
    match r.check
    case ReaderCheck =>
      if !reply.Mapping? then t
      else if !Held(t, l) then ReadyFails(t, l)
      else if Stale(t.life, r.generation) then ReadyTop(t, l)
      else Await(t, l, r.(check := ListenerCheck(reply.identity), ctl := t.life.controller))
    case ListenerCheck(identity) =>
      if !reply.Database? then t
      else if reply.database != identity.database then ReadyErrs(t, l, r.generation)
      else Await(t, l, r.(check := TriggerCheck(identity), ctl := t.life.controller))
    case TriggerCheck(identity) =>
      if !reply.Ok? then t
      else if !Held(t, l) then ReadyFails(t, l)
      else if Stale(t.life, r.generation) then ReadyTop(t, l)
      else if Conflicts(t.index, l, identity) then ReadyErrs(t, l, r.generation)
      else Validated(t, l, identity)
  }

  function ReadyStep(t: Tenant, l: LeaseId, reply: Reply): Tenant {
    if l !in t.ready then t else
      match t.ready[l]
      case AwaitStartup =>
        if t.life.startup.Started? then ReadyTop(t, l) else if t.life.startup.StartFailed? then ReadyFails(t, l) else t
      case AwaitReadiness(i) =>
        if |t.life.promises| <= i || t.life.promises[i].Pending? then t
        else if t.life.promises[i].Rejected? || !Held(t, l) then ReadyFails(t, l)
        else Await(t, l, Checking(t.life.generation, ReaderCheck, t.life.controller))
      case Checking(generation, check, ctl) =>
        if reply.Failed? then
          var t1 := if check.TriggerCheck? && t.life.wasReady && !t.life.available && !reply.definitive then Lost(t) else t;
          ReadyErrs(t1, l, generation)
        else if Live(t.life, ctl) then ReadyPasses(t, l, t.ready[l], reply) else t
  }

  // ---- the entry's machine ----------------------------------------------------------------------

  datatype Event =
    | Acquired(lease: LeaseId, table: Table)
    | Released(lease: LeaseId)
    | StartupMoves(reply: Reply)
    | RecoveryMoves(recovery: nat, reply: Reply)
    | ReadyMoves(lease: LeaseId, reply: Reply)
    | FactoryReturns(factory: nat, connection: Connection, closable: bool)
    | SocketCloses(connection: Connection)
    | Disconnected(generation: nat)
    | TimedOut(ctl: nat)
    | BeatAnswered(generation: nat)
    | BeatFailed(generation: nat)
    | Notified(generation: nat, key: Key)
    | Disposed

  /** `acquire` on an entry that exists; a lease is a new object. */
  function Acquire(t: Tenant, l: LeaseId, table: Table): Tenant {
    if t.life.dead || l in t.index.leases then t else
      t.(index := t.index.(leases := t.index.leases[l := Lease(table, None, false)], members := t.index.members + [l]),
      ready := t.ready[l := AwaitStartup])
  }

  /** A notification on the connection of one generation reaches the leases filed under its key. */
  function Notify(t: Tenant, generation: nat, key: Key): Tenant {
    if t.life.dead || generation != t.life.generation || key !in t.index.routing then t else
      t.(log := t.log + [Signal(Invalidate, Reached(t.index.members, t.index.routing[key]))])
  }

  function Reached(members: seq<LeaseId>, routed: set<LeaseId>): (r: seq<LeaseId>)
    ensures forall l :: l in r <==> l in members && l in routed
  {
    if members == [] then []
    else if members[0] in routed then [members[0]] + Reached(members[1..], routed) else Reached(members[1..], routed)
  }

  /** A factory call that some coroutine still waits for under a live controller is not late. */
  predicate Awaited(f: Life, factory: nat) {
    || (f.startup.Starting? && f.startup.stage.AwaitFactory? && f.startup.stage.factory == factory && Live(f, f.startup.ctl))
    || (exists i :: 0 <= i < |f.recoveries| && f.recoveries[i].Reopening? && f.recoveries[i].stage.AwaitFactory?
                    && f.recoveries[i].stage.factory == factory && Live(f, f.recoveries[i].ctl))
  }

  function Step(t: Tenant, e: Event): Tenant {
    match e
    case Acquired(l, table) => Acquire(t, l, table)
    case Released(l) => Release(t, l)
    case StartupMoves(reply) => StartupStep(t, reply)
    case RecoveryMoves(i, reply) => RecoveryStep(t, i, reply)
    case ReadyMoves(l, reply) => ReadyStep(t, l, reply)
    case FactoryReturns(f, c, closable) =>
      if Awaited(t.life, f) then t else t.(net := FactoryReturnsLate(t.net, f, c, closable))
    case SocketCloses(c) => t.(net := CloseSettles(t.net, c))
    case Disconnected(generation) => if !t.life.dead && generation == t.life.generation then Lost(t) else t
    case TimedOut(ctl) => if Live(t.life, ctl) then Lost(t) else t
    case BeatAnswered(generation) =>
      if generation in t.life.beats && !t.life.dead && generation == t.life.generation
      then t.(life := t.life.(retries := 0)) else t
    case BeatFailed(generation) => if generation in t.life.beats && generation == t.life.generation then Lost(t) else t
    case Notified(generation, key) => Notify(t, generation, key)
    case Disposed => Dispose(t)
  }

  function Next(t: Tenant, e: Event): Tenant {
    Step(t.(log := []), e)
  }

  /** A tenant nobody observes: only sockets and factory calls of earlier entries remain. */
  function Idle(budget: nat): Tenant {
    Tenant(Life(budget, true, false, false, 0, 0, true, 0, [Rejected], StartFailed, [], {}, 0, 0, 0),
           Index(map[], [], map[], map[]), Net(None, None, map[], {}, 0), map[], [])
  }

  /** A new entry with its first lease, before it starts: nothing of the one before it but its sockets is left. */
  function Newborn(t: Tenant, l: LeaseId, table: Table): Tenant {
    Tenant(Life(t.life.budget, false, false, false, 0, 0, false, 0, [Pending], StartFailed, [], {}, 0, 0, 0),
           Index(map[l := Lease(table, None, false)], [l], map[], map[]), t.net.(connection := None),
           map[l := AwaitStartup], [])
  }

  /** `acquire` without an entry: create one, begin to start it, and take the first lease. */
  function Create(t: Tenant, l: LeaseId, table: Table): Tenant {
    var (t2, stage) := OpenBegins(Newborn(t, l, table));
    t2.(life := t2.life.(startup := Starting(stage, 0)))
  }
}
