/** One live listener or one recovery, never neither and never both: what every step of an entry keeps. */
module ObservationLifecycle {
  import opened Options
  import opened ObservationGate
  import opened PostgreSQLObservationManager
  import Routing = ObservationRouting
  import Sockets = ObservationSockets

  // ---- phases -----------------------------------------------------------------------------------

  predicate Newly(promises: seq<Promise>, p: Promise) {
    promises != [] && promises[|promises| - 1] == p
  }

  /** What an entry suspended in `start` under a live controller has so far. */
  ghost predicate StageFits(f: Life, n: Net, stage: Stage) {
    match stage
    case AwaitBarrier(c) => n.connection.None? && (n.barrier.Some? ==> n.barrier == Some(c))
    case AwaitFactory(_, generation) => n.connection.None? && n.barrier.None? && generation == f.generation
    case AwaitConnect(c, generation) => n.connection == Some(c) && generation == f.generation
    case AwaitListen(c, generation) => n.connection == Some(c) && generation == f.generation
  }

  /** Readers may read: an open connection that is listened to, an un-aborted controller, readiness under the generation. */
  ghost predicate Working(f: Life, n: Net) {
    && f.available && !f.aborted && f.recoveries == [] && n.connection.Some? && f.generation in f.beats
    && Newly(f.promises, Resolved(f.generation)) && f.startup.Started?
  }

  ghost predicate RecoveryFits(f: Life, n: Net, r: Recovery) {
    match r
    case Backoff => f.aborted && n.connection.None?
    case Reopening(stage, ctl) => ctl == f.controller && if f.aborted then n.connection.None? else StageFits(f, n, stage)
    case Revalidating(generation, _, _, _, ctl) =>
      ctl == f.controller && if f.aborted then n.connection.None? else generation == f.generation && n.connection.Some?
  }

  /** Readers wait, and exactly one recovery is in flight. */
  ghost predicate Recovering(f: Life, n: Net) {
    && !f.available && |f.recoveries| == 1 && Newly(f.promises, Pending) && f.startup.Started?
    && RecoveryFits(f, n, f.recoveries[0])
  }

  /** The entry has never been ready. */
  ghost predicate Beginning(f: Life, n: Net) {
    && !f.available && !f.aborted && f.recoveries == [] && Newly(f.promises, Pending)
    && match f.startup
       case Starting(stage, ctl) => ctl == f.controller && StageFits(f, n, stage)
       case Started => n.connection.Some?
       case StartFailed => false
  }

  ghost predicate PhaseOf(f: Life, n: Net) {
    f.retries <= f.budget && if f.wasReady then Working(f, n) || Recovering(f, n) else Beginning(f, n)
  }

  /** The phase of a live entry. */
  ghost predicate Phase(t: Tenant) {
    t.index.members != [] && PhaseOf(t.life, t.net)
  }

  // ---- what holds in any phase ------------------------------------------------------------------

  /** Promises, generations and heartbeats tell the truth about availability. */
  ghost predicate Truthful(f: Life) {
    && f.promises != []
    && f.restored <= f.generation
    && (f.available && !f.dead ==> f.generation == f.restored && f.wasReady)
    && (forall i :: 0 <= i < |f.promises| && f.promises[i].Resolved? ==>
          f.promises[i].generation <= f.restored
          && (f.promises[i].generation == f.generation ==> f.available && !f.dead))
    && (forall b :: b in f.beats ==> b <= f.generation && (b == f.generation ==> f.available && !f.dead))
    && (f.dead ==> f.aborted && !Newly(f.promises, Pending))
  }

  /** A lease still being validated has no key; any validated lease means the entry has been ready. */
  ghost predicate Readies(ready: map<LeaseId, Ready>, leases: map<LeaseId, Lease>, f: Life) {
    && (forall l :: l in ready ==>
          l in leases && leases[l].key.None? && (!ready[l].AwaitStartup? && !f.dead ==> f.startup.Started?))
    && (forall l :: l in leases && leases[l].key.Some? ==> f.wasReady)
  }

  /** A revalidation is of a lease that was validated before, and past its first check carries that lease's own key. */
  ghost predicate Rechecks(recoveries: seq<Recovery>, leases: map<LeaseId, Lease>) {
    forall i :: 0 <= i < |recoveries| && recoveries[i].Revalidating? ==>
      && recoveries[i].lease in leases && leases[recoveries[i].lease].key.Some?
      && (!recoveries[i].check.ReaderCheck? ==> leases[recoveries[i].lease].key == Some(recoveries[i].check.identity.key))
  }

  ghost predicate Base(t: Tenant) {
    && Truthful(t.life)
    && Routing.Valid(t.index)
    && Sockets.Valid(t.net, !t.life.dead)
    && Readies(t.ready, t.index.leases, t.life)
    && Rechecks(t.life.recoveries, t.index.leases)
  }

  /** A live entry is in one phase; a dead one holds nobody. */
  ghost predicate Inv(t: Tenant) {
    Base(t) && if t.life.dead then t.index.members == [] else Phase(t)
  }

  // ---- death ------------------------------------------------------------------------------------

  lemma DieTruthful(f: Life)
    requires Truthful(f)
    ensures Truthful(Die(f))
  {
  }

  lemma ReleaseAllKeys(x: Index)
    ensures ReleaseAll(x).leases.Keys == x.leases.Keys
    ensures forall l :: l in x.leases ==> ReleaseAll(x).leases[l].key == x.leases[l].key
  {
  }

  lemma KeysKeepReadies(ready: map<LeaseId, Ready>, leases: map<LeaseId, Lease>, leases': map<LeaseId, Lease>, f: Life, f': Life)
    requires Readies(ready, leases, f) && leases'.Keys == leases.Keys
    requires forall l :: l in leases ==> leases'[l].key == leases[l].key
    requires (f.dead ==> f'.dead) && (f.wasReady ==> f'.wasReady) && (f.startup.Started? && !f'.dead ==> f'.startup.Started?)
    ensures Readies(ready, leases', f')
  {
  }

  lemma KeysKeepRechecks(recoveries: seq<Recovery>, leases: map<LeaseId, Lease>, leases': map<LeaseId, Lease>)
    requires Rechecks(recoveries, leases) && leases'.Keys == leases.Keys
    requires forall l :: l in leases ==> leases'[l].key == leases[l].key
    ensures Rechecks(recoveries, leases')
  {
  }

  lemma TerminateKeeps(t: Tenant)
    requires Base(t) && (t.life.dead ==> t.index.members == [])
    ensures var r := Terminate(t); Inv(r) && r.life.dead
  {
    if !t.life.dead {
      DieTruthful(t.life);
      Routing.ReleaseAllKeeps(t.index);
      Sockets.GiveUpKeeps(t.net);
      ReleaseAllKeys(t.index);
      var leases := ReleaseAll(t.index).leases;
      KeysKeepReadies(t.ready, t.index.leases, leases, t.life, Die(t.life));
      KeysKeepRechecks(t.life.recoveries, t.index.leases, leases);
      hide Truthful, Routing.Valid, Sockets.Valid, Readies, Rechecks, ReleaseAll, GiveUp;
    }
  }

  lemma DisposeKeeps(t: Tenant)
    requires Base(t) && (t.life.dead ==> t.index.members == [])
    ensures var r := Dispose(t); Inv(r) && r.life.dead
  {
    TerminateKeeps(t);
    hide Truthful, Routing.Valid, Sockets.Valid, Readies, Rechecks, ReleaseAll, GiveUp;
  }

  lemma ShutdownKeeps(t: Tenant)
    requires Base(t) && t.index.members == []
    ensures var r := Shutdown(t); Inv(r) && r.life.dead
  {
    if !t.life.dead {
      DieTruthful(t.life);
      Sockets.GiveUpKeeps(t.net);
      assert Routing.Valid(t.index.(routing := map[], identities := map[]));
      KeysKeepReadies(t.ready, t.index.leases, t.index.leases, t.life, Die(t.life));
      hide Truthful, Routing.Valid, Sockets.Valid, Readies, Rechecks, GiveUp;
    }
  }

  lemma DropKeys(x: Index, l: LeaseId)
    requires l in x.leases
    ensures Drop(x, l).leases.Keys == x.leases.Keys
    ensures forall o :: o in x.leases ==> Drop(x, l).leases[o].key == x.leases[o].key
  {
  }

  lemma ReleaseKeeps(t: Tenant, l: LeaseId)
    requires Inv(t)
    ensures Inv(Release(t, l))
    ensures Release(t, l).life.recoveries == t.life.recoveries
    ensures Release(t, l).life.dead || (Release(t, l).life == t.life && Release(t, l).net == t.net)
  {
    if l in t.index.leases && !t.index.leases[l].released {
      var t1 := t.(index := Drop(t.index, l));
      Routing.DropKeeps(t.index, l);
      DropKeys(t.index, l);
      KeysKeepReadies(t.ready, t.index.leases, t1.index.leases, t.life, t.life);
      KeysKeepRechecks(t.life.recoveries, t.index.leases, t1.index.leases);
      hide Truthful, Routing.Valid, Sockets.Valid, Readies, Rechecks, Drop, PhaseOf, Shutdown;
      assert Base(t1);
      if t1.index.members == [] { ShutdownKeeps(t1); }
    }
  }

  // ---- losing the listener ----------------------------------------------------------------------

  lemma LifeOnlyBase(t: Tenant, f: Life)
    requires Base(t) && Truthful(f)
    requires f.dead == t.life.dead && f.wasReady == t.life.wasReady
    requires f.startup == t.life.startup && f.recoveries == t.life.recoveries
    ensures Base(t.(life := f))
  {
    KeysKeepReadies(t.ready, t.index.leases, t.index.leases, t.life, f);
    hide Truthful, Routing.Valid, Sockets.Valid, Readies, Rechecks;
  }

  lemma RetryKeeps(t: Tenant)
    requires Base(t) && !t.life.dead && t.index.members != []
    ensures var (r, recovery) := Retry(t);
            if recovery.None? then Inv(r) && r.life.dead
            else Base(r) && recovery.value.Backoff? && t.life.retries < t.life.budget
                 && r == t.(life := t.life.(retries := t.life.retries + 1, attempts := t.life.attempts + 1))
  {
    hide Base, Terminate, Phase, Inv;
    if t.life.budget <= t.life.retries {
      SpentBase(t, t.life.attempts);
      TerminateKeeps(t.(life := t.life.(retries := t.life.retries + 1)));
    } else {
      SpentBase(t, t.life.attempts + 1);
    }
  }

  lemma SpentBase(t: Tenant, attempts: nat)
    requires Base(t) && !t.life.dead
    ensures Base(t.(life := t.life.(retries := t.life.retries + 1, attempts := attempts)))
  {
    var f := t.life.(retries := t.life.retries + 1, attempts := attempts);
    assert Truthful(f);
    hide Truthful;
    LifeOnlyBase(t, f);
    hide Base;
  }

  lemma LoseTruthful(f: Life)
    requires Truthful(f) && !f.dead
    ensures Truthful(Lose(f))
  {
  }

  lemma RecoveriesBase(t: Tenant, recoveries: seq<Recovery>)
    requires Base(t) && Rechecks(recoveries, t.index.leases)
    ensures Base(t.(life := t.life.(recoveries := recoveries)))
  {
    var f := t.life.(recoveries := recoveries);
    assert Truthful(f);
    KeysKeepReadies(t.ready, t.index.leases, t.index.leases, t.life, f);
    hide Truthful, Routing.Valid, Sockets.Valid, Readies, Rechecks;
  }

  /** The state after fencing and closing, before a recovery is started. */
  function Fenced(t: Tenant): Tenant {
    t.(life := Lose(t.life), net := GiveUp(t.net).(connection := None))
  }

  lemma FencedKeeps(t: Tenant)
    requires Base(t) && !t.life.dead
    ensures Base(Fenced(t))
  {
    LoseTruthful(t.life);
    Sockets.GiveUpKeeps(t.net);
    KeysKeepReadies(t.ready, t.index.leases, t.index.leases, t.life, Lose(t.life));
    hide Truthful, Routing.Valid, Sockets.Valid, Readies, Rechecks, GiveUp;
  }

  lemma SpawnKeeps(t: Tenant)
    requires Base(t) && !t.life.dead && t.index.members != [] && t.life.recoveries == []
    requires t.life.wasReady && !t.life.available && t.life.aborted && t.net.connection.None?
    requires Newly(t.life.promises, Pending) && t.life.startup.Started?
    ensures Inv(Spawn(t))
  {
    RetryKeeps(t);
    assert Rechecks([Backoff], t.index.leases);
    hide Base, Retry, Rechecks;
    var (r, recovery) := Retry(t);
    if recovery.Some? {
      RecoveriesBase(r, [Backoff]);
      assert r.life.recoveries + [Backoff] == [Backoff];
    }
  }

  lemma LostKeeps(t: Tenant)
    requires Inv(t)
    ensures Inv(Lost(t))
    ensures !t.life.dead && !t.life.available && t.life.wasReady ==>
              !Lost(t).life.dead && Lost(t).life.aborted && Lost(t).index == t.index
    ensures Lost(t).ready == t.ready && Lost(t).life.startup == t.life.startup && (t.life.dead ==> Lost(t).life.dead)
  {
    if t.life.dead || t.life.aborted {
    } else if !t.life.wasReady {
      TerminateKeeps(t);
    } else {
      FencedKeeps(t);
      hide Base, Spawn;
      if t.life.available {
        SpawnKeeps(Fenced(t));
      } else {
        assert PhaseOf(Fenced(t).life, Fenced(t).net);
      }
    }
  }

  // ---- an attempt fails -------------------------------------------------------------------------

  lemma EndsKeeps(t: Tenant, i: nat)
    requires Inv(t) && t.life.dead && i < |t.life.recoveries|
    ensures Inv(Ends(t, i))
  {
    assert Rechecks(Without(t.life.recoveries, i), t.index.leases);
    RecoveriesBase(t, Without(t.life.recoveries, i));
    hide Base;
  }

  lemma BecomesKeeps(t: Tenant, i: nat, r: Recovery)
    requires Base(t) && i < |t.life.recoveries| && Rechecks([r], t.index.leases)
    ensures Base(Becomes(t, i, r))
  {
    assert Rechecks(t.life.recoveries[i := r], t.index.leases) by {
      assert r == [r][0];
    }
    RecoveriesBase(t, t.life.recoveries[i := r]);
    hide Base;
  }

  /** A recovery that has resolved no mapping yet. */
  lemma FreshRechecks(r: Recovery, leases: map<LeaseId, Lease>)
    requires r.Revalidating? ==> r.check.ReaderCheck? && r.lease in leases && leases[r.lease].key.Some?
    ensures Rechecks([r], leases)
  {
  }

  lemma AttemptFailsKeeps(t: Tenant, i: nat)
    requires Inv(t) && i < |t.life.recoveries|
    ensures Inv(AttemptFails(t, i))
  {
    if t.life.dead {
      EndsKeeps(t, i);
    } else {
      var t1 := if t.life.aborted then t else Lost(t);
      LostKeeps(t);
      assert !t1.life.dead && t1.life.aborted && t1.index == t.index && t1.life.wasReady && !t1.life.available;
      RetryKeeps(t1);
      var (t2, recovery) := Retry(t1);
      assert Rechecks([Backoff], t2.index.leases);
      hide Base, Lost, Retry, Rechecks;
      if recovery.None? {
        if i < |t2.life.recoveries| { EndsKeeps(t2, i); }
      } else {
        assert |t2.life.recoveries| == 1 && i == 0;
        BecomesKeeps(t2, i, Backoff);
      }
    }
  }

  // ---- start ------------------------------------------------------------------------------------

  /** An entry on its way to a connection: alive, not available, under a live controller. */
  ghost predicate Seeking(t: Tenant) {
    Base(t) && !t.life.dead && !t.life.aborted && !t.life.available
  }

  lemma CallFactoryKeeps(t: Tenant)
    requires Seeking(t) && t.net.connection.None? && t.net.barrier.None?
    ensures var (t1, stage) := CallFactory(t);
            && Seeking(t1) && StageFits(t1.life, t1.net, stage) && t1.index == t.index
            && t1.life == t.life.(generation := t.life.generation + 1)
  {
    var f := t.life.(generation := t.life.generation + 1);
    assert Truthful(f);
    LifeOnlyBase(t, f);
    Sockets.CallKeeps(t.net, true, t.net.factories + {t.net.calls}, t.net.calls + 1);
    hide Truthful, Routing.Valid, Sockets.Valid, Readies, Rechecks;
  }

  lemma OpenBeginsKeeps(t: Tenant)
    requires Seeking(t) && t.net.connection.None?
    ensures var (t1, stage) := OpenBegins(t);
            && Seeking(t1) && StageFits(t1.life, t1.net, stage) && t1.index == t.index
            && (t1.life == t.life || t1.life == t.life.(generation := t.life.generation + 1))
  {
    if t.net.barrier.None? { CallFactoryKeeps(t); }
    hide Base, CallFactory;
  }

  /** Only the net changes. */
  lemma NetOnlyBase(t: Tenant, n: Net)
    requires Base(t) && Sockets.Valid(n, !t.life.dead)
    ensures Base(t.(net := n))
  {
    hide Truthful, Routing.Valid, Sockets.Valid, Readies, Rechecks;
  }

  lemma ReceiveKeeps(t: Tenant, factory: nat, generation: nat, reply: Reply)
    requires Seeking(t) && reply.Handed? && reply.connection !in t.net.sockets
    requires StageFits(t.life, t.net, AwaitFactory(factory, generation))
    ensures var (t1, o) := Receive(t, factory, generation, reply);
            && Seeking(t1) && t1.index == t.index && t1.life == t.life && !o.Opened?
            && (o.Onward? ==> StageFits(t1.life, t1.net, o.stage))
            && (o.Stopped? ==> StageFits(t1.life, t1.net, AwaitFactory(factory, generation)))
  {
    Sockets.HandKeeps(t.net, true, factory, reply.connection, reply.closable);
    Sockets.ConnectKeeps(t.net, factory, reply.connection);
    forall n | Sockets.Valid(n, true) { NetOnlyBase(t, n); }
    hide Base, Sockets.Valid;
  }

  lemma OpenNextKeeps(t: Tenant, stage: Stage, reply: Reply)
    requires Seeking(t) && StageFits(t.life, t.net, stage) && Fits(t, stage, reply)
    ensures var (t1, o) := OpenNext(t, stage, reply);
            && Seeking(t1) && t1.index == t.index
            && (t1.life == t.life || t1.life == t.life.(generation := t.life.generation + 1))
            && (o.Onward? ==> StageFits(t1.life, t1.net, o.stage))
            && (o.Opened? ==> t1.net.connection.Some?)
            && (o.Stopped? ==> t1.life == t.life && StageFits(t1.life, t1.net, stage))
  {
    match stage
    case AwaitBarrier(_) =>
      assert t.net.barrier.None?;
      CallFactoryKeeps(t);
    case AwaitFactory(f, generation) => ReceiveKeeps(t, f, generation, reply);
    case _ =>
    hide Base, CallFactory, Receive;
  }

  lemma StartupBase(t: Tenant, s: Startup)
    requires Base(t) && !t.life.startup.Started?
    ensures Base(t.(life := t.life.(startup := s)))
  {
    var f := t.life.(startup := s);
    assert Truthful(f);
    KeysKeepReadies(t.ready, t.index.leases, t.index.leases, t.life, f);
    hide Truthful, Routing.Valid, Sockets.Valid, Readies, Rechecks;
  }

  lemma StartupStepKeeps(t: Tenant, reply: Reply)
    requires Inv(t)
    ensures Inv(StartupStep(t, reply))
  {
    hide Routing.Valid, Sockets.Valid, Readies, Rechecks;
    if t.life.startup.Starting? {
      var stage, ctl := t.life.startup.stage, t.life.startup.ctl;
      if reply.Failed? {
        StartFailsKeeps(t);
      } else if Live(t.life, ctl) && Fits(t, stage, reply) {
        assert !t.life.dead && Beginning(t.life, t.net);
        OpenNextKeeps(t, stage, reply);
        var (t1, o) := OpenNext(t, stage, reply);
        forall s { StartupBase(t1, s); }
        if o.Stopped? { StartFailsKeeps(t1); }
      }
    }
    hide Base, OpenNext, Fits, Terminate;
  }

  lemma StartFailsKeeps(t: Tenant)
    requires Base(t) && !t.life.startup.Started? && (t.life.dead ==> t.index.members == [])
    ensures Inv(Terminate(t.(life := t.life.(startup := StartFailed))))
  {
    StartupBase(t, StartFailed);
    hide Base;
    TerminateKeeps(t.(life := t.life.(startup := StartFailed)));
    hide Inv;
  }

  // ---- recover ----------------------------------------------------------------------------------

  lemma ReopenKeeps(t: Tenant, i: nat)
    requires Inv(t) && i < |t.life.recoveries| && t.life.recoveries[i].Backoff?
    ensures Inv(Reopen(t, i))
  {
    if t.life.dead {
      EndsKeeps(t, i);
    } else {
      RearmSeeks(t);
      var t1 := t.(life := Rearmed(t.life));
      OpenBeginsKeeps(t1);
      var (t2, stage) := OpenBegins(t1);
      FreshRechecks(Reopening(stage, t2.life.controller), t2.index.leases);
      hide Base, OpenBegins, Rechecks;
      BecomesKeeps(t2, i, Reopening(stage, t2.life.controller));
    }
  }

  /** An attempt begins with a controller of its own. */
  function Rearmed(f: Life): Life {
    f.(controller := f.controller + 1, aborted := false)
  }

  lemma RearmSeeks(t: Tenant)
    requires Base(t) && !t.life.dead && !t.life.available
    ensures Seeking(t.(life := Rearmed(t.life)))
  {
    assert Truthful(Rearmed(t.life));
    LifeOnlyBase(t, Rearmed(t.life));
    hide Base;
  }

  /** `start` has succeeded: what is left of the attempt is to validate the leases again. */
  ghost predicate Reopened(t: Tenant, generation: nat) {
    && Base(t) && Phase(t) && !t.life.dead && Recovering(t.life, t.net) && t.life.wasReady
    && !t.life.aborted && t.net.connection.Some? && generation == t.life.generation
  }

  lemma RestoreTruthful(f: Life)
    requires Truthful(f) && !f.dead && Newly(f.promises, Pending)
    ensures Truthful(Restore(f).(wasReady := true))
    ensures f.wasReady ==> Truthful(Restore(f))
    ensures Newly(Restore(f).promises, Resolved(f.generation))
  {
  }

  lemma RecoveredKeeps(t: Tenant, i: nat, generation: nat)
    requires i < |t.life.recoveries| && ((t.life.dead && Inv(t)) || Reopened(t, generation))
    ensures Inv(Recovered(t, i, generation))
  {
    if t.life.dead {
      EndsKeeps(t, i);
    } else {
      RestoreTruthful(t.life);
      hide Truthful;
      LifeOnlyBase(t, t.life);
      KeysKeepReadies(t.ready, t.index.leases, t.index.leases, t.life, Restore(t.life));
      var t1 := t.(life := Restore(t.life));
      hide Readies, Routing.Valid, Sockets.Valid;
      assert Base(t1);
      assert Rechecks([], t1.index.leases);
      hide Base, Rechecks, Keyed, Restore;
      RecoveriesBase(t1, []);
      assert Without(t1.life.recoveries, i) == [];
    }
  }

  lemma {:induction false} RevalidateKeeps(t: Tenant, i: nat, generation: nat, todo: seq<LeaseId>)
    requires i < |t.life.recoveries| && ((t.life.dead && Inv(t)) || Reopened(t, generation))
    ensures Inv(Revalidate(t, i, generation, todo))
    decreases |todo|
  {
    if todo == [] {
      RecoveredKeeps(t, i, generation);
    } else if todo[0] !in t.index.leases || t.index.leases[todo[0]].released || t.index.leases[todo[0]].key.None? {
      RevalidateKeeps(t, i, generation, todo[1..]);
    } else {
      var r := Revalidating(generation, todo[0], todo[1..], ReaderCheck, t.life.controller);
      FreshRechecks(r, t.index.leases);
      hide Base, Rechecks;
      BecomesKeeps(t, i, r);
    }
  }

  lemma LogIsHistory(t: Tenant, log: seq<Signal>)
    requires Inv(t)
    ensures Inv(t.(log := log))
  {
  }

  lemma RejectLeaseKeeps(t: Tenant, i: nat, r: Recovery)
    requires i < |t.life.recoveries| && r.Revalidating? && Inv(t) && (t.life.dead || Reopened(t, r.generation))
    ensures Inv(RejectLease(t, i, r))
  {
    var held := r.lease in t.index.leases && !t.index.leases[r.lease].released;
    var logged := t.(log := t.log + [Signal(Fail, [r.lease])]);
    LogIsHistory(t, logged.log);
    ReleaseKeeps(logged, r.lease);
    var t1 := if held then Release(logged, r.lease) else t;
    hide Base, Release, Revalidate;
    RevalidateKeeps(t1, i, r.generation, r.todo);
  }

  lemma IndexBase(t: Tenant, x: Index)
    requires Base(t) && Routing.Valid(x) && x.leases == t.index.leases
    ensures Base(t.(index := x))
  {
    hide Truthful, Routing.Valid, Sockets.Valid, Readies, Rechecks;
  }

  lemma CheckPassesKeeps(t: Tenant, i: nat, reply: Reply)
    requires Inv(t) && i < |t.life.recoveries| && t.life.recoveries[i].Revalidating?
    requires Live(t.life, t.life.recoveries[i].ctl)
    ensures Inv(CheckPasses(t, i, t.life.recoveries[i], reply))
  {
    var r := t.life.recoveries[i];
    assert !t.life.dead && Reopened(t, r.generation);
    match r.check
    case ReaderCheck =>
      if reply.Mapping? {
        if SameMapping(t.index, r.lease, reply.identity) {
          var next := r.(check := ListenerCheck(reply.identity), ctl := t.life.controller);
          assert Rechecks([next], t.index.leases);
          BecomesKeeps(t, i, next);
        } else {
          RejectLeaseKeeps(t, i, r);
        }
      }
    case ListenerCheck(identity) =>
      if reply.Database? {
        if reply.database == identity.database {
          var next := r.(check := TriggerCheck(identity), ctl := t.life.controller);
          assert Rechecks([next], t.index.leases);
          BecomesKeeps(t, i, next);
        } else {
          RejectLeaseKeeps(t, i, r);
        }
      }
    case TriggerCheck(identity) =>
      if reply.Ok? { RefreshedKeeps(t, i, identity); }
    hide Base, Rechecks, RejectLease, Becomes, Revalidate;
  }

  lemma RefreshedKeeps(t: Tenant, i: nat, identity: Identity)
    requires i < |t.life.recoveries| && t.life.recoveries[i].Revalidating?
    requires t.life.recoveries[i].check == TriggerCheck(identity) && Reopened(t, t.life.recoveries[i].generation)
    ensures Inv(CheckPasses(t, i, t.life.recoveries[i], Ok))
  {
    var r := t.life.recoveries[i];
    assert r.lease in t.index.leases && t.index.leases[r.lease].key == Some(identity.key);
    var x := if !t.index.leases[r.lease].released
             then t.index.(identities := t.index.identities[t.index.leases[r.lease].table := identity]) else t.index;
    if !t.index.leases[r.lease].released { Routing.RefreshKeeps(t.index, r.lease, identity); }
    assert Routing.Valid(x);
    hide Routing.Valid;
    IndexBase(t, x);
    hide Base, Revalidate;
    RevalidateKeeps(t.(index := x), i, r.generation, r.todo);
  }

  lemma CheckFailsKeeps(t: Tenant, i: nat, definitive: bool)
    requires Inv(t) && i < |t.life.recoveries| && t.life.recoveries[i].Revalidating?
    ensures Inv(CheckFails(t, i, t.life.recoveries[i], definitive))
  {
    var r := t.life.recoveries[i];
    assert t.life.dead ==> t.life.aborted;
    hide Base, AttemptFails, RejectLease, Lost;
    if t.life.aborted {
      AttemptFailsKeeps(t, i);
    } else if definitive && !r.check.ListenerCheck? {
      RejectLeaseKeeps(t, i, r);
    } else if r.check.ReaderCheck? {
      AttemptFailsKeeps(t, i);
    } else {
      LostKeeps(t);
      var t1 := if r.check.ListenerCheck? && r.generation != t.life.generation then t
                else if r.check.TriggerCheck? && (!t.life.wasReady || t.life.available) then t else Lost(t);
      if i < |t1.life.recoveries| { AttemptFailsKeeps(t1, i); }
    }
  }

  lemma ReopenNextKeeps(t: Tenant, i: nat, stage: Stage, ctl: nat, reply: Reply)
    requires Inv(t) && i < |t.life.recoveries| && t.life.recoveries[i] == Reopening(stage, ctl)
    requires Live(t.life, ctl) && Fits(t, stage, reply)
    ensures Inv(ReopenNext(t, i, stage, ctl, reply))
  {
    assert !t.life.dead && Recovering(t.life, t.net) && i == 0;
    OpenNextKeeps(t, stage, reply);
    var (t1, o) := OpenNext(t, stage, reply);
    if stage.AwaitListen? { assert t1 == t; }
    hide Base, OpenNext, Fits, Becomes, Revalidate, AttemptFails;
    match o
    case Onward(next) => OnwardKeeps(t1, i, Reopening(next, ctl));
    case Opened => OpenedKeeps(t, t1, i, stage, ctl, reply);
    case Stopped => AttemptFailsKeeps(t1, i);
  }

  lemma OnwardKeeps(t: Tenant, i: nat, r: Recovery)
    requires Base(t) && Phase1(t) && i < |t.life.recoveries| && |t.life.recoveries| == 1 && r.Reopening?
    requires RecoveryFits(t.life, t.net, r)
    ensures Inv(Becomes(t, i, r))
  {
    FreshRechecks(r, t.index.leases);
    BecomesKeeps(t, i, r);
    hide Base;
  }

  /** A recovering entry but for what its recovery is doing. */
  ghost predicate Phase1(t: Tenant) {
    && t.index.members != [] && t.life.retries <= t.life.budget && t.life.wasReady && !t.life.available
    && Newly(t.life.promises, Pending) && t.life.startup.Started?
  }

  lemma OpenedKeeps(t: Tenant, t1: Tenant, i: nat, stage: Stage, ctl: nat, reply: Reply)
    requires Inv(t) && i < |t.life.recoveries| && t.life.recoveries[i] == Reopening(stage, ctl) && Live(t.life, ctl)
    requires Fits(t, stage, reply) && OpenNext(t, stage, reply) == (t1, Opened)
    ensures Inv(Revalidate(t1, i, t1.life.generation, t1.index.members))
  {
    assert stage.AwaitListen? && t1 == t && Reopened(t, t.life.generation);
    hide Base, Revalidate;
    RevalidateKeeps(t, i, t.life.generation, t.index.members);
  }

  lemma RecoveryStepKeeps(t: Tenant, i: nat, reply: Reply)
    requires Inv(t)
    ensures Inv(RecoveryStep(t, i, reply))
  {
    hide Inv, Reopen, AttemptFails, ReopenNext, CheckFails, CheckPasses, Fits;
    if i < |t.life.recoveries| {
      match t.life.recoveries[i]
      case Backoff => ReopenKeeps(t, i);
      case Reopening(stage, ctl) =>
        if reply.Failed? { AttemptFailsKeeps(t, i); }
        else if Live(t.life, ctl) && Fits(t, stage, reply) { ReopenNextKeeps(t, i, stage, ctl, reply); }
      case Revalidating(_, _, _, _, ctl) =>
        if reply.Failed? { CheckFailsKeeps(t, i, reply.definitive); }
        else if Live(t.life, ctl) { CheckPassesKeeps(t, i, reply); }
    }
  }

  // ---- leases becoming ready --------------------------------------------------------------------

  lemma AwaitKeeps(t: Tenant, l: LeaseId, r: Ready)
    requires Inv(t) && l in t.index.leases && t.index.leases[l].key.None? && (t.life.dead || t.life.startup.Started?)
    ensures Inv(Await(t, l, r))
  {
    assert Readies(t.ready[l := r], t.index.leases, t.life);
    hide Truthful, Routing.Valid, Sockets.Valid, Readies, Rechecks, PhaseOf;
  }

  lemma ReadyFailsKeeps(t: Tenant, l: LeaseId)
    requires Inv(t)
    ensures Inv(ReadyFails(t, l))
  {
    assert Readies(t.ready - {l}, t.index.leases, t.life);
    hide Truthful, Routing.Valid, Sockets.Valid, Readies, Rechecks, PhaseOf, Release;
    ReleaseKeeps(t.(ready := t.ready - {l}), l);
  }

  lemma ReadyTopKeeps(t: Tenant, l: LeaseId)
    requires Inv(t) && l in t.ready && (t.life.dead || t.life.startup.Started?)
    ensures Inv(ReadyTop(t, l))
  {
    assert l in t.index.leases && t.index.leases[l].key.None?;
    hide Inv, ReadyFails, Await;
    if !Held(t, l) { ReadyFailsKeeps(t, l); }
    else if t.life.wasReady && !t.life.available { AwaitKeeps(t, l, AwaitReadiness(Newest(t.life.promises))); }
    else { AwaitKeeps(t, l, Checking(t.life.generation, ReaderCheck, t.life.controller)); }
  }

  lemma ReadyErrsKeeps(t: Tenant, l: LeaseId, generation: nat)
    requires Inv(t) && l in t.ready && (t.life.dead || t.life.startup.Started?)
    ensures Inv(ReadyErrs(t, l, generation))
  {
    hide Inv, ReadyFails, ReadyTop;
    ReadyTopKeeps(t, l);
    ReadyFailsKeeps(t, l);
  }

  /** The lease that completes its validation is filed, and the first of them opens the entry for reading. */
  lemma ValidatedKeeps(t: Tenant, l: LeaseId, identity: Identity)
    requires Inv(t) && l in t.ready && Held(t, l) && !t.life.aborted && t.life.startup.Started?
    requires !Conflicts(t.index, l, identity)
    ensures Inv(Validated(t, l, identity))
  {
    hide Routing.Distinct, Routing.Routes, Routing.Filed, Routing.Needed;
    var f := if t.life.wasReady then t.life else Restore(t.life).(wasReady := true);
    if !t.life.wasReady { RestoreTruthful(t.life); }
    Routing.RouteKeeps(t.index, l, identity);
    var x := Route(t.index, l, identity);
    assert Readies(t.ready - {l}, x.leases, f);
    RouteRechecks(t.life.recoveries, t.index, l, identity);
    hide Truthful, Routing.Valid, Sockets.Valid, Readies, Rechecks, Route;
    assert x.members == t.index.members by { RouteMembers(t.index, l, identity); }
  }

  lemma RouteRechecks(recoveries: seq<Recovery>, x: Index, l: LeaseId, identity: Identity)
    requires Rechecks(recoveries, x.leases) && l in x.leases && x.leases[l].key.None?
    ensures Rechecks(recoveries, Route(x, l, identity).leases)
  {
  }

  lemma RouteMembers(x: Index, l: LeaseId, identity: Identity)
    requires l in x.leases
    ensures Route(x, l, identity).members == x.members
  {
  }

  lemma ReadyPassesKeeps(t: Tenant, l: LeaseId, reply: Reply)
    requires Inv(t) && l in t.ready && t.ready[l].Checking? && Live(t.life, t.ready[l].ctl)
    ensures Inv(ReadyPasses(t, l, t.ready[l], reply))
  {
    var r := t.ready[l];
    assert !t.life.dead && t.life.startup.Started?;
    assert l in t.index.leases && t.index.leases[l].key.None?;
    hide Inv, ReadyFails, ReadyTop, ReadyErrs, Await, Validated, Conflicts;
    match r.check
    case ReaderCheck =>
      if reply.Mapping? {
        if !Held(t, l) { ReadyFailsKeeps(t, l); }
        else if Stale(t.life, r.generation) { ReadyTopKeeps(t, l); }
        else { AwaitKeeps(t, l, r.(check := ListenerCheck(reply.identity), ctl := t.life.controller)); }
      }
    case ListenerCheck(identity) =>
      if reply.Database? {
        if reply.database != identity.database { ReadyErrsKeeps(t, l, r.generation); }
        else { AwaitKeeps(t, l, r.(check := TriggerCheck(identity), ctl := t.life.controller)); }
      }
    case TriggerCheck(identity) =>
      if reply.Ok? {
        if !Held(t, l) { ReadyFailsKeeps(t, l); }
        else if Stale(t.life, r.generation) { ReadyTopKeeps(t, l); }
        else if Conflicts(t.index, l, identity) { ReadyErrsKeeps(t, l, r.generation); }
        else { ValidatedKeeps(t, l, identity); }
      }
  }

  lemma ReadyStepKeeps(t: Tenant, l: LeaseId, reply: Reply)
    requires Inv(t)
    ensures Inv(ReadyStep(t, l, reply))
  {
    if l in t.ready {
      assert !t.ready[l].AwaitStartup? ==> t.life.dead || t.life.startup.Started?;
      assert l in t.index.leases && t.index.leases[l].key.None?;
      LostKeeps(t);
      hide Inv, ReadyFails, ReadyTop, ReadyErrs, Await, ReadyPasses, Lost;
      match t.ready[l]
      case AwaitStartup =>
        if t.life.startup.Started? { ReadyTopKeeps(t, l); } else { ReadyFailsKeeps(t, l); }
      case AwaitReadiness(i) =>
        if i < |t.life.promises| && !t.life.promises[i].Pending? {
          if t.life.promises[i].Rejected? || !Held(t, l) { ReadyFailsKeeps(t, l); }
          else { AwaitKeeps(t, l, Checking(t.life.generation, ReaderCheck, t.life.controller)); }
        }
      case Checking(generation, check, ctl) =>
        if reply.Failed? {
          var t1 := if check.TriggerCheck? && t.life.wasReady && !t.life.available && !reply.definitive then Lost(t) else t;
          ReadyErrsKeeps(t1, l, generation);
        } else if Live(t.life, ctl) {
          ReadyPassesKeeps(t, l, reply);
        }
    }
  }

  // ---- the rest of the world --------------------------------------------------------------------

  lemma AcquireKeeps(t: Tenant, l: LeaseId, table: Table)
    requires Inv(t)
    ensures Inv(Acquire(t, l, table))
  {
    if !t.life.dead && l !in t.index.leases {
      Routing.AcquireKeeps(t.index, l, table);
      var leases := t.index.leases[l := Lease(table, None, false)];
      assert Readies(t.ready[l := AwaitStartup], leases, t.life);
      assert Rechecks(t.life.recoveries, leases);
      hide Truthful, Routing.Valid, Sockets.Valid, Readies, Rechecks, PhaseOf;
    }
  }

  /** Sockets that close and factories that return late disturb neither what is held nor where an attempt stands. */
  lemma NetKeeps(t: Tenant, n: Net)
    requires Inv(t) && Sockets.Valid(n, !t.life.dead)
    requires n.connection == t.net.connection && (n.barrier == t.net.barrier || n.barrier.None?)
    ensures Inv(t.(net := n))
  {
    NetOnlyBase(t, n);
    hide Base;
  }

  lemma LateFactoryKeeps(t: Tenant, factory: nat, c: Connection, closable: bool)
    requires Inv(t)
    ensures Inv(t.(net := FactoryReturnsLate(t.net, factory, c, closable)))
  {
    if factory in t.net.factories && c !in t.net.sockets {
      Sockets.HandKeeps(t.net, !t.life.dead, factory, c, closable);
    }
    hide Base, Sockets.Valid, Phase;
    NetKeeps(t, FactoryReturnsLate(t.net, factory, c, closable));
  }

  lemma SocketClosesKeeps(t: Tenant, c: Connection)
    requires Inv(t)
    ensures Inv(t.(net := CloseSettles(t.net, c)))
  {
    Sockets.CloseSettlesKeeps(t.net, !t.life.dead, c);
    hide Base, Sockets.Valid, Phase;
    NetKeeps(t, CloseSettles(t.net, c));
  }

  lemma BeatAnsweredKeeps(t: Tenant)
    requires Inv(t)
    ensures Inv(t.(life := t.life.(retries := 0)))
  {
    var f := t.life.(retries := 0);
    assert Truthful(f);
    LifeOnlyBase(t, f);
    hide Base;
  }

  lemma StepKeeps(t: Tenant, e: Event)
    requires Inv(t)
    ensures Inv(Step(t, e))
  {
    hide Inv, Acquire, Release, StartupStep, RecoveryStep, ReadyStep, Lost, Dispose, FactoryReturnsLate, CloseSettles;
    match e
    case Acquired(l, table) => AcquireKeeps(t, l, table);
    case Released(l) => ReleaseKeeps(t, l);
    case StartupMoves(reply) => StartupStepKeeps(t, reply);
    case RecoveryMoves(i, reply) => RecoveryStepKeeps(t, i, reply);
    case ReadyMoves(l, reply) => ReadyStepKeeps(t, l, reply);
    case FactoryReturns(f, c, closable) => LateFactoryKeeps(t, f, c, closable);
    case SocketCloses(c) => SocketClosesKeeps(t, c);
    case Disconnected(_) => LostKeeps(t);
    case TimedOut(_) => LostKeeps(t);
    case BeatAnswered(_) => BeatAnsweredKeeps(t);
    case BeatFailed(_) => LostKeeps(t);
    case Notified(generation, key) => NotifyKeeps(t, generation, key);
    case Disposed => DisposedKeeps(t);
  }

  lemma NextKeeps(t: Tenant, e: Event)
    requires Inv(t)
    ensures Inv(Next(t, e))
  {
    LogIsHistory(t, []);
    hide Inv, Step;
    StepKeeps(t.(log := []), e);
  }

  lemma NotifyKeeps(t: Tenant, generation: nat, key: Key)
    requires Inv(t)
    ensures Inv(Notify(t, generation, key))
  {
    LogIsHistory(t, Notify(t, generation, key).log);
    hide Inv;
  }

  lemma DisposedKeeps(t: Tenant)
    requires Inv(t)
    ensures Inv(Dispose(t))
  {
    DisposeKeeps(t);
    hide Base, Phase, Dispose;
  }

  lemma NewbornSeeks(t: Tenant, l: LeaseId, table: Table)
    requires Sockets.Valid(t.net, !t.life.dead) && t.life.dead
    ensures var t1 := Newborn(t, l, table);
            && Seeking(t1) && t1.net.connection.None? && t1.index.members == [l] && Newly(t1.life.promises, Pending)
            && t1.life.retries == 0 && !t1.life.wasReady && !t1.life.startup.Started? && t1.life.controller == 0 && t1.life.recoveries == []
  {
    Sockets.NextEntryKeeps(t.net);
    hide Sockets.Valid;
  }

  /** A new entry inherits only sockets, factory calls and the barrier. */
  lemma CreateKeeps(t: Tenant, l: LeaseId, table: Table)
    requires Inv(t) && t.life.dead
    ensures Inv(Create(t, l, table)) && !Create(t, l, table).life.dead
  {
    hide Truthful, Routing.Valid, Sockets.Valid, Readies, Rechecks, OpenBegins, Newborn;
    NewbornSeeks(t, l, table);
    OpenBeginsKeeps(Newborn(t, l, table));
    var (t2, stage) := OpenBegins(Newborn(t, l, table));
    hide Base;
    StartupBase(t2, Starting(stage, 0));
  }

  /** `acquire` with or without an entry, and every other step: the whole history of one tenant. */
  function TenantNext(t: Tenant, e: Event): Tenant {
    if e.Acquired? && t.life.dead then Create(t, e.lease, e.table) else Next(t, e)
  }

  function TenantRun(budget: nat, trace: seq<Event>): Tenant {
    if trace == [] then Idle(budget) else TenantNext(TenantRun(budget, trace[..|trace| - 1]), trace[|trace| - 1])
  }

  lemma IdleHolds(budget: nat)
    ensures Inv(Idle(budget))
  {
  }

  lemma {:induction false} TenantRunKeeps(budget: nat, trace: seq<Event>)
    ensures Inv(TenantRun(budget, trace))
  {
    hide Inv, Next, Create, Idle;
    if trace == [] {
      IdleHolds(budget);
    } else {
      var before, e := TenantRun(budget, trace[..|trace| - 1]), trace[|trace| - 1];
      TenantRunKeeps(budget, trace[..|trace| - 1]);
      NextKeeps(before, e);
      if e.Acquired? && before.life.dead { CreateKeeps(before, e.lease, e.table); }
    }
  }

  // ---- what every run keeps ---------------------------------------------------------------------

  /**
   * Recovery never stalls and never doubles: at every step boundary a live entry that has been ready is in exactly one
   * of two states. Either readers may read, over an open connection, under the generation readiness was resolved with;
   * or readers wait on an unsettled promise and exactly one recovery is in flight.
   */
  lemma LiveEntryWorksOrRecovers(budget: nat, trace: seq<Event>)
    requires var f := TenantRun(budget, trace).life; !f.dead && f.wasReady
    ensures var t := TenantRun(budget, trace);
            && (t.life.available ==> Working(t.life, t.net))
            && (!t.life.available ==> Recovering(t.life, t.net))
  {
    TenantRunKeeps(budget, trace);
    hide TenantRun;
  }

  /** At most one socket of a tenant is in use, whatever entries came and went and whatever their factories did. */
  lemma OneConnectionPerTenant(budget: nat, trace: seq<Event>, c: Connection, d: Connection)
    requires Sockets.InUse(TenantRun(budget, trace).net, c) && Sockets.InUse(TenantRun(budget, trace).net, d)
    ensures c == d
  {
    TenantRunKeeps(budget, trace);
    var t := TenantRun(budget, trace);
    assert Sockets.Valid(t.net, !t.life.dead);
    hide TenantRun, Sockets.Valid;
    Sockets.AtMostOneInUse(t.net, !t.life.dead, c, d);
  }

  /**
   * Every connection a factory handed over, late ones and wrongly shaped ones included, has its close scheduled at most
   * once; and unless it cannot be closed at all, it is held by the live entry or closing.
   */
  lemma EveryConnectionIsOwned(budget: nat, trace: seq<Event>, c: Connection)
    requires c in TenantRun(budget, trace).net.sockets
    ensures var t := TenantRun(budget, trace);
            && t.net.sockets[c].closes <= 1
            && (t.net.sockets[c].closable ==> t.net.sockets[c].closes == 1 || (!t.life.dead && t.net.connection == Some(c)))
            && (t.net.sockets[c].closes == 1 ==> !(!t.life.dead && t.net.connection == Some(c)))
  {
    TenantRunKeeps(budget, trace);
    var t := TenantRun(budget, trace);
    assert Sockets.Owned(t.net, !t.life.dead);
    hide TenantRun, Inv;
  }

  /**
   * A notification reaches exactly the leases that were validated for its key and are still held, and only from the
   * connection of the current generation.
   */
  lemma NotificationsReachExactly(budget: nat, trace: seq<Event>, generation: nat, key: Key, l: LeaseId)
    ensures var t := TenantRun(budget, trace);
            var sent := Next(t, Notified(generation, key)).log;
            (exists i :: 0 <= i < |sent| && l in sent[i].leases) <==>
              && !t.life.dead && generation == t.life.generation
              && l in t.index.leases && !t.index.leases[l].released && t.index.leases[l].key == Some(key)
  {
    TenantRunKeeps(budget, trace);
    var t := TenantRun(budget, trace);
    assert Routing.Valid(t.index);
    hide TenantRun, Inv, Routing.Valid, Reached;
    SentIsReached(t, generation, key);
    if !t.life.dead && generation == t.life.generation && key in t.index.routing {
      Routing.ReachesExactly(t.index, key, l);
      assert Next(t, Notified(generation, key)).log[0].leases == Reached(t.index.members, t.index.routing[key]);
    } else if l in t.index.leases && !t.index.leases[l].released && t.index.leases[l].key == Some(key) {
      FiledIsRouted(t.index, l);
    }
  }

  lemma SentIsReached(t: Tenant, generation: nat, key: Key)
    ensures Next(t, Notified(generation, key)).log ==
            if !t.life.dead && generation == t.life.generation && key in t.index.routing
            then [Signal(Invalidate, Reached(t.index.members, t.index.routing[key]))] else []
  {
  }

  lemma FiledIsRouted(x: Index, l: LeaseId)
    requires Routing.Valid(x) && l in x.leases && !x.leases[l].released && x.leases[l].key.Some?
    ensures x.leases[l].key.value in x.routing && l in x.routing[x.leases[l].key.value]
  {
  }
}
