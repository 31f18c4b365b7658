/** An entry is an environment its sessions can rely on: what each of its steps means for one lease. */
module ObservationPromises {
  import opened Options
  import opened ObservationGate
  import opened PostgreSQLObservationManager
  import opened ObservationLifecycle
  import Routing = ObservationRouting

  /** The entry as one of its leases sees it. */
  function GateOf(t: Tenant, l: LeaseId): Gate {
    Gate(t.life.dead, t.life.wasReady, t.life.available, t.life.generation, t.life.promises,
         l in t.index.leases && t.index.leases[l].key.Some?,
         l !in t.index.leases || t.index.leases[l].released, t.life.losses, t.life.restored)
  }

  predicate Told(log: seq<Signal>, kind: Kind, l: LeaseId) {
    exists i :: 0 <= i < |log| && log[i].kind == kind && l in log[i].leases
  }

  // ---- two-state relations ----------------------------------------------------------------------

  /** Nothing is taken back, and a generation that stays live stays undisturbed. */
  ghost predicate Steady(f: Life, f': Life) {
    && (f.dead ==> f'.dead) && (f.wasReady ==> f'.wasReady)
    && f.generation <= f'.generation && f.losses <= f'.losses && f.restored <= f'.restored
    && |f.promises| <= |f'.promises|
    && (forall i :: 0 <= i < |f.promises| && !f.promises[i].Pending? ==> f'.promises[i] == f.promises[i])
    && (f.available && !f.dead && f'.generation == f.generation ==>
          f'.available && !f'.dead && f'.losses == f.losses && f'.restored == f.restored)
  }

  /** Recovery attempts an entry may still start before it has to give up. */
  function Left(f: Life): nat {
    if f.budget <= f.retries then 0 else f.budget - f.retries
  }

  /** Every attempt started is paid for; nothing but an answered heartbeat refills the budget. */
  ghost predicate Thrifty(f: Life, f': Life) {
    f'.budget == f.budget && f.attempts <= f'.attempts && f'.attempts + Left(f') <= f.attempts + Left(f)
  }

  ghost predicate KeysKept(x: Index, x': Index) {
    forall l :: l in x.leases ==>
      && l in x'.leases
      && (x.leases[l].key.Some? ==> x'.leases[l].key == x.leases[l].key)
      && (x.leases[l].released ==> x'.leases[l].released)
  }

  ghost predicate NoCatchUp(log: seq<Signal>) {
    forall i :: 0 <= i < |log| ==> !log[i].kind.CatchUp?
  }

  /** The callbacks that end an observation. */
  predicate TellsEnd(s: Signal, l: LeaseId) {
    (s.kind.Fail? || s.kind.Complete?) && l in s.leases
  }

  /** Whoever is told of its end is released with it, and is told once. */
  ghost predicate ToldOnce(log: seq<Signal>, x: Index) {
    && (forall i, l :: 0 <= i < |log| && TellsEnd(log[i], l) ==> l in x.leases && x.leases[l].released)
    && (forall i, j, l :: 0 <= i < j < |log| && TellsEnd(log[i], l) ==> !TellsEnd(log[j], l))
  }

  /** A lease that was already released hears nothing of an end. */
  ghost predicate Spared(log: seq<Signal>, log': seq<Signal>, x: Index) {
    forall i, l :: 0 <= i < |log'| && TellsEnd(log'[i], l) && l in x.leases && x.leases[l].released ==>
      exists j :: 0 <= j < |log| && TellsEnd(log[j], l)
  }

  /** A step that makes nothing available and asks nobody to catch up. */
  ghost predicate Quiet(t: Tenant, t': Tenant) {
    && Steady(t.life, t'.life) && t'.life.restored == t.life.restored && KeysKept(t.index, t'.index)
    && Thrifty(t.life, t'.life)
    && (NoCatchUp(t.log) ==> NoCatchUp(t'.log))
    && (ToldOnce(t.log, t.index) ==> ToldOnce(t'.log, t'.index))
    && Spared(t.log, t'.log, t.index)
  }

  lemma ToldOnceGrows(log: seq<Signal>, x: Index, x': Index)
    requires ToldOnce(log, x) && KeysKept(x, x')
    ensures ToldOnce(log, x')
  {
  }

  lemma SparedTwice(log: seq<Signal>, log1: seq<Signal>, log2: seq<Signal>, x: Index, x1: Index)
    requires Spared(log, log1, x) && Spared(log1, log2, x1) && KeysKept(x, x1)
    ensures Spared(log, log2, x)
  {
    forall i, l | 0 <= i < |log2| && TellsEnd(log2[i], l) && l in x.leases && x.leases[l].released
      ensures exists j :: 0 <= j < |log| && TellsEnd(log[j], l)
    {
      assert l in x1.leases && x1.leases[l].released;
      var j :| 0 <= j < |log1| && TellsEnd(log1[j], l);
    }
  }

  lemma QuietTwice(t: Tenant, t1: Tenant, t2: Tenant)
    requires Quiet(t, t1) && Quiet(t1, t2)
    ensures Quiet(t, t2)
  {
    SparedTwice(t.log, t1.log, t2.log, t.index, t1.index);
    hide Spared, ToldOnce, NoCatchUp;
  }

  lemma SparedItself(log: seq<Signal>, x: Index)
    ensures Spared(log, log, x)
  {
  }

  /** Nothing a lease can see has changed. */
  lemma QuietLife(t: Tenant, t': Tenant)
    requires t'.index == t.index && t'.log == t.log && Steady(t.life, t'.life) && t'.life.restored == t.life.restored
    requires Thrifty(t.life, t'.life)
    ensures Quiet(t, t')
  {
    SparedItself(t.log, t.index);
    hide Spared, ToldOnce, NoCatchUp, Steady;
  }

  lemma SteadyItself(f: Life)
    ensures Steady(f, f)
  {
  }

  lemma QuietIndex(t: Tenant, t': Tenant)
    requires t'.log == t.log && Steady(t.life, t'.life) && t'.life.restored == t.life.restored && KeysKept(t.index, t'.index)
    requires Thrifty(t.life, t'.life)
    ensures Quiet(t, t')
  {
    SparedItself(t.log, t.index);
    if ToldOnce(t.log, t.index) { ToldOnceGrows(t.log, t.index, t'.index); }
    hide Spared, ToldOnce, NoCatchUp, Steady, KeysKept;
  }

  // ---- the entry's quiet steps ------------------------------------------------------------------

  lemma DieSteady(f: Life)
    requires !f.dead
    ensures Steady(f, Die(f)) && Die(f).restored == f.restored
  {
  }

  /** Telling every held lease, and releasing it, tells nobody twice. */
  lemma EndAll(t: Tenant, kind: Kind)
    requires Routing.Valid(t.index) && (kind.Fail? || kind.Complete?)
    ensures var x, log := ReleaseAll(t.index), t.log + [Signal(kind, t.index.members)];
            && KeysKept(t.index, x) && Spared(t.log, log, t.index)
            && (ToldOnce(t.log, t.index) ==> ToldOnce(log, x))
            && (NoCatchUp(t.log) ==> NoCatchUp(log))
  {
    var x, log := ReleaseAll(t.index), t.log + [Signal(kind, t.index.members)];
    assert Routing.Membership(t.index);
    hide Routing.Valid, Routing.Membership;
    assert KeysKept(t.index, x);
    forall i, l | 0 <= i < |log| && TellsEnd(log[i], l) && l in t.index.leases && t.index.leases[l].released
      ensures exists j :: 0 <= j < |t.log| && TellsEnd(t.log[j], l)
    {
      MembersAreHeld(t.index, l);
      assert i < |t.log|;
      assert TellsEnd(t.log[i], l);
    }
    if ToldOnce(t.log, t.index) { EndAllOnce(t, kind); }
  }

  lemma MembersAreHeld(x: Index, l: LeaseId)
    requires Routing.Membership(x)
    ensures l in x.members <==> l in x.leases && !x.leases[l].released
  {
  }

  lemma EndAllOnce(t: Tenant, kind: Kind)
    requires Routing.Membership(t.index) && (kind.Fail? || kind.Complete?) && ToldOnce(t.log, t.index)
    ensures ToldOnce(t.log + [Signal(kind, t.index.members)], ReleaseAll(t.index))
  {
    var log := t.log + [Signal(kind, t.index.members)];
    forall i, j, l | 0 <= i < j < |log| && TellsEnd(log[i], l) ensures !TellsEnd(log[j], l) {
      assert log[i] == t.log[i];
    }
  }

  lemma TerminateQuiet(t: Tenant)
    requires Base(t)
    ensures Quiet(t, Terminate(t))
  {
    if t.life.dead {
      SteadyItself(t.life);
      QuietLife(t, t);
    } else {
      DieSteady(t.life);
      EndAll(t, Fail);
    }
    hide Base, Steady, KeysKept, Spared, ToldOnce, NoCatchUp, Die, ReleaseAll;
  }

  lemma DisposeQuiet(t: Tenant)
    requires Base(t)
    ensures Quiet(t, Dispose(t))
  {
    if t.life.dead {
      SteadyItself(t.life);
      QuietLife(t, t);
    } else {
      DieSteady(t.life);
      EndAll(t, Complete);
    }
    hide Base, Steady, KeysKept, Spared, ToldOnce, NoCatchUp, Die, ReleaseAll;
  }

  lemma ReleaseQuiet(t: Tenant, l: LeaseId)
    ensures Quiet(t, Release(t, l))
  {
    SteadyItself(t.life);
    if l in t.index.leases && !t.index.leases[l].released {
      DropKeys(t.index, l);
      if !t.life.dead { DieSteady(t.life); }
      DropReleases(t.index, l);
      hide Drop, Die, Steady;
      assert KeysKept(t.index, Release(t, l).index);
    }
    hide Drop, Die, Steady, KeysKept;
    QuietIndex(t, Release(t, l));
  }

  lemma DropReleases(x: Index, l: LeaseId)
    requires l in x.leases
    ensures forall o :: o in x.leases ==> o in Drop(x, l).leases && (x.leases[o].released ==> Drop(x, l).leases[o].released)
  {
  }

  lemma SteadyBook(f: Life, f': Life)
    requires Thrifty(f, f')
    requires f' == f.(retries := f'.retries, attempts := f'.attempts, recoveries := f'.recoveries, startup := f'.startup,
                      controller := f'.controller, aborted := f'.aborted)
    ensures Steady(f, f')
  {
  }

  lemma RetryQuiet(t: Tenant)
    requires Base(t) && !t.life.dead
    ensures Quiet(t, Retry(t).0)
  {
    var f := t.life.(retries := t.life.retries + 1);
    SteadyBook(t.life, t.life);
    SteadyBook(t.life, f);
    QuietLife(t, t);
    QuietLife(t, t.(life := f));
    if t.life.retries < t.life.budget {
      SteadyBook(t.life, f.(attempts := f.attempts + 1));
      QuietLife(t, t.(life := f.(attempts := f.attempts + 1)));
    }
    assert Truthful(f);
    LifeOnlyBase(t, f);
    TerminateQuiet(t.(life := f));
    hide Base, Quiet, Terminate;
    if t.life.budget <= t.life.retries { QuietTwice(t, t.(life := f), Terminate(t.(life := f))); }
  }

  lemma SpawnQuiet(t: Tenant)
    requires Base(t) && !t.life.dead
    ensures Quiet(t, Spawn(t))
  {
    RetryQuiet(t);
    hide Retry, Base;
    var (t1, recovery) := Retry(t);
    if recovery.Some? {
      SteadyBook(t1.life, t1.life.(recoveries := t1.life.recoveries + [recovery.value]));
      QuietLife(t1, Spawn(t));
      hide Quiet, Spawn;
      QuietTwice(t, t1, Spawn(t));
    }
  }

  lemma LoseSteady(f: Life)
    requires !f.dead
    ensures Steady(f, Lose(f)) && Lose(f).restored == f.restored
  {
  }

  lemma LostQuiet(t: Tenant)
    requires Base(t)
    ensures Quiet(t, Lost(t))
  {
    SteadyItself(t.life);
    QuietLife(t, t);
    TerminateQuiet(t);
    if !t.life.dead {
      LoseSteady(t.life);
      QuietLife(t, Fenced(t));
      FencedKeeps(t);
      SpawnQuiet(Fenced(t));
      hide Quiet, Base, Lose, Spawn, Terminate, GiveUp;
      if !t.life.aborted && t.life.wasReady && t.life.available { QuietTwice(t, Fenced(t), Spawn(Fenced(t))); }
    }
  }

  lemma BookQuiet(t: Tenant, recoveries: seq<Recovery>)
    ensures Quiet(t, t.(life := t.life.(recoveries := recoveries)))
  {
    var t' := t.(life := t.life.(recoveries := recoveries));
    SteadyBook(t.life, t'.life);
    QuietLife(t, t');
    hide Quiet;
  }

  lemma AttemptFailsQuiet(t: Tenant, i: nat)
    requires Inv(t) && i < |t.life.recoveries|
    ensures Quiet(t, AttemptFails(t, i))
  {
    if t.life.dead {
      BookQuiet(t, Without(t.life.recoveries, i));
    } else {
      LostQuiet(t);
      LostKeeps(t);
      SteadyItself(t.life);
      QuietLife(t, t);
      var t1 := if t.life.aborted then t else Lost(t);
      assert Base(t1) && !t1.life.dead;
      RetryQuiet(t1);
      var (t2, recovery) := Retry(t1);
      hide Inv, Base, Quiet, Lost, Retry;
      QuietTwice(t, t1, t2);
      if i < |t2.life.recoveries| {
        var rest := if recovery.None? then Without(t2.life.recoveries, i) else t2.life.recoveries[i := recovery.value];
        BookQuiet(t2, rest);
        QuietTwice(t, t2, t2.(life := t2.life.(recoveries := rest)));
      }
    }
  }

  lemma CallFactoryQuiet(t: Tenant)
    requires !t.life.available
    ensures Quiet(t, CallFactory(t).0)
  {
    assert Steady(t.life, t.life.(generation := t.life.generation + 1));
    QuietLife(t, CallFactory(t).0);
    hide Quiet;
  }

  lemma OpenBeginsQuiet(t: Tenant)
    requires !t.life.available
    ensures Quiet(t, OpenBegins(t).0)
  {
    SteadyItself(t.life);
    QuietLife(t, t);
    CallFactoryQuiet(t);
    hide Quiet, CallFactory;
  }

  lemma OpenNextQuiet(t: Tenant, stage: Stage, reply: Reply)
    requires !t.life.available && Fits(t, stage, reply)
    ensures Quiet(t, OpenNext(t, stage, reply).0)
  {
    SteadyItself(t.life);
    CallFactoryQuiet(t);
    if !stage.AwaitBarrier? || t.life.dead { QuietLife(t, OpenNext(t, stage, reply).0); }
    hide Quiet, CallFactory;
  }

  lemma StartupQuiet(t: Tenant, s: Startup)
    ensures Quiet(t, t.(life := t.life.(startup := s)))
  {
    var t' := t.(life := t.life.(startup := s));
    SteadyBook(t.life, t'.life);
    QuietLife(t, t');
    hide Quiet;
  }

  lemma StopsQuiet(t: Tenant)
    requires Base(t) && !t.life.startup.Started?
    ensures Quiet(t, Terminate(t.(life := t.life.(startup := StartFailed))))
  {
    var t1 := t.(life := t.life.(startup := StartFailed));
    StartupBase(t, StartFailed);
    StartupQuiet(t, StartFailed);
    TerminateQuiet(t1);
    hide Quiet, Base, Terminate;
    QuietTwice(t, t1, Terminate(t1));
  }

  lemma StartupStepQuiet(t: Tenant, reply: Reply)
    requires Inv(t)
    ensures Quiet(t, StartupStep(t, reply))
  {
    SteadyItself(t.life);
    QuietLife(t, t);
    if t.life.startup.Starting? {
      var stage, ctl := t.life.startup.stage, t.life.startup.ctl;
      if reply.Failed? {
        StopsQuiet(t);
      } else if Live(t.life, ctl) && Fits(t, stage, reply) {
        assert !t.life.dead && Beginning(t.life, t.net);
        OpenNextKeeps(t, stage, reply);
        OpenNextQuiet(t, stage, reply);
        var (t1, o) := OpenNext(t, stage, reply);
        assert Base(t1) && !t1.life.startup.Started?;
        StopsQuiet(t1);
        forall s { StartupQuiet(t1, s); }
        QuietTwice(t, t1, t1.(life := t1.life.(startup := Started)));
        if o.Onward? { QuietTwice(t, t1, t1.(life := t1.life.(startup := Starting(o.stage, ctl)))); }
        QuietTwice(t, t1, Terminate(t1.(life := t1.life.(startup := StartFailed))));
      }
    }
    hide Base, OpenNext, Fits, Terminate, Quiet;
  }

  lemma ReopenQuiet(t: Tenant, i: nat)
    requires Inv(t) && i < |t.life.recoveries|
    ensures Quiet(t, Reopen(t, i))
  {
    if t.life.dead {
      BookQuiet(t, Without(t.life.recoveries, i));
    } else {
      assert !t.life.available;
      hide Inv;
      var t1 := t.(life := t.life.(controller := t.life.controller + 1, aborted := false));
      SteadyBook(t.life, t1.life);
      QuietLife(t, t1);
      OpenBeginsQuiet(t1);
      var (t2, stage) := OpenBegins(t1);
      hide Quiet, OpenBegins;
      QuietTwice(t, t1, t2);
      if i < |t2.life.recoveries| {
        BookQuiet(t2, t2.life.recoveries[i := Reopening(stage, t2.life.controller)]);
        QuietTwice(t, t2, Becomes(t2, i, Reopening(stage, t2.life.controller)));
      }
    }
  }

  // ---- becoming available -----------------------------------------------------------------------

  /** What any step keeps, whether or not it makes the entry available. */
  ghost predicate Onwards(t: Tenant, t': Tenant) {
    && Steady(t.life, t'.life) && KeysKept(t.index, t'.index) && Thrifty(t.life, t'.life)
    && (ToldOnce(t.log, t.index) ==> ToldOnce(t'.log, t'.index))
    && Spared(t.log, t'.log, t.index)
  }

  /** A recovery that succeeds asks every validated lease that is still held to catch up. */
  ghost predicate Answers(t: Tenant, t': Tenant) {
    && Onwards(t, t') && (t.life.available && !t.life.dead ==> t'.life.generation != t.life.generation)
    && forall l :: l in t.index.leases && t.index.leases[l].key.Some? && l in t'.index.leases && !t'.index.leases[l].released ==>
         Told(t'.log, CatchUp, l)
  }

  /** The first readiness: no lease was validated before. */
  ghost predicate Begins(t: Tenant, t': Tenant) {
    Onwards(t, t') && !t.life.wasReady && (NoCatchUp(t.log) ==> NoCatchUp(t'.log))
  }

  ghost predicate Moves(t: Tenant, t': Tenant) {
    Quiet(t, t') || Answers(t, t') || Begins(t, t')
  }

  lemma QuietThenAnswers(t: Tenant, t1: Tenant, t2: Tenant)
    requires Quiet(t, t1) && Answers(t1, t2)
    ensures Answers(t, t2)
  {
    SparedTwice(t.log, t1.log, t2.log, t.index, t1.index);
    hide Spared, ToldOnce, NoCatchUp, Told;
  }

  lemma QuietThenMoves(t: Tenant, t1: Tenant, t2: Tenant)
    requires Quiet(t, t1) && (Quiet(t1, t2) || Answers(t1, t2))
    ensures Quiet(t, t2) || Answers(t, t2)
  {
    if Quiet(t1, t2) { QuietTwice(t, t1, t2); } else { QuietThenAnswers(t, t1, t2); }
    hide Quiet, Answers;
  }

  lemma RestoreSteady(f: Life)
    requires Truthful(f) && !f.dead && !f.available
    ensures Steady(f, Restore(f)) && Steady(f, Restore(f).(wasReady := true))
  {
  }

  lemma CatchUpIsNoEnd(log: seq<Signal>, s: Signal, x: Index)
    requires !s.kind.Fail? && !s.kind.Complete?
    ensures Spared(log, log + [s], x)
    ensures ToldOnce(log, x) ==> ToldOnce(log + [s], x)
  {
    forall i, l | 0 <= i < |log + [s]| && TellsEnd((log + [s])[i], l)
      ensures i < |log| && TellsEnd(log[i], l)
    {
    }
  }

  lemma RecoveredMoves(t: Tenant, i: nat, generation: nat)
    requires i < |t.life.recoveries| && ((t.life.dead && Inv(t)) || Reopened(t, generation))
    ensures Quiet(t, Recovered(t, i, generation)) || Answers(t, Recovered(t, i, generation))
  {
    hide Routing.Distinct, Routing.Routes, Routing.Filed, Routing.Needed, Readies, Rechecks;
    if t.life.dead {
      BookQuiet(t, Without(t.life.recoveries, i));
    } else {
      var asked := Signal(CatchUp, Keyed(t.index, t.index.members));
      var t' := Recovered(t, i, generation);
      RestoreSteady(t.life);
      SteadyBook(Restore(t.life), t'.life);
      CatchUpIsNoEnd(t.log, asked, t.index);
      assert Routing.Membership(t.index);
      hide Routing.Membership, Reopened, Steady, Spared, ToldOnce, Restore, Keyed;
      assert Steady(t.life, t'.life);
      assert t'.index == t.index && t'.log == t.log + [asked];
      hide Recovered;
      forall l | l in t.index.leases && t.index.leases[l].key.Some? && !t.index.leases[l].released
        ensures Told(t'.log, CatchUp, l)
      {
        MembersAreHeld(t.index, l);
        assert t'.log[|t.log|] == asked;
      }
    }
  }

  lemma {:induction false} RevalidateMoves(t: Tenant, i: nat, generation: nat, todo: seq<LeaseId>)
    requires i < |t.life.recoveries| && ((t.life.dead && Inv(t)) || Reopened(t, generation))
    ensures Quiet(t, Revalidate(t, i, generation, todo)) || Answers(t, Revalidate(t, i, generation, todo))
    decreases |todo|
  {
    hide Inv, Reopened, Quiet, Answers, Recovered;
    if todo == [] {
      RecoveredMoves(t, i, generation);
    } else if todo[0] !in t.index.leases || t.index.leases[todo[0]].released || t.index.leases[todo[0]].key.None? {
      RevalidateMoves(t, i, generation, todo[1..]);
    } else {
      var r := Revalidating(generation, todo[0], todo[1..], ReaderCheck, t.life.controller);
      BookQuiet(t, t.life.recoveries[i := r]);
    }
  }

  /** Failing one held lease tells it once. */
  lemma RejectQuiet(t: Tenant, l: LeaseId)
    requires l in t.index.leases && !t.index.leases[l].released
    ensures Quiet(t, Release(t.(log := t.log + [Signal(Fail, [l])]), l))
  {
    var log := t.log + [Signal(Fail, [l])];
    var logged := t.(log := log);
    var t' := Release(logged, l);
    ReleaseQuiet(logged, l);
    assert t'.log == log && KeysKept(t.index, t'.index) && Steady(t.life, t'.life) && t'.life.restored == t.life.restored;
    assert l in t'.index.leases && t'.index.leases[l].released by { DropMarks(t.index, l); }
    hide Release, Steady;
    assert NoCatchUp(t.log) ==> NoCatchUp(log);
    forall i, o | 0 <= i < |log| && TellsEnd(log[i], o) && o in t.index.leases && t.index.leases[o].released
      ensures exists j :: 0 <= j < |t.log| && TellsEnd(t.log[j], o)
    {
      assert o != l;
      assert i < |t.log| && TellsEnd(t.log[i], o);
    }
    if ToldOnce(t.log, t.index) {
      forall i, j, o | 0 <= i < j < |log| && TellsEnd(log[i], o) ensures !TellsEnd(log[j], o) {
        assert log[i] == t.log[i];
      }
    }
  }

  lemma DropMarks(x: Index, l: LeaseId)
    requires l in x.leases
    ensures l in Drop(x, l).leases && Drop(x, l).leases[l].released
  {
  }

  lemma RejectLeaseMoves(t: Tenant, i: nat, r: Recovery)
    requires i < |t.life.recoveries| && r.Revalidating? && Inv(t) && (t.life.dead || Reopened(t, r.generation))
    ensures Quiet(t, RejectLease(t, i, r)) || Answers(t, RejectLease(t, i, r))
  {
    var held := r.lease in t.index.leases && !t.index.leases[r.lease].released;
    var logged := t.(log := t.log + [Signal(Fail, [r.lease])]);
    LogIsHistory(t, logged.log);
    ReleaseKeeps(logged, r.lease);
    SteadyItself(t.life);
    QuietLife(t, t);
    var t1 := if held then Release(logged, r.lease) else t;
    if held { RejectQuiet(t, r.lease); }
    hide Base, Release, Revalidate, Quiet, Answers;
    RevalidateMoves(t1, i, r.generation, r.todo);
    QuietThenMoves(t, t1, Revalidate(t1, i, r.generation, r.todo));
  }

  lemma CheckPassesMoves(t: Tenant, i: nat, reply: Reply)
    requires Inv(t) && i < |t.life.recoveries| && t.life.recoveries[i].Revalidating?
    requires Live(t.life, t.life.recoveries[i].ctl)
    ensures Moves(t, CheckPasses(t, i, t.life.recoveries[i], reply))
  {
    var r := t.life.recoveries[i];
    assert !t.life.dead && Reopened(t, r.generation);
    SteadyItself(t.life);
    QuietLife(t, t);
    if r.check.TriggerCheck? {
      RefreshedMoves(t, i, r.check.identity);
    } else {
      RejectLeaseMoves(t, i, r);
      forall next ensures Quiet(t, Becomes(t, i, next)) { BookQuiet(t, t.life.recoveries[i := next]); }
    }
    hide Base, RejectLease, Revalidate, Quiet, Answers, Begins, SameMapping;
  }

  lemma RefreshedMoves(t: Tenant, i: nat, identity: Identity)
    requires i < |t.life.recoveries| && t.life.recoveries[i].Revalidating?
    requires t.life.recoveries[i].check == TriggerCheck(identity) && Reopened(t, t.life.recoveries[i].generation)
    ensures Quiet(t, CheckPasses(t, i, t.life.recoveries[i], Ok)) || Answers(t, CheckPasses(t, i, t.life.recoveries[i], Ok))
  {
    var r := t.life.recoveries[i];
    assert r.lease in t.index.leases && t.index.leases[r.lease].key == Some(identity.key);
    var x := if !t.index.leases[r.lease].released
             then t.index.(identities := t.index.identities[t.index.leases[r.lease].table := identity]) else t.index;
    if !t.index.leases[r.lease].released { Routing.RefreshKeeps(t.index, r.lease, identity); }
    assert Routing.Valid(x);
    hide Routing.Valid;
    IndexBase(t, x);
    SteadyItself(t.life);
    QuietIndex(t, t.(index := x));
    hide Base, Revalidate, Quiet, Answers;
    RevalidateMoves(t.(index := x), i, r.generation, r.todo);
    QuietThenMoves(t, t.(index := x), Revalidate(t.(index := x), i, r.generation, r.todo));
  }

  lemma CheckFailsMoves(t: Tenant, i: nat, definitive: bool)
    requires Inv(t) && i < |t.life.recoveries| && t.life.recoveries[i].Revalidating?
    ensures Moves(t, CheckFails(t, i, t.life.recoveries[i], definitive))
  {
    var r := t.life.recoveries[i];
    assert t.life.dead ==> t.life.aborted;
    assert Base(t);
    SteadyItself(t.life);
    QuietLife(t, t);
    hide Base, AttemptFails, RejectLease, Lost, Quiet, Answers, Begins;
    if t.life.aborted {
      AttemptFailsQuiet(t, i);
    } else if definitive && !r.check.ListenerCheck? {
      RejectLeaseMoves(t, i, r);
    } else if r.check.ReaderCheck? {
      AttemptFailsQuiet(t, i);
    } else {
      LostKeeps(t);
      LostQuiet(t);
      var t1 := if r.check.ListenerCheck? && r.generation != t.life.generation then t
                else if r.check.TriggerCheck? && (!t.life.wasReady || t.life.available) then t else Lost(t);
      if i < |t1.life.recoveries| {
        AttemptFailsQuiet(t1, i);
        QuietTwice(t, t1, AttemptFails(t1, i));
      }
    }
  }

  lemma ReopenNextMoves(t: Tenant, i: nat, stage: Stage, ctl: nat, reply: Reply)
    requires Inv(t) && i < |t.life.recoveries| && t.life.recoveries[i] == Reopening(stage, ctl)
    requires Live(t.life, ctl) && Fits(t, stage, reply)
    ensures Moves(t, ReopenNext(t, i, stage, ctl, reply))
  {
    assert !t.life.dead && Recovering(t.life, t.net) && i == 0;
    OpenNextKeeps(t, stage, reply);
    OpenNextQuiet(t, stage, reply);
    var (t1, o) := OpenNext(t, stage, reply);
    if o.Opened? { assert t1 == t && Reopened(t, t.life.generation); }
    hide Base, OpenNext, Fits, Revalidate, AttemptFails, Quiet, Answers, Begins;
    match o
    case Onward(next) =>
      BookQuiet(t1, t1.life.recoveries[i := Reopening(next, ctl)]);
      QuietTwice(t, t1, Becomes(t1, i, Reopening(next, ctl)));
    case Opened => RevalidateMoves(t, i, t.life.generation, t.index.members);
    case Stopped =>
      AttemptFailsQuiet(t1, i);
      QuietTwice(t, t1, AttemptFails(t1, i));
  }

  lemma RecoveryStepMoves(t: Tenant, i: nat, reply: Reply)
    requires Inv(t)
    ensures Moves(t, RecoveryStep(t, i, reply))
  {
    SteadyItself(t.life);
    QuietLife(t, t);
    hide Inv, Reopen, AttemptFails, ReopenNext, CheckFails, CheckPasses, Fits, Quiet, Answers, Begins;
    if i < |t.life.recoveries| {
      match t.life.recoveries[i]
      case Backoff => ReopenQuiet(t, i);
      case Reopening(stage, ctl) =>
        if reply.Failed? { AttemptFailsQuiet(t, i); }
        else if Live(t.life, ctl) && Fits(t, stage, reply) { ReopenNextMoves(t, i, stage, ctl, reply); }
      case Revalidating(_, _, _, _, ctl) =>
        if reply.Failed? { CheckFailsMoves(t, i, reply.definitive); }
        else if Live(t.life, ctl) { CheckPassesMoves(t, i, reply); }
    }
  }

  // ---- leases becoming ready --------------------------------------------------------------------

  lemma ReadyOnlyQuiet(t: Tenant, ready: map<LeaseId, Ready>)
    ensures Quiet(t, t.(ready := ready))
  {
    SteadyItself(t.life);
    QuietLife(t, t.(ready := ready));
    hide Quiet;
  }

  lemma ReadyFailsQuiet(t: Tenant, l: LeaseId)
    ensures Quiet(t, ReadyFails(t, l))
  {
    ReadyOnlyQuiet(t, t.ready - {l});
    ReleaseQuiet(t.(ready := t.ready - {l}), l);
    hide Quiet, Release;
    QuietTwice(t, t.(ready := t.ready - {l}), ReadyFails(t, l));
  }

  lemma ReadyTopQuiet(t: Tenant, l: LeaseId)
    ensures Quiet(t, ReadyTop(t, l))
  {
    hide Quiet, ReadyFails, Held;
    ReadyFailsQuiet(t, l);
    ReadyOnlyQuiet(t, t.ready[l := AwaitReadiness(Newest(t.life.promises))]);
    ReadyOnlyQuiet(t, t.ready[l := Checking(t.life.generation, ReaderCheck, t.life.controller)]);
  }

  lemma ReadyErrsQuiet(t: Tenant, l: LeaseId, generation: nat)
    ensures Quiet(t, ReadyErrs(t, l, generation))
  {
    hide Quiet, ReadyFails, ReadyTop, Held, Stale;
    ReadyFailsQuiet(t, l);
    ReadyTopQuiet(t, l);
  }

  lemma RouteKeys(x: Index, l: LeaseId, identity: Identity)
    requires l in x.leases && x.leases[l].key.None?
    ensures KeysKept(x, Route(x, l, identity))
  {
  }

  lemma ValidatedMoves(t: Tenant, l: LeaseId, identity: Identity)
    requires Inv(t) && l in t.ready && Held(t, l)
    ensures Moves(t, Validated(t, l, identity))
  {
    assert l in t.index.leases && t.index.leases[l].key.None?;
    RouteKeys(t.index, l, identity);
    SteadyItself(t.life);
    var t' := Validated(t, l, identity);
    if t.life.wasReady {
      QuietIndex(t, t');
    } else {
      assert Truthful(t.life) && !t.life.available;
      RestoreSteady(t.life);
      SparedItself(t.log, t.index);
      if ToldOnce(t.log, t.index) { ToldOnceGrows(t.log, t.index, t'.index); }
      hide Steady, Spared, ToldOnce, KeysKept, Route;
      assert Begins(t, t');
    }
    hide Quiet, Answers, Begins;
  }

  lemma ReadyPassesMoves(t: Tenant, l: LeaseId, reply: Reply)
    requires Inv(t) && l in t.ready && t.ready[l].Checking?
    ensures Moves(t, ReadyPasses(t, l, t.ready[l], reply))
  {
    var r := t.ready[l];
    SteadyItself(t.life);
    QuietLife(t, t);
    ReadyFailsQuiet(t, l);
    ReadyTopQuiet(t, l);
    ReadyErrsQuiet(t, l, r.generation);
    forall next ensures Quiet(t, Await(t, l, next)) { ReadyOnlyQuiet(t, t.ready[l := next]); }
    hide Inv, ReadyFails, ReadyTop, ReadyErrs, Validated, Conflicts, Quiet, Answers, Begins;
    if r.check.TriggerCheck? && Held(t, l) { ValidatedMoves(t, l, r.check.identity); }
  }

  lemma ReadyFailureQuiet(t: Tenant, l: LeaseId, generation: nat, lost: bool)
    requires Inv(t) && l in t.ready
    ensures Quiet(t, ReadyErrs(if lost then Lost(t) else t, l, generation))
  {
    SteadyItself(t.life);
    QuietLife(t, t);
    assert Base(t);
    LostQuiet(t);
    hide Inv, Base, ReadyErrs, Lost, Quiet;
    var t1 := if lost then Lost(t) else t;
    ReadyErrsQuiet(t1, l, generation);
    QuietTwice(t, t1, ReadyErrs(t1, l, generation));
  }

  lemma ReadyStepMoves(t: Tenant, l: LeaseId, reply: Reply)
    requires Inv(t)
    ensures Moves(t, ReadyStep(t, l, reply))
  {
    SteadyItself(t.life);
    QuietLife(t, t);
    if l in t.ready {
      ReadyFailsQuiet(t, l);
      ReadyTopQuiet(t, l);
      hide Inv, ReadyFails, ReadyTop, ReadyErrs, ReadyPasses, Lost, Quiet, Answers, Begins;
      match t.ready[l]
      case AwaitStartup =>
      case AwaitReadiness(i) =>
        ReadyOnlyQuiet(t, t.ready[l := Checking(t.life.generation, ReaderCheck, t.life.controller)]);
      case Checking(generation, check, ctl) =>
        if reply.Failed? {
          ReadyFailureQuiet(t, l, generation, check.TriggerCheck? && t.life.wasReady && !t.life.available && !reply.definitive);
        } else if Live(t.life, ctl) {
          ReadyPassesMoves(t, l, reply);
        }
    }
  }

  lemma AcquireQuiet(t: Tenant, l: LeaseId, table: Table)
    ensures Quiet(t, Acquire(t, l, table))
  {
    SteadyItself(t.life);
    QuietIndex(t, Acquire(t, l, table));
    hide Quiet;
  }

  lemma NotifyQuiet(t: Tenant, generation: nat, key: Key)
    ensures Quiet(t, Notify(t, generation, key))
  {
    SteadyItself(t.life);
    QuietLife(t, t);
    if !t.life.dead && generation == t.life.generation && key in t.index.routing {
      CatchUpIsNoEnd(t.log, Signal(Invalidate, Reached(t.index.members, t.index.routing[key])), t.index);
    }
    hide Spared, ToldOnce, Steady;
  }

  /** Every step but an answered heartbeat. */
  lemma StepMoves(t: Tenant, e: Event)
    requires Inv(t) && !e.BeatAnswered?
    ensures Moves(t, Step(t, e))
  {
    SteadyItself(t.life);
    QuietLife(t, t);
    assert Base(t);
    hide Inv, Base, Acquire, Release, StartupStep, RecoveryStep, ReadyStep, Lost, Dispose, FactoryReturnsLate, CloseSettles,
         Quiet, Answers, Begins, Notify, Awaited;
    match e
    case Acquired(l, table) => AcquireQuiet(t, l, table);
    case Released(l) => ReleaseQuiet(t, l);
    case StartupMoves(reply) => StartupStepQuiet(t, reply);
    case RecoveryMoves(i, reply) => RecoveryStepMoves(t, i, reply);
    case ReadyMoves(l, reply) => ReadyStepMoves(t, l, reply);
    case FactoryReturns(f, c, closable) => QuietLife(t, t.(net := FactoryReturnsLate(t.net, f, c, closable)));
    case SocketCloses(c) => QuietLife(t, t.(net := CloseSettles(t.net, c)));
    case Disconnected(_) => LostQuiet(t);
    case TimedOut(_) => LostQuiet(t);
    case BeatFailed(_) => LostQuiet(t);
    case Notified(generation, key) => NotifyQuiet(t, generation, key);
    case Disposed => DisposeQuiet(t);
  }

  // ---- what a session may rely on ---------------------------------------------------------------

  lemma GateIsValid(t: Tenant, l: LeaseId)
    requires Inv(t)
    ensures GateOf(t, l).Valid()
  {
  }

  /** A step's callbacks, and the gate after it, keep `Rely` for every lease the entry ever took. */
  lemma MovesAreReliable(t: Tenant, t': Tenant, l: LeaseId)
    requires Inv(t) && Inv(t') && Moves(t, t') && NoCatchUp(t.log) && l in t.index.leases
    ensures Rely(GateOf(t, l), GateOf(t', l), Told(t'.log, CatchUp, l))
  {
    GateIsValid(t', l);
    assert GateOf(t, l).keyed ==> t.life.wasReady;
    hide Inv, Spared, ToldOnce;
    if Quiet(t, t') || Begins(t, t') {
      assert NoCatchUp(t'.log);
      assert !Told(t'.log, CatchUp, l);
    }
  }

  lemma BeatIsReliable(t: Tenant, e: Event, l: LeaseId)
    requires Inv(t) && Inv(Next(t, e)) && e.BeatAnswered? && l in t.index.leases
    ensures Rely(GateOf(t, l), GateOf(Next(t, e), l), Told(Next(t, e).log, CatchUp, l))
  {
    GateIsValid(Next(t, e), l);
    assert GateOf(Next(t, e), l) == GateOf(t, l);
    hide Inv;
  }

  /**
   * The manager refines the gate: every step of a PostgreSQL entry, whatever its connections, timers and other leases
   * do, is a step a session may rely on.
   */
  lemma EntryIsReliable(t: Tenant, e: Event, l: LeaseId)
    requires Inv(t) && l in t.index.leases
    ensures Rely(GateOf(t, l), GateOf(Next(t, e), l), Told(Next(t, e).log, CatchUp, l))
  {
    NextKeeps(t, e);
    LogIsHistory(t, []);
    hide Inv, Step, Moves, Rely;
    if e.BeatAnswered? {
      BeatIsReliable(t, e, l);
    } else {
      StepMoves(t.(log := []), e);
      MovesAreReliable(t.(log := []), Next(t, e), l);
    }
  }

  lemma BeatSaysNothing(t: Tenant, e: Event)
    requires e.BeatAnswered?
    ensures Next(t, e).log == [] && Next(t, e).index == t.index
  {
  }

  lemma StepEndsOnce(t: Tenant, e: Event, l: LeaseId)
    requires Inv(t) && l in t.index.leases
    ensures var t' := Next(t, e);
            && l in t'.index.leases
            && (t.index.leases[l].released ==> t'.index.leases[l].released)
            && (forall i :: 0 <= i < |t'.log| && TellsEnd(t'.log[i], l) ==> !t.index.leases[l].released && t'.index.leases[l].released)
            && (forall i, j :: 0 <= i < j < |t'.log| && TellsEnd(t'.log[i], l) ==> !TellsEnd(t'.log[j], l))
  {
    LogIsHistory(t, []);
    hide Inv, Step;
    var t' := Next(t, e);
    if e.BeatAnswered? {
      BeatSaysNothing(t, e);
      return;
    }
    StepMoves(t.(log := []), e);
    assert ToldOnce(t'.log, t'.index) && Spared([], t'.log, t.index) && KeysKept(t.index, t'.index);
    hide Moves;
  }
}
