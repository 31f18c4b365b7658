/**
 * A recovery re-resolves every live reader: whenever an entry becomes available again, each lease it still serves has
 * been validated anew, from its reader's mapping to the trigger, on the connection that is now open.
 */
module ObservationRevalidation {
  import opened Options
  import opened ObservationGate
  import opened PostgreSQLObservationManager
  import opened Lifecycle = ObservationLifecycle
  import Promises = ObservationPromises
  import Routing = ObservationRouting

  /** A lease that is held and hears notifications. */
  predicate Due(x: Index, l: LeaseId) {
    l in x.leases && !x.leases[l].released && x.leases[l].key.Some?
  }

  predicate Revalidates(f: Life) {
    |f.recoveries| == 1 && f.recoveries[0].Revalidating?
  }

  /** Every lease that is due is being validated, waits for its turn, or has passed. */
  ghost predicate Covers(t: Tenant, passed: set<LeaseId>) {
    Revalidates(t.life) ==>
      forall l :: Due(t.index, l) ==> l == t.life.recoveries[0].lease || l in t.life.recoveries[0].todo || l in passed
  }

  /** An entry that becomes available leaves no lease behind. */
  ghost predicate Complete(t: Tenant, t': Tenant, passed: set<LeaseId>) {
    t'.life.available && !t.life.available ==> forall l :: Due(t'.index, l) ==> l in passed
  }

  ghost predicate Proceeds(t: Tenant, t': Tenant, passed: set<LeaseId>) {
    Covers(t', passed) && Complete(t, t', passed)
  }

  /** The recovery stays where it is, and no lease becomes due. */
  ghost predicate Leaves(t: Tenant, t': Tenant) {
    && t'.life.recoveries == t.life.recoveries && t'.life.available == t.life.available
    && t'.life.wasReady == t.life.wasReady
    && (forall l :: Due(t'.index, l) ==> Due(t.index, l))
  }

  lemma LeavesOn(t: Tenant, t1: Tenant, t2: Tenant)
    requires Leaves(t, t1) && Leaves(t1, t2)
    ensures Leaves(t, t2)
  {
  }

  // ---- what leaves a recovery alone -------------------------------------------------------------

  lemma EndsLeave(t: Tenant)
    requires Routing.Membership(t.index)
    ensures Leaves(t, Terminate(t)) && Leaves(t, Dispose(t)) && Leaves(t, Shutdown(t))
  {
    hide GiveUp, Settle;
  }

  lemma ReleaseLeaves(t: Tenant, l: LeaseId)
    requires Routing.Membership(t.index)
    ensures Leaves(t, Release(t, l)) && !Due(Release(t, l).index, l)
  {
    hide GiveUp, Settle, Unroute, Remove;
  }

  lemma LostLeaves(t: Tenant)
    requires t.life.wasReady && !t.life.available
    ensures Leaves(t, Lost(t)) && Lost(t).index == t.index
  {
    hide GiveUp;
  }

  lemma ReadyFailsLeaves(t: Tenant, l: LeaseId)
    requires Routing.Membership(t.index)
    ensures Leaves(t, ReadyFails(t, l))
  {
    ReleaseLeaves(t.(ready := t.ready - {l}), l);
    hide Release;
  }

  lemma ReadyTopLeaves(t: Tenant, l: LeaseId)
    requires Routing.Membership(t.index)
    ensures Leaves(t, ReadyTop(t, l))
  {
    ReadyFailsLeaves(t, l);
    hide ReadyFails;
  }

  lemma ReadyErrsLeaves(t: Tenant, l: LeaseId, generation: nat)
    requires Routing.Membership(t.index)
    ensures Leaves(t, ReadyErrs(t, l, generation))
  {
    ReadyFailsLeaves(t, l);
    ReadyTopLeaves(t, l);
    hide ReadyFails, ReadyTop;
  }

  /** While a recovery is in flight, no validation of a new lease completes. */
  lemma ReadyLeaves(t: Tenant, l: LeaseId, reply: Reply)
    requires Routing.Membership(t.index) && t.life.wasReady && !t.life.available
    ensures Leaves(t, ReadyStep(t, l, reply))
  {
    LostLeaves(t);
    ReadyFailsLeaves(t, l);
    ReadyTopLeaves(t, l);
    hide ReadyFails, ReadyTop, ReadyErrs, Lost, Validated;
    if l in t.ready && t.ready[l].Checking? {
      ReadyErrsLeaves(t, l, t.ready[l].generation);
      ReadyErrsLeaves(Lost(t), l, t.ready[l].generation);
      LeavesOn(t, Lost(t), ReadyErrs(Lost(t), l, t.ready[l].generation));
    }
  }

  // ---- the recovery itself ----------------------------------------------------------------------

  lemma {:induction false} RevalidateProceeds(t: Tenant, generation: nat, todo: seq<LeaseId>, passed: set<LeaseId>)
    requires |t.life.recoveries| == 1 && forall l :: Due(t.index, l) ==> l in todo || l in passed
    ensures Proceeds(t, Revalidate(t, 0, generation, todo), passed)
    decreases |todo|
  {
    if todo != [] && !Due(t.index, todo[0]) { RevalidateProceeds(t, generation, todo[1..], passed); }
    hide Restore, Keyed;
  }

  /** An attempt that fails leaves no revalidation behind, and makes nothing available. */
  lemma AttemptFailsProceeds(t: Tenant, passed: set<LeaseId>)
    requires |t.life.recoveries| == 1 && t.life.wasReady && !t.life.available
    ensures Proceeds(t, AttemptFails(t, 0), passed)
  {
    LostLeaves(t);
    hide Lost, Die, GiveUp, ReleaseAll;
  }

  lemma RejectLeaseProceeds(t: Tenant, r: Recovery, passed: set<LeaseId>)
    requires Routing.Membership(t.index) && t.life.recoveries == [r] && r.Revalidating? && !t.life.available
    requires Covers(t, passed)
    ensures Proceeds(t, RejectLease(t, 0, r), passed)
  {
    var failed := t.(log := t.log + [Signal(Fail, [r.lease])]);
    ReleaseLeaves(failed, r.lease);
    var t1 := if r.lease !in t.index.leases || t.index.leases[r.lease].released then t else Release(failed, r.lease);
    hide Release;
    RevalidateProceeds(t1, r.generation, r.todo, passed);
    hide Revalidate;
  }

  /** Who passes in a step: the lease whose trigger is found in order, last of its three checks. */
  function Passing(t: Tenant, e: Event): set<LeaseId> {
    if Revalidates(t.life) && t.life.recoveries[0].check.TriggerCheck? && e == RecoveryMoves(0, Ok)
       && Live(t.life, t.life.recoveries[0].ctl) then {t.life.recoveries[0].lease} else {}
  }

  lemma CheckPassesProceeds(t: Tenant, r: Recovery, reply: Reply, passed: set<LeaseId>)
    requires Routing.Membership(t.index) && t.life.recoveries == [r] && r.Revalidating? && !t.life.available
    requires Covers(t, passed)
    ensures Proceeds(t, CheckPasses(t, 0, r, reply), passed + if r.check.TriggerCheck? && reply.Ok? then {r.lease} else {})
  {
    RejectLeaseProceeds(t, r, passed);
    hide RejectLease, SameMapping;
    if r.check.TriggerCheck? && reply.Ok? {
      var x := if r.lease in t.index.leases && !t.index.leases[r.lease].released && !t.life.dead
               then t.index.(identities := t.index.identities[t.index.leases[r.lease].table := r.check.identity]) else t.index;
      RevalidateProceeds(t.(index := x), r.generation, r.todo, passed + {r.lease});
    }
    hide Revalidate;
  }

  lemma CheckFailsProceeds(t: Tenant, r: Recovery, definitive: bool, passed: set<LeaseId>)
    requires Routing.Membership(t.index) && t.life.recoveries == [r] && r.Revalidating? && t.life.wasReady && !t.life.available
    requires Covers(t, passed)
    ensures Proceeds(t, CheckFails(t, 0, r, definitive), passed)
  {
    AttemptFailsProceeds(t, passed);
    RejectLeaseProceeds(t, r, passed);
    LostLeaves(t);
    AttemptFailsProceeds(Lost(t), passed);
    hide AttemptFails, RejectLease, Lost;
  }

  lemma OpenLeaves(t: Tenant, stage: Stage, reply: Reply)
    requires Fits(t, stage, reply)
    ensures var t1 := OpenNext(t, stage, reply).0;
            t1.life.recoveries == t.life.recoveries && t1.life.available == t.life.available && t1.index == t.index && t1.life.wasReady == t.life.wasReady
  {
  }

  lemma ReopenNextProceeds(t: Tenant, stage: Stage, ctl: nat, reply: Reply)
    requires Routing.Membership(t.index) && |t.life.recoveries| == 1 && t.life.wasReady && !t.life.available && Fits(t, stage, reply)
    ensures Proceeds(t, ReopenNext(t, 0, stage, ctl, reply), {})
  {
    OpenLeaves(t, stage, reply);
    hide OpenNext, Fits;
    var t1 := OpenNext(t, stage, reply).0;
    RevalidateProceeds(t1, t1.life.generation, t1.index.members, {});
    AttemptFailsProceeds(t1, {});
    hide Revalidate, AttemptFails;
  }

  /** What has passed so far: nothing, unless a revalidation is under way. */
  function PassedNext(t: Tenant, e: Event, passed: set<LeaseId>): set<LeaseId> {
    if Revalidates(t.life) then passed + Passing(t, e) else {}
  }

  lemma RecoveryProceeds(t: Tenant, i: nat, reply: Reply, passed: set<LeaseId>)
    requires Routing.Membership(t.index) && |t.life.recoveries| == 1 && t.life.wasReady && !t.life.available && Covers(t, passed)
    ensures Proceeds(t, RecoveryStep(t, i, reply), PassedNext(t, RecoveryMoves(i, reply), passed))
  {
    var r := t.life.recoveries[0];
    hide AttemptFails, ReopenNext, CheckPasses, CheckFails, Fits, OpenBegins;
    match r
    case Backoff =>
    case Reopening(stage, ctl) =>
      AttemptFailsProceeds(t, {});
      if Fits(t, stage, reply) { ReopenNextProceeds(t, stage, ctl, reply); }
    case Revalidating(_, _, _, _, _) =>
      if reply.Failed? { CheckFailsProceeds(t, r, reply.definitive, passed); }
      CheckPassesProceeds(t, r, reply, passed);
  }

  // ---- every step -------------------------------------------------------------------------------

  lemma AcquireLeaves(t: Tenant, l: LeaseId, table: Table)
    ensures Leaves(t, Acquire(t, l, table))
  {
  }

  lemma NotifyLeaves(t: Tenant, generation: nat, key: Key)
    ensures Leaves(t, Notify(t, generation, key))
  {
    hide Reached;
  }

  /** While a recovery is in flight, nothing but the recovery moves it. */
  lemma OthersLeave(t: Tenant, e: Event)
    requires Inv(t) && !t.life.dead && t.life.wasReady && !t.life.available && !e.RecoveryMoves?
    ensures Leaves(t, Step(t, e))
  {
    assert Routing.Membership(t.index) && t.life.startup.Started?;
    hide Inv, Acquire, Release, ReadyStep, Lost, Dispose, Notify, Awaited, FactoryReturnsLate, CloseSettles;
    match e
    case Acquired(l, table) => AcquireLeaves(t, l, table);
    case Released(l) => ReleaseLeaves(t, l);
    case ReadyMoves(l, reply) => ReadyLeaves(t, l, reply);
    case Notified(generation, key) => NotifyLeaves(t, generation, key);
    case Disposed => EndsLeave(t);
    case _ => LostLeaves(t);
  }

  lemma LeavesProceeds(t: Tenant, t': Tenant, e: Event, passed: set<LeaseId>)
    requires Leaves(t, t') && Covers(t, passed) && Passing(t, e) == {}
    ensures Covers(t', PassedNext(t, e, passed)) && Complete(t, t', PassedNext(t, e, passed))
  {
  }

  /** One step of a live entry whose recovery is in flight. */
  lemma RecoveringProceeds(t: Tenant, e: Event, passed: set<LeaseId>)
    requires Inv(t) && !t.life.dead && t.life.wasReady && !t.life.available && Covers(t, passed)
    ensures Proceeds(t, Step(t, e), PassedNext(t, e, passed))
  {
    assert Routing.Membership(t.index) && |t.life.recoveries| == 1;
    if e.RecoveryMoves? {
      RecoveryProceeds(t, e.recovery, e.reply, passed);
      hide RecoveryStep;
    } else {
      OthersLeave(t, e);
      hide Step;
      LeavesProceeds(t, Step(t, e), e, passed);
    }
  }

  /** The life of an entry whose recovery is in flight. */
  predicate InRecovery(t: Tenant) {
    !t.life.dead && t.life.wasReady && !t.life.available
  }

  // ---- before and after a recovery --------------------------------------------------------------

  /** At most a new recovery has begun. */
  ghost predicate Begins(t: Tenant, t': Tenant) {
    t'.life.recoveries == t.life.recoveries || t'.life.recoveries == t.life.recoveries + [Backoff]
  }

  lemma EndsBegin(t: Tenant, l: LeaseId)
    ensures Begins(t, Terminate(t)) && Begins(t, Dispose(t)) && Begins(t, Shutdown(t)) && Begins(t, Release(t, l))
    ensures Terminate(t).life.recoveries == t.life.recoveries && Release(t, l).life.recoveries == t.life.recoveries
  {
    hide GiveUp, Settle, ReleaseAll, Drop;
  }

  lemma LostBegins(t: Tenant)
    ensures Begins(t, Lost(t))
  {
    hide GiveUp, Settle, ReleaseAll;
  }

  lemma ReadyBegins(t: Tenant, l: LeaseId, reply: Reply)
    ensures Begins(t, ReadyStep(t, l, reply))
  {
    LostBegins(t);
    ReadyEndsBegin(t, l);
    ReadyEndsBegin(Lost(t), l);
    hide Lost, ReadyFails, ReadyTop, ReadyErrs, Settle, Conflicts, Held, Stale;
    if l in t.ready && t.ready[l].Checking? {
      ReadyErrsBegins(t, l, t.ready[l].generation);
      ReadyErrsBegins(Lost(t), l, t.ready[l].generation);
    }
  }

  lemma ReadyEndsBegin(t: Tenant, l: LeaseId)
    ensures ReadyFails(t, l).life.recoveries == t.life.recoveries && ReadyTop(t, l).life.recoveries == t.life.recoveries
  {
    EndsBegin(t.(ready := t.ready - {l}), l);
    hide Release;
  }

  lemma ReadyErrsBegins(t: Tenant, l: LeaseId, generation: nat)
    ensures ReadyErrs(t, l, generation).life.recoveries == t.life.recoveries
  {
    ReadyEndsBegin(t, l);
    hide ReadyFails, ReadyTop;
  }

  lemma StartupBegins(t: Tenant, reply: Reply)
    ensures Begins(t, StartupStep(t, reply))
  {
    hide GiveUp, Settle, ReleaseAll, ScheduleClose, Hand;
  }

  lemma StepBegins(t: Tenant, e: Event)
    requires t.life.recoveries == []
    ensures Begins(t, Step(t, e))
  {
    LostBegins(t);
    hide Acquire, Release, StartupStep, ReadyStep, Lost, Dispose, Awaited, FactoryReturnsLate, CloseSettles;
    match e
    case Acquired(l, table) => AcquireLeaves(t, l, table);
    case Released(l) => EndsBegin(t, l);
    case StartupMoves(reply) => StartupBegins(t, reply);
    case ReadyMoves(l, reply) => ReadyBegins(t, l, reply);
    case Disposed => EndsBegin(t, 0);
    case _ =>
  }

  /** Outside a recovery none is in flight. */
  lemma NoneInFlight(t: Tenant)
    requires Inv(t) && !t.life.dead && !InRecovery(t)
    ensures t.life.recoveries == []
  {
    hide Base, Truthful;
  }

  // ---- runs -------------------------------------------------------------------------------------

  /** The leases that have passed in the revalidation under way, along a run. */
  function Passed(budget: nat, trace: seq<Event>): set<LeaseId> {
    if trace == [] then {} else
      var n := |trace| - 1;
      PassedNext(TenantRun(budget, trace[..n]), trace[n], Passed(budget, trace[..n]))
  }

  ghost predicate Vetting(t: Tenant, passed: set<LeaseId>) {
    t.life.dead || Covers(t, passed)
  }

  lemma DeadStays(t: Tenant, e: Event)
    requires Inv(t) && t.life.dead
    ensures Next(t, e).life.dead
  {
    LogIsHistory(t, []);
    if !e.BeatAnswered? {
      hide Inv, Step;
      Promises.StepMoves(t.(log := []), e);
    }
  }

  lemma StepVets(t: Tenant, e: Event, passed: set<LeaseId>)
    requires Inv(t) && Vetting(t, passed)
    ensures Vetting(TenantNext(t, e), PassedNext(t, e, passed))
    ensures InRecovery(t) ==> Complete(t, TenantNext(t, e), PassedNext(t, e, passed))
  {
    hide Inv, Step, Create;
    var s := t.(log := []);
    LogIsHistory(t, []);
    if t.life.dead {
      if e.Acquired? { CreatedVets(t, e.lease, e.table, PassedNext(t, e, passed)); } else { DeadStays(t, e); }
    } else if InRecovery(t) {
      RecoveringProceeds(s, e, passed);
    } else {
      NoneInFlight(t);
      StepBegins(s, e);
    }
  }

  lemma CreatedVets(t: Tenant, l: LeaseId, table: Table, passed: set<LeaseId>)
    ensures Covers(Create(t, l, table), passed)
  {
  }

  lemma {:induction false} RunVets(budget: nat, trace: seq<Event>)
    ensures Vetting(TenantRun(budget, trace), Passed(budget, trace))
  {
    if trace != [] {
      var n := |trace| - 1;
      RunVets(budget, trace[..n]);
      TenantRunKeeps(budget, trace[..n]);
      hide Inv, Vetting, TenantNext, PassedNext;
      StepVets(TenantRun(budget, trace[..n]), trace[n], Passed(budget, trace[..n]));
    }
  }

  /**
   * In every run, when a recovery makes an entry available again, every lease that is still held and hears notifications
   * has passed all its checks in the revalidation that just ended. Neither a new search path of its reader's pool nor a
   * replaced trigger can go unnoticed.
   */
  lemma EveryRecoveryRevalidatesEveryLease(budget: nat, trace: seq<Event>, e: Event, l: LeaseId)
    requires InRecovery(TenantRun(budget, trace))
    requires var t' := TenantNext(TenantRun(budget, trace), e); t'.life.available && Due(t'.index, l)
    ensures l in PassedNext(TenantRun(budget, trace), e, Passed(budget, trace))
  {
    RunVets(budget, trace);
    TenantRunKeeps(budget, trace);
    hide Inv, Vetting, TenantNext, PassedNext, Due;
    StepVets(TenantRun(budget, trace), e, Passed(budget, trace));
  }

  // ---- what passing means -----------------------------------------------------------------------

  /** What a recovery is checking for one lease. */
  predicate CheckIs(f: Life, l: LeaseId, check: Check) {
    Revalidates(f) && f.recoveries[0].lease == l && f.recoveries[0].check == check
  }

  /** A check moves on only with the answer it waits for; the reader must map to the table it mapped to before. */
  predicate MovesOn(f: Life, x: Index, f': Life, reply: Reply, l: LeaseId, identity: Identity) {
    && (CheckIs(f', l, ListenerCheck(identity)) && !CheckIs(f, l, ListenerCheck(identity)) ==>
          CheckIs(f, l, ReaderCheck) && reply == Mapping(identity) && SameMapping(x, l, identity))
    && (CheckIs(f', l, TriggerCheck(identity)) && !CheckIs(f, l, TriggerCheck(identity)) ==>
          CheckIs(f, l, ListenerCheck(identity)) && reply == Database(identity.database))
  }

  ghost predicate Advances(f: Life, x: Index, f': Life, reply: Reply) {
    forall l, identity :: MovesOn(f, x, f', reply, l, identity)
  }

  lemma StartedOverAdvances(f: Life, x: Index, t': Tenant, reply: Reply)
    requires StartsOver(t')
    ensures Advances(f, x, t'.life, reply)
  {
  }

  lemma SameAdvances(f: Life, x: Index, f': Life, reply: Reply)
    requires f'.recoveries == f.recoveries
    ensures Advances(f, x, f', reply)
  {
  }

  /** Nothing is checked any more, or the next lease is checked from the start. */
  ghost predicate StartsOver(t: Tenant) {
    Revalidates(t.life) ==> t.life.recoveries[0].check.ReaderCheck?
  }

  lemma {:induction false} RevalidateStartsOver(t: Tenant, generation: nat, todo: seq<LeaseId>)
    requires |t.life.recoveries| == 1
    ensures StartsOver(Revalidate(t, 0, generation, todo))
    decreases |todo|
  {
    if todo != [] { RevalidateStartsOver(t, generation, todo[1..]); }
    hide Restore, Keyed;
  }

  lemma AttemptFailsStartsOver(t: Tenant)
    requires |t.life.recoveries| == 1 && t.life.wasReady && !t.life.available
    ensures StartsOver(AttemptFails(t, 0))
  {
    LostLeaves(t);
    hide Lost, Die, GiveUp, ReleaseAll;
  }

  lemma RejectLeaseStartsOver(t: Tenant, r: Recovery)
    requires Routing.Membership(t.index) && t.life.recoveries == [r] && r.Revalidating?
    ensures StartsOver(RejectLease(t, 0, r))
  {
    var failed := t.(log := t.log + [Signal(Fail, [r.lease])]);
    ReleaseLeaves(failed, r.lease);
    var t1 := if r.lease !in t.index.leases || t.index.leases[r.lease].released then t else Release(failed, r.lease);
    hide Release;
    RevalidateStartsOver(t1, r.generation, r.todo);
    hide Revalidate;
  }

  lemma CheckPassesAdvances(t: Tenant, r: Recovery, reply: Reply)
    requires Routing.Membership(t.index) && t.life.recoveries == [r] && r.Revalidating?
    ensures Advances(t.life, t.index, CheckPasses(t, 0, r, reply).life, reply)
  {
    RejectLeaseStartsOver(t, r);
    var x := if r.check.TriggerCheck? && r.lease in t.index.leases && !t.index.leases[r.lease].released && !t.life.dead
             then t.index.(identities := t.index.identities[t.index.leases[r.lease].table := r.check.identity]) else t.index;
    RevalidateStartsOver(t.(index := x), r.generation, r.todo);
    hide RejectLease, Revalidate, SameMapping, StartsOver;
    StartedOverAdvances(t.life, t.index, RejectLease(t, 0, r), reply);
    StartedOverAdvances(t.life, t.index, Revalidate(t.(index := x), 0, r.generation, r.todo), reply);
    SameAdvances(t.life, t.index, t.life, reply);
    assert reply.Mapping? ==> reply == Mapping(reply.identity);
    assert reply.Database? ==> reply == Database(reply.database);
  }

  lemma CheckFailsStartsOver(t: Tenant, r: Recovery, definitive: bool)
    requires Routing.Membership(t.index) && t.life.recoveries == [r] && r.Revalidating? && t.life.wasReady && !t.life.available
    ensures StartsOver(CheckFails(t, 0, r, definitive))
  {
    AttemptFailsStartsOver(t);
    RejectLeaseStartsOver(t, r);
    LostLeaves(t);
    AttemptFailsStartsOver(Lost(t));
    hide AttemptFails, RejectLease, Lost;
  }

  lemma RecoveryAdvances(t: Tenant, i: nat, reply: Reply)
    requires Routing.Membership(t.index) && |t.life.recoveries| == 1 && t.life.wasReady && !t.life.available
    ensures Advances(t.life, t.index, RecoveryStep(t, i, reply).life, reply)
  {
    var r := t.life.recoveries[0];
    hide AttemptFails, ReopenNext, CheckPasses, CheckFails, Fits, Reopen, StartsOver, Advances;
    SameAdvances(t.life, t.index, t.life, reply);
    match r
    case Backoff =>
      ReopenStartsOver(t);
      StartedOverAdvances(t.life, t.index, Reopen(t, 0), reply);
    case Reopening(stage, ctl) =>
      AttemptFailsStartsOver(t);
      StartedOverAdvances(t.life, t.index, AttemptFails(t, 0), reply);
      if Fits(t, stage, reply) {
        ReopenNextStartsOver(t, stage, ctl, reply);
        StartedOverAdvances(t.life, t.index, ReopenNext(t, 0, stage, ctl, reply), reply);
      }
    case Revalidating(_, _, _, _, _) =>
      if reply.Failed? {
        CheckFailsStartsOver(t, r, reply.definitive);
        StartedOverAdvances(t.life, t.index, CheckFails(t, 0, r, reply.definitive), reply);
      }
      CheckPassesAdvances(t, r, reply);
  }

  lemma ReopenStartsOver(t: Tenant)
    requires |t.life.recoveries| == 1
    ensures StartsOver(Reopen(t, 0))
  {
  }

  lemma ReopenNextStartsOver(t: Tenant, stage: Stage, ctl: nat, reply: Reply)
    requires |t.life.recoveries| == 1 && t.life.wasReady && !t.life.available && Fits(t, stage, reply)
    ensures StartsOver(ReopenNext(t, 0, stage, ctl, reply))
  {
    OpenLeaves(t, stage, reply);
    hide OpenNext, Fits;
    var t1 := OpenNext(t, stage, reply).0;
    RevalidateStartsOver(t1, t1.life.generation, t1.index.members);
    AttemptFailsStartsOver(t1);
    hide Revalidate, AttemptFails;
  }

  /** The answer a step brings to the recovery, if it is one of the recovery's steps. */
  function ReplyOf(e: Event): Reply {
    if e.RecoveryMoves? then e.reply else Failed(false)
  }

  /**
   * In every run, the check that a recovery makes of a lease moves from the reader to the listener only when the reader
   * maps its table to the key and database it had before, and from the listener to the trigger only when the listener is
   * connected to that same database.
   */
  lemma ChecksAdvanceByTheirAnswers(budget: nat, trace: seq<Event>, e: Event)
    requires InRecovery(TenantRun(budget, trace))
    ensures var t := TenantRun(budget, trace); Advances(t.life, t.index, TenantNext(t, e).life, ReplyOf(e))
  {
    TenantRunKeeps(budget, trace);
    var t := TenantRun(budget, trace);
    var s := t.(log := []);
    assert Routing.Membership(t.index) && |t.life.recoveries| == 1;
    LogIsHistory(t, []);
    if e.RecoveryMoves? {
      RecoveryAdvances(s, e.recovery, e.reply);
    } else {
      OthersLeave(s, e);
      hide Step;
      SameAdvances(t.life, t.index, Step(s, e).life, ReplyOf(e));
    }
    hide Inv, RecoveryStep, Advances;
  }
}
