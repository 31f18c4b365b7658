/**
 * No lease is filed unvetted: whatever else an entry goes through, a lease has a routing key only after its reader, the
 * listener's database and the trigger have answered for it, in that order.
 */
module ObservationVetting {
  import opened Options
  import opened ObservationGate
  import opened PostgreSQLObservationManager
  import Lifecycle = ObservationLifecycle

  /** No validation begins or advances, and no lease gains or loses a key. */
  ghost predicate Bystands(t: Tenant, t': Tenant) {
    && (forall l :: l in t'.ready ==> l in t.ready && t'.ready[l] == t.ready[l])
    && (forall l :: l in t'.index.leases ==> l in t.index.leases && t'.index.leases[l].key == t.index.leases[l].key)
  }

  lemma BystandsOn(t: Tenant, t1: Tenant, t2: Tenant)
    requires Bystands(t, t1) && Bystands(t1, t2)
    ensures Bystands(t, t2)
  {
  }

  // ---- the end of an entry, of a lease, of a listener -------------------------------------------

  lemma TerminateBystands(t: Tenant)
    ensures Bystands(t, Terminate(t)) && Bystands(t, Dispose(t)) && Bystands(t, Shutdown(t))
  {
    hide Die, GiveUp;
  }

  lemma ReleaseBystands(t: Tenant, l: LeaseId)
    ensures Bystands(t, Release(t, l))
  {
    hide Die, GiveUp, Remove, Unroute;
  }

  lemma RetryBystands(t: Tenant)
    ensures Bystands(t, Retry(t).0)
  {
    TerminateBystands(t.(life := t.life.(retries := t.life.retries + 1)));
    hide Terminate;
  }

  lemma SpawnBystands(t: Tenant)
    ensures Bystands(t, Spawn(t))
  {
    RetryBystands(t);
    hide Retry;
  }

  lemma LostBystands(t: Tenant)
    ensures Bystands(t, Lost(t))
  {
    TerminateBystands(t);
    var t1 := t.(life := Lose(t.life), net := GiveUp(t.net).(connection := None));
    SpawnBystands(t1);
    hide Terminate, Spawn, Lose, GiveUp;
  }

  // ---- start and recover ------------------------------------------------------------------------

  lemma OpenBystands(t: Tenant, stage: Stage, reply: Reply)
    ensures Bystands(t, OpenBegins(t).0)
    ensures Fits(t, stage, reply) ==> Bystands(t, OpenNext(t, stage, reply).0)
    ensures Fits(t, stage, reply) ==> OpenNext(t, stage, reply).0.life.recoveries == t.life.recoveries
  {
    hide ScheduleClose, Hand;
  }

  lemma StartFailsBystands(t: Tenant, t1: Tenant)
    requires Bystands(t, t1)
    ensures Bystands(t, Terminate(t1.(life := t1.life.(startup := StartFailed))))
  {
    hide Terminate;
    var t2 := t1.(life := t1.life.(startup := StartFailed));
    TerminateBystands(t2);
    BystandsOn(t, t2, Terminate(t2));
  }

  lemma StartupBystands(t: Tenant, reply: Reply)
    ensures Bystands(t, StartupStep(t, reply))
  {
    hide Terminate, OpenNext, Fits;
    StartFailsBystands(t, t);
    if t.life.startup.Starting? && Fits(t, t.life.startup.stage, reply) {
      OpenBystands(t, t.life.startup.stage, reply);
      StartFailsBystands(t, OpenNext(t, t.life.startup.stage, reply).0);
    }
  }

  lemma AttemptFailsBystands(t: Tenant, i: nat)
    requires i < |t.life.recoveries|
    ensures Bystands(t, AttemptFails(t, i))
  {
    LostBystands(t);
    var t1 := if t.life.aborted then t else Lost(t);
    RetryBystands(t1);
    hide Lost, Retry, Without;
  }

  lemma RevalidateBystands(t: Tenant, i: nat, generation: nat, todo: seq<LeaseId>)
    requires i < |t.life.recoveries|
    ensures Bystands(t, Revalidate(t, i, generation, todo))
    decreases |todo|
  {
    if todo != [] && (todo[0] !in t.index.leases || t.index.leases[todo[0]].released || t.index.leases[todo[0]].key.None?) {
      RevalidateBystands(t, i, generation, todo[1..]);
    }
    hide Without, Restore, Keyed;
  }

  lemma RejectLeaseBystands(t: Tenant, i: nat, r: Recovery)
    requires i < |t.life.recoveries| && r.Revalidating?
    ensures Bystands(t, RejectLease(t, i, r))
  {
    var failed := t.(log := t.log + [Signal(Fail, [r.lease])]);
    ReleaseBystands(failed, r.lease);
    var t1 := if r.lease !in t.index.leases || t.index.leases[r.lease].released then t else Release(failed, r.lease);
    if i < |t1.life.recoveries| { RevalidateBystands(t1, i, r.generation, r.todo); }
    hide Release, Revalidate;
  }

  lemma CheckPassesBystands(t: Tenant, i: nat, r: Recovery, reply: Reply)
    requires i < |t.life.recoveries| && r.Revalidating?
    ensures Bystands(t, CheckPasses(t, i, r, reply))
  {
    RejectLeaseBystands(t, i, r);
    if r.check.TriggerCheck? {
      var x := if r.lease in t.index.leases && !t.index.leases[r.lease].released && !t.life.dead
               then t.index.(identities := t.index.identities[t.index.leases[r.lease].table := r.check.identity]) else t.index;
      RevalidateBystands(t.(index := x), i, r.generation, r.todo);
    }
    hide RejectLease, Revalidate, SameMapping;
  }

  lemma CheckFailsBystands(t: Tenant, i: nat, r: Recovery, definitive: bool)
    requires i < |t.life.recoveries| && r.Revalidating?
    ensures Bystands(t, CheckFails(t, i, r, definitive))
  {
    AttemptFailsBystands(t, i);
    RejectLeaseBystands(t, i, r);
    LostBystands(t);
    if i < |Lost(t).life.recoveries| { AttemptFailsBystands(Lost(t), i); }
    hide AttemptFails, RejectLease, Lost;
  }

  lemma ReopenBystands(t: Tenant, i: nat)
    requires i < |t.life.recoveries|
    ensures Bystands(t, Reopen(t, i))
  {
    hide OpenBegins, Without;
    OpenBystands(t.(life := t.life.(controller := t.life.controller + 1, aborted := false)), AwaitBarrier(0), Ok);
  }

  lemma ReopenNextBystands(t: Tenant, i: nat, stage: Stage, ctl: nat, reply: Reply)
    requires i < |t.life.recoveries| && Fits(t, stage, reply)
    ensures Bystands(t, ReopenNext(t, i, stage, ctl, reply))
  {
    OpenBystands(t, stage, reply);
    hide OpenNext, Revalidate, AttemptFails, Fits;
    var t1 := OpenNext(t, stage, reply).0;
    RevalidateBystands(t1, i, t1.life.generation, t1.index.members);
    AttemptFailsBystands(t1, i);
  }

  lemma RecoveryBystands(t: Tenant, i: nat, reply: Reply)
    ensures Bystands(t, RecoveryStep(t, i, reply))
  {
    if i < |t.life.recoveries| {
      var r := t.life.recoveries[i];
      match r
      case Backoff => ReopenBystands(t, i);
      case Reopening(stage, ctl) =>
        AttemptFailsBystands(t, i);
        if Fits(t, stage, reply) { ReopenNextBystands(t, i, stage, ctl, reply); }
      case Revalidating(_, _, _, _, _) =>
        if reply.Failed? { CheckFailsBystands(t, i, r, reply.definitive); }
        CheckPassesBystands(t, i, r, reply);
    }
    hide Reopen, ReopenNext, AttemptFails, CheckFails, CheckPasses, Fits, Bystands;
  }

  // ---- a lease becomes ready --------------------------------------------------------------------

  /** What may happen to one lease's validation in a step of its own. */
  ghost predicate Vets(t: Tenant, t': Tenant, l: LeaseId, reply: Reply) {
    && (forall k :: k in t'.ready && k != l ==> k in t.ready && t'.ready[k] == t.ready[k])
    && (forall k :: k in t'.index.leases && k != l ==> k in t.index.leases && t'.index.leases[k].key == t.index.leases[k].key)
    && (l in t'.ready && t'.ready[l].Checking? ==> Advances(t, t'.ready[l].check, l, reply))
    && (l in t'.index.leases ==>
          l in t.index.leases && (t'.index.leases[l].key == t.index.leases[l].key || Files(t, t'.index.leases[l].key, l, reply)))
  }

  predicate CheckIs(t: Tenant, l: LeaseId, check: Check) {
    l in t.ready && t.ready[l].Checking? && t.ready[l].check == check
  }

  /** A validation moves on only with the answer it waits for. */
  predicate Advances(t: Tenant, check: Check, l: LeaseId, reply: Reply) {
    match check
    case ReaderCheck => true
    case ListenerCheck(identity) => CheckIs(t, l, check) || (CheckIs(t, l, ReaderCheck) && reply == Mapping(identity))
    case TriggerCheck(identity) => CheckIs(t, l, check) || (CheckIs(t, l, ListenerCheck(identity)) && reply == Database(identity.database))
  }

  /** A lease is filed under the key of the table whose trigger was found in order. */
  ghost predicate Files(t: Tenant, key: Option<Key>, l: LeaseId, reply: Reply) {
    exists identity: Identity :: CheckIs(t, l, TriggerCheck(identity)) && reply.Ok? && key == Some(identity.key)
  }

  lemma BystandsVets(t: Tenant, t': Tenant, l: LeaseId, reply: Reply)
    requires Bystands(t, t')
    ensures Vets(t, t', l, reply)
  {
  }

  lemma ReadyFailsBystands(t: Tenant, l: LeaseId)
    ensures Bystands(t, ReadyFails(t, l))
  {
    ReleaseBystands(t.(ready := t.ready - {l}), l);
    hide Release;
  }

  /** The head of the loop starts over: no check is passed. */
  lemma ReadyTopVets(t: Tenant, l: LeaseId, reply: Reply)
    ensures Vets(t, ReadyTop(t, l), l, reply)
  {
    ReadyFailsBystands(t, l);
    hide ReadyFails;
  }

  lemma ReadyErrsVets(t: Tenant, t1: Tenant, l: LeaseId, generation: nat, reply: Reply)
    requires Bystands(t, t1)
    ensures Vets(t, ReadyErrs(t1, l, generation), l, reply)
  {
    ReadyFailsBystands(t1, l);
    ReadyTopVets(t1, l, Failed(false));
    hide ReadyFails, ReadyTop;
  }

  lemma AwaitVets(t: Tenant, l: LeaseId, r: Ready, reply: Reply)
    requires r.Checking? ==> Advances(t, r.check, l, reply)
    ensures Vets(t, Await(t, l, r), l, reply)
  {
  }

  lemma ValidatedVets(t: Tenant, l: LeaseId, identity: Identity)
    requires l in t.index.leases && CheckIs(t, l, TriggerCheck(identity))
    ensures Vets(t, Validated(t, l, identity), l, Ok)
  {
    assert Files(t, Some(identity.key), l, Ok);
    hide Restore;
  }

  lemma ReadyPassesVets(t: Tenant, l: LeaseId, reply: Reply)
    requires l in t.ready && t.ready[l].Checking?
    ensures Vets(t, ReadyPasses(t, l, t.ready[l], reply), l, reply)
  {
    var r := t.ready[l];
    assert CheckIs(t, l, r.check);
    ReadyFailsBystands(t, l);
    BystandsVets(t, ReadyFails(t, l), l, reply);
    BystandsVets(t, t, l, reply);
    ReadyTopVets(t, l, reply);
    ReadyErrsVets(t, t, l, r.generation, reply);
    hide ReadyFails, ReadyTop, ReadyErrs, Validated, Conflicts, Await, Vets, CheckIs, Bystands;
    match r.check
    case ReaderCheck =>
      if reply.Mapping? { AwaitVets(t, l, r.(check := ListenerCheck(reply.identity), ctl := t.life.controller), reply); }
    case ListenerCheck(identity) =>
      if reply.Database? && reply.database == identity.database {
        AwaitVets(t, l, r.(check := TriggerCheck(identity), ctl := t.life.controller), reply);
      }
    case TriggerCheck(identity) => if l in t.index.leases { ValidatedVets(t, l, identity); }
  }

  lemma ReadyVets(t: Tenant, l: LeaseId, reply: Reply)
    ensures Vets(t, ReadyStep(t, l, reply), l, reply)
  {
    hide ReadyFails, ReadyTop, ReadyErrs, ReadyPasses, Lost, Vets, Await, Held, Live;
    BystandsVets(t, t, l, reply);
    if l in t.ready {
      match t.ready[l]
      case Checking(generation, check, ctl) =>
        LostBystands(t);
        ReadyErrsVets(t, t, l, generation, reply);
        ReadyErrsVets(t, Lost(t), l, generation, reply);
        ReadyPassesVets(t, l, reply);
      case _ =>
        ReadyFailsBystands(t, l);
        BystandsVets(t, ReadyFails(t, l), l, reply);
        ReadyTopVets(t, l, reply);
        AwaitVets(t, l, Checking(t.life.generation, ReaderCheck, t.life.controller), reply);
    }
  }

  // ---- every step -------------------------------------------------------------------------------

  /** Who vets in a step, and with which answer; a lease that is just acquired has neither a check nor a key. */
  function ReplyTo(e: Event, l: LeaseId): Reply {
    if e.ReadyMoves? && e.lease == l then e.reply else Failed(false)
  }

  lemma AcquireVets(t: Tenant, l: LeaseId, table: Table, k: LeaseId, reply: Reply)
    ensures var t' := Acquire(t, l, table); VetsOne(t, t', k, reply)
    ensures var t' := Create(t, l, table); VetsOne(t, t', k, reply)
  {
    OpenBystands(Newborn(t, l, table), AwaitBarrier(0), Ok);
    hide OpenBegins;
  }

  /** One lease, in any step: its check and its key change only with the answers it waits for, or begin anew. */
  ghost predicate VetsOne(t: Tenant, t': Tenant, l: LeaseId, reply: Reply) {
    && (l in t'.ready && t'.ready[l].Checking? ==> Advances(t, t'.ready[l].check, l, reply))
    && (l in t'.index.leases && t'.index.leases[l].key.Some? ==>
          (l in t.index.leases && t'.index.leases[l].key == t.index.leases[l].key) || Files(t, t'.index.leases[l].key, l, reply))
  }

  lemma BystandsOne(t: Tenant, t': Tenant, l: LeaseId, reply: Reply)
    requires Bystands(t, t')
    ensures VetsOne(t, t', l, reply)
  {
  }

  lemma VetsIsOne(t: Tenant, t': Tenant, l: LeaseId, reply: Reply, k: LeaseId)
    requires Vets(t, t', l, reply)
    ensures VetsOne(t, t', k, if k == l then reply else Failed(false))
  {
  }

  /** The log of the step before says nothing about checks and keys. */
  lemma LogApart(t: Tenant, t': Tenant, l: LeaseId, reply: Reply)
    requires VetsOne(t.(log := []), t', l, reply)
    ensures VetsOne(t, t', l, reply)
  {
    var s := t.(log := []);
    if l in t'.index.leases && t'.index.leases[l].key.Some? && Files(s, t'.index.leases[l].key, l, reply) {
      var identity :| CheckIs(s, l, TriggerCheck(identity)) && t'.index.leases[l].key == Some(identity.key);
      assert CheckIs(t, l, TriggerCheck(identity));
    }
  }

  lemma StepVets(t: Tenant, e: Event, l: LeaseId)
    ensures VetsOne(t, Lifecycle.TenantNext(t, e), l, ReplyTo(e, l))
  {
    var t' := Lifecycle.TenantNext(t, e);
    if e.Acquired? && t.life.dead {
      AcquireVets(t, e.lease, e.table, l, ReplyTo(e, l));
    } else {
      NextVets(t.(log := []), e, l);
      LogApart(t, t', l, ReplyTo(e, l));
    }
    hide VetsOne, Acquire, Create, Step;
  }

  lemma NextVets(t: Tenant, e: Event, l: LeaseId)
    ensures VetsOne(t, Step(t, e), l, ReplyTo(e, l))
  {
    hide VetsOne, Vets, Acquire, Release, StartupStep, RecoveryStep, ReadyStep, Lost, Dispose, Awaited;
    match e
    case Acquired(k, table) => AcquireVets(t, k, table, l, ReplyTo(e, l));
    case ReadyMoves(k, reply) =>
      ReadyVets(t, k, reply);
      VetsIsOne(t, ReadyStep(t, k, reply), k, reply, l);
    case _ =>
      OthersBystand(t, e);
      BystandsOne(t, Step(t, e), l, ReplyTo(e, l));
  }

  lemma OthersBystand(t: Tenant, e: Event)
    requires !e.Acquired? && !e.ReadyMoves?
    ensures Bystands(t, Step(t, e))
  {
    hide Release, StartupStep, RecoveryStep, Lost, Dispose, Awaited, FactoryReturnsLate, CloseSettles;
    match e
    case Released(k) => ReleaseBystands(t, k);
    case StartupMoves(reply) => StartupBystands(t, reply);
    case RecoveryMoves(i, reply) => RecoveryBystands(t, i, reply);
    case Disposed => TerminateBystands(t);
    case _ => LostBystands(t);
  }

  // ---- the history of a key ---------------------------------------------------------------------

  /** The answers a lease was given, in order, up to one check. */
  ghost predicate Answered(trace: seq<Event>, l: LeaseId, check: Check) {
    match check
    case ReaderCheck => true
    case ListenerCheck(identity) => exists i :: 0 <= i < |trace| && trace[i] == ReadyMoves(l, Mapping(identity))
    case TriggerCheck(identity) =>
      exists i, j :: 0 <= i < j < |trace| && trace[i] == ReadyMoves(l, Mapping(identity)) && trace[j] == ReadyMoves(l, Database(identity.database))
  }

  /** The three answers that make a key. */
  ghost predicate Vetted(trace: seq<Event>, l: LeaseId, key: Key) {
    exists n, identity: Identity :: 0 <= n < |trace| && trace[n] == ReadyMoves(l, Ok) && identity.key == key
                          && Answered(trace[..n], l, TriggerCheck(identity))
  }

  lemma AnsweredGrows(trace: seq<Event>, e: Event, l: LeaseId, check: Check)
    requires Answered(trace, l, check)
    ensures Answered(trace + [e], l, check)
  {
    match check
    case ReaderCheck =>
    case ListenerCheck(identity) =>
      var i :| 0 <= i < |trace| && trace[i] == ReadyMoves(l, Mapping(identity));
      assert (trace + [e])[i] == trace[i];
    case TriggerCheck(identity) =>
      var i, j :| 0 <= i < j < |trace| && trace[i] == ReadyMoves(l, Mapping(identity)) && trace[j] == ReadyMoves(l, Database(identity.database));
      assert (trace + [e])[i] == trace[i] && (trace + [e])[j] == trace[j];
  }

  lemma AnsweredNext(trace: seq<Event>, e: Event, l: LeaseId, t: Tenant, check: Check)
    requires forall c :: CheckIs(t, l, c) ==> Answered(trace, l, c)
    requires Advances(t, check, l, ReplyTo(e, l))
    ensures Answered(trace + [e], l, check)
  {
    if CheckIs(t, l, check) {
      AnsweredGrows(trace, e, l, check);
    } else {
      match check
      case ReaderCheck =>
      case ListenerCheck(identity) => assert (trace + [e])[|trace|] == ReadyMoves(l, Mapping(identity));
      case TriggerCheck(identity) =>
        var i :| 0 <= i < |trace| && trace[i] == ReadyMoves(l, Mapping(identity));
        assert (trace + [e])[i] == trace[i] && (trace + [e])[|trace|] == ReadyMoves(l, Database(identity.database));
    }
  }

  lemma VettedGrows(trace: seq<Event>, e: Event, l: LeaseId, key: Key)
    requires Vetted(trace, l, key)
    ensures Vetted(trace + [e], l, key)
  {
    var n, identity: Identity :| 0 <= n < |trace| && trace[n] == ReadyMoves(l, Ok) && identity.key == key
                       && Answered(trace[..n], l, TriggerCheck(identity));
    assert (trace + [e])[n] == trace[n] && (trace + [e])[..n] == trace[..n];
  }

  lemma VettedNext(trace: seq<Event>, e: Event, l: LeaseId, t: Tenant, key: Key)
    requires forall c :: CheckIs(t, l, c) ==> Answered(trace, l, c)
    requires Files(t, Some(key), l, ReplyTo(e, l))
    ensures Vetted(trace + [e], l, key)
  {
    var identity :| CheckIs(t, l, TriggerCheck(identity)) && ReplyTo(e, l).Ok? && key == identity.key;
    assert (trace + [e])[|trace|] == ReadyMoves(l, Ok) && (trace + [e])[..|trace|] == trace;
    assert Answered(trace, l, TriggerCheck(identity));
  }

  lemma {:induction false} ChecksAreAnswered(budget: nat, trace: seq<Event>, l: LeaseId)
    ensures var t := Lifecycle.TenantRun(budget, trace);
            && (forall c :: CheckIs(t, l, c) ==> Answered(trace, l, c))
            && (l in t.index.leases && t.index.leases[l].key.Some? ==> Vetted(trace, l, t.index.leases[l].key.value))
  {
    if trace != [] {
      var n := |trace| - 1;
      var before, e := trace[..n], trace[n];
      assert trace == before + [e];
      ChecksAreAnswered(budget, before, l);
      var t, t' := Lifecycle.TenantRun(budget, before), Lifecycle.TenantRun(budget, trace);
      StepVets(t, e, l);
      hide Lifecycle.TenantNext, Answered, Vetted, Files, Advances;
      if l in t'.ready && t'.ready[l].Checking? { AnsweredNext(before, e, l, t, t'.ready[l].check); }
      if l in t'.index.leases && t'.index.leases[l].key.Some? {
        var key := t'.index.leases[l].key.value;
        if l in t.index.leases && t.index.leases[l].key == Some(key) { VettedGrows(before, e, l, key); }
        else { VettedNext(before, e, l, t, key); }
      }
    }
  }

  /**
   * In every run of a tenant, through losses, recoveries and new entries: a lease that has a key, and so hears
   * notifications, was mapped by its reader to a table with that key, then found the listener on that table's database,
   * and then had the table's trigger found in order.
   */
  lemma NoLeaseIsFiledUnvetted(budget: nat, trace: seq<Event>, l: LeaseId)
    requires var t := Lifecycle.TenantRun(budget, trace); l in t.index.leases && t.index.leases[l].key.Some?
    ensures Vetted(trace, l, Lifecycle.TenantRun(budget, trace).index.leases[l].key.value)
  {
    ChecksAreAnswered(budget, trace, l);
  }
}
