/**
 * What every event an entry can meet does, said of the event and of what a caller can see: which losses count, who is
 * taken in and let go, which sockets close. Together with the phases they leave no event that could be ignored.
 */
module ObservationEvents {
  import opened Options
  import opened ObservationGate
  import opened PostgreSQLObservationManager
  import opened ObservationLifecycle
  import opened ObservationOutcomes
  import opened ObservationPromises
  import opened ObservationRecovery
  import Routing = ObservationRouting
  import Sockets = ObservationSockets

  // ---- losing the listener ----------------------------------------------------------------------

  /**
   * The event is bad news about the connection this entry has now: it dropped, an operation on it timed out, or its
   * heartbeat failed. What is heard of an earlier connection, or after its controller was aborted, is old news.
   */
  predicate LosesListener(t: Tenant, e: Event) {
    && !t.life.dead && !t.life.aborted
    && match e
       case Disconnected(generation) => generation == t.life.generation
       case TimedOut(ctl) => ctl == t.life.controller
       case BeatFailed(generation) => generation in t.life.beats && generation == t.life.generation
       case _ => false
  }

  /** The generation moved on, nothing may be read, every operation is aborted, and the connection is closing. */
  ghost predicate Severed(t: Tenant, t': Tenant) {
    && t.life.losses < t'.life.losses && t.life.generation < t'.life.generation
    && t'.life.aborted && !(t'.life.available && !t'.life.dead)
    && (t.net.connection.Some? ==>
          var c := t.net.connection.value;
          c in t'.net.sockets && t'.net.sockets[c].closes == 1 && !t'.net.sockets[c].settled && t'.net.barrier == Some(c)
          && (t'.life.dead || t'.net.connection.None?))
  }

  /**
   * Bad news is a loss. An entry that was never ready ends and tells its leases. A working one makes its readers wait and
   * starts one recovery, or ends when no delay is left. A recovering one loses its attempt's connection and goes on.
   */
  lemma BadNewsIsALoss(t: Tenant, e: Event)
    requires Inv(t) && LosesListener(t, e)
    ensures var t' := Next(t, e);
            && Severed(t, t')
            && (t'.life.dead <==> !t.life.wasReady || (t.life.available && t.life.budget <= t.life.retries))
            && (t'.life.dead ==> t'.index.members == [] && t'.log == [Signal(Fail, t.index.members)])
            && (!t'.life.dead ==> Recovering(t'.life, t'.net) && t'.index == t.index && t'.log == [])
            && (!t'.life.dead && t.life.available ==>
                  t'.life.recoveries == [Backoff] && t'.life.retries == t.life.retries + 1
                  && t'.life.promises == t.life.promises + [Pending])
            && (!t'.life.dead && !t.life.available ==>
                  t'.life.recoveries == t.life.recoveries && t'.life.promises == t.life.promises)
  {
    LogIsHistory(t, []);
    var s := t.(log := []);
    assert Next(t, e) == Lost(s);
    LostKeeps(s);
    LostSevers(s);
    hide Truthful, Routing.Valid, Sockets.Valid, Readies, Rechecks, Lost, Severed;
  }

  lemma LostSevers(t: Tenant)
    requires Inv(t) && !t.life.dead && !t.life.aborted
    ensures var t' := Lost(t);
            && Severed(t, t')
            && (t'.life.dead <==> !t.life.wasReady || (t.life.available && t.life.budget <= t.life.retries))
            && (t'.life.dead ==> t'.index.members == [] && t'.log == t.log + [Signal(Fail, t.index.members)])
            && (!t'.life.dead ==> t'.index == t.index && t'.log == t.log && !t'.life.available && t'.life.wasReady)
            && (!t'.life.dead && t.life.available ==>
                  t'.life.recoveries == [Backoff] && t'.life.retries == t.life.retries + 1
                  && t'.life.promises == t.life.promises + [Pending])
            && (!t'.life.dead && !t.life.available ==>
                  t'.life.recoveries == t.life.recoveries && t'.life.promises == t.life.promises)
  {
    assert Sockets.Owned(t.net, true);
    hide Truthful, Routing.Valid, Sockets.Valid, Readies, Rechecks, Drop;
  }

  /** Old news changes nothing. */
  lemma OldNewsIsIgnored(t: Tenant, e: Event)
    requires Inv(t) && (e.Disconnected? || e.TimedOut? || e.BeatFailed?) && !LosesListener(t, e)
    ensures Next(t, e) == t.(log := [])
  {
    assert Truthful(t.life);
    hide Routing.Valid, Sockets.Valid, Readies, Rechecks;
  }

  // ---- leases come and go -----------------------------------------------------------------------

  /** Everybody else is where they were. */
  ghost predicate OthersStay(x: Index, x': Index, l: LeaseId) {
    forall o :: o != l && o in x.leases ==>
      && o in x'.leases && x'.leases[o] == x.leases[o]
      && (o in x'.members <==> o in x.members)
      && (forall key :: key in x.routing && o in x.routing[key] <==> key in x'.routing && o in x'.routing[key])
  }

  /** `acquire`: a new lease is held, not validated yet, and waits for the entry to start. An entry that has died takes none. */
  lemma AcquiredLeasesAreHeld(t: Tenant, l: LeaseId, table: Table)
    requires Inv(t) && l !in t.index.leases
    ensures var t' := Next(t, Acquired(l, table));
            && (!t.life.dead ==>
                  && l in t'.index.leases && t'.index.leases[l] == Lease(table, None, false) && l in t'.index.members
                  && l in t'.ready && t'.ready[l].AwaitStartup? && OthersStay(t.index, t'.index, l))
            && (t.life.dead ==> l !in t'.index.leases)
            && t'.log == [] && t'.life == t.life && t'.net == t.net
  {
    assert Routing.Routes(t.index) && Routing.Membership(t.index);
  }

  /** `acquire` without an entry creates one: live, never ready, with that one lease, and starting. */
  lemma NewEntriesStart(t: Tenant, l: LeaseId, table: Table)
    requires Inv(t) && t.life.dead
    ensures var t' := TenantNext(t, Acquired(l, table));
            && !t'.life.dead && !t'.life.wasReady && t'.life.startup.Starting? && Left(t'.life) == t.life.budget
            && t'.index == Index(map[l := Lease(table, None, false)], [l], map[], map[])
            && l in t'.ready && t'.ready[l].AwaitStartup? && t'.net.sockets == t.net.sockets
            && (if t.net.barrier.Some? then t'.life.startup.stage == AwaitBarrier(t.net.barrier.value)
                else t'.life.startup.stage.AwaitFactory? && t'.life.startup.stage.factory in t'.net.factories)
  {
  }

  /**
   * `release`: the lease is gone from the set and from every route, nobody else is touched and nobody is told; with the
   * last lease the entry ends and its connection closes.
   */
  lemma ReleasedLeasesAreGone(t: Tenant, l: LeaseId)
    requires Inv(t) && l in t.index.leases && !t.index.leases[l].released
    ensures var t' := Next(t, Released(l));
            && t'.index.leases[l].released && l !in t'.index.members && t'.log == []
            && (forall key :: key in t'.index.routing ==> l !in t'.index.routing[key])
            && (if t.index.members == [l] then Over(t')
                else t'.life == t.life && t'.net == t.net && OthersStay(t.index, t'.index, l))
  {
    ReleaseIs(t, l);
    LogIsHistory(t, []);
    var s := t.(log := []);
    assert Routing.Valid(t.index);
    HeldIsMember(t, l);
    DroppedIsGone(t.index, l);
    hide Inv, Routing.Valid, Drop, Over, Release, OthersStay, Next;
    if t.index.members == [l] {
      ReleasedEnds(s, l);
      OverIsGone(Release(s, l), l);
      ReleaseKeepsLeases(s, l);
    } else {
      RestStays(s, l);
    }
  }

  lemma ReleaseIs(t: Tenant, l: LeaseId)
    ensures Next(t, Released(l)) == Release(t.(log := []), l)
  {
    hide Release;
  }

  lemma HeldIsMember(t: Tenant, l: LeaseId)
    requires Inv(t) && l in t.index.leases && !t.index.leases[l].released
    ensures l in t.index.members && !t.life.dead
  {
    assert Routing.Membership(t.index);
    hide Base, Phase;
  }

  lemma OverIsGone(t: Tenant, l: LeaseId)
    requires Over(t)
    ensures l !in t.index.members && forall key :: key in t.index.routing ==> l !in t.index.routing[key]
  {
  }

  lemma ReleaseKeepsLeases(t: Tenant, l: LeaseId)
    requires l in t.index.leases && !t.index.leases[l].released
    ensures l in Release(t, l).index.leases && Release(t, l).index.leases[l].released
  {
    hide GiveUp, Die;
  }

  /** Unless it was the last, only the index changes. */
  lemma RestStays(t: Tenant, l: LeaseId)
    requires l in t.index.leases && !t.index.leases[l].released && Drop(t.index, l).members != []
    ensures Release(t, l) == t.(index := Drop(t.index, l))
  {
    hide Drop, Shutdown;
  }

  lemma DroppedIsGone(x: Index, l: LeaseId)
    requires Routing.Valid(x) && l in x.leases && l in x.members
    ensures var y := Drop(x, l);
            && l in y.leases && y.leases[l].released && l !in y.members && (forall key :: key in y.routing ==> l !in y.routing[key])
            && OthersStay(x, y, l) && (y.members == [] <==> x.members == [l])
  {
    assert Routing.Membership(x);
    Routing.DropKeeps(x, l);
    DropLeaves(x, l);
    LastLeaves(x, l);
    hide Drop, Routing.Valid, Routing.Membership;
  }

  lemma DropLeaves(x: Index, l: LeaseId)
    requires l in x.leases
    ensures Drop(x, l).leases == x.leases[l := x.leases[l].(released := true)]
    ensures l !in Drop(x, l).members
  {
  }

  lemma {:induction false} LastLeaves(x: Index, l: LeaseId)
    requires Routing.Membership(x) && l in x.members
    ensures Drop(x, l).members == [] <==> x.members == [l]
  {
    var members := Remove(x.members, l);
    if |x.members| > 1 {
      var o := if x.members[0] == l then x.members[1] else x.members[0];
      assert o in x.members && o != l;
      assert o in members;
    } else {
      assert x.members == [l] && x.members[1..] == [];
      assert Remove(x.members[1..], l) == [];
    }
  }

  lemma ReleasedEnds(t: Tenant, l: LeaseId)
    requires Inv(t) && l in t.index.leases && !t.index.leases[l].released && t.index.members == [l]
    ensures Over(Release(t, l)) && Release(t, l).log == t.log
  {
    LastLeaves(t.index, l);
    ReleaseKeeps(t, l);
    var t1 := t.(index := Drop(t.index, l));
    assert Routing.Membership(t.index);
    DropLeaves(t.index, l);
    assert t1.index.members == [];
    hide Drop, Remove;
    var t' := Release(t, l);
    assert t' == Shutdown(t1);
    assert Sockets.Valid(t'.net, !t'.life.dead);
    assert !t.life.dead;
    forall o | o in t'.index.leases
      ensures t'.index.leases[o].released
    {
      if o != l { assert o !in t.index.members; }
    }
    hide Readies, Rechecks, GiveUp;
  }

  // ---- sockets, factories and the end -----------------------------------------------------------

  /** A connection that arrives when nobody waits for it any more is closed, and nothing else happens. */
  lemma LateConnectionsAreClosed(t: Tenant, factory: nat, c: Connection, closable: bool)
    requires factory in t.net.factories && c !in t.net.sockets && !Awaited(t.life, factory)
    ensures var t' := Next(t, FactoryReturns(factory, c, closable));
            && t'.net.sockets == t.net.sockets[c := Socket(false, closable, 1, false)]
            && t'.net.factories == t.net.factories - {factory}
            && t'.net.connection == t.net.connection && t'.net.barrier == t.net.barrier
            && t'.life == t.life && t'.index == t.index && t'.ready == t.ready && t'.log == []
  {
  }

  /** The factory call that a start waits for. */
  predicate Calls(t: Tenant, e: Event, factory: nat) {
    match e
    case StartupMoves(_) =>
      && t.life.startup.Starting? && t.life.startup.stage.AwaitFactory? && t.life.startup.stage.factory == factory
      && Live(t.life, t.life.startup.ctl)
    case RecoveryMoves(i, _) =>
      && i < |t.life.recoveries| && t.life.recoveries[i].Reopening? && t.life.recoveries[i].stage.AwaitFactory?
      && t.life.recoveries[i].stage.factory == factory && Live(t.life, t.life.recoveries[i].ctl)
    case _ => false
  }

  /** The connection a start waits for is taken: connected when it is whole, otherwise closed at once when it can be. */
  lemma HandedConnectionsAreTaken(t: Tenant, e: Event, factory: nat)
    requires Inv(t) && !t.life.dead && Calls(t, e, factory) && factory in t.net.factories
    requires e.reply.Handed? && e.reply.connection !in t.net.sockets
    ensures var c := e.reply.connection; var t' := Next(t, e);
            && factory !in t'.net.factories && c in t'.net.sockets
            && (if e.reply.valid && e.reply.closable then t'.net.connection == Some(c) && Sockets.InUse(t'.net, c) && t'.net.sockets[c].closes == 0
                else t'.net.sockets[c] == Socket(false, e.reply.closable, if e.reply.closable then 1 else 0, false))
  {
    var s := t.(log := []);
    assert Phase(t);
    assert t.net.connection.None?;
    if e.RecoveryMoves? {
      assert Recovering(t.life, t.net) && e.recovery == 0;
      var stage := t.life.recoveries[0].stage;
      var (t1, o) := OpenNext(s, stage, e.reply);
      assert Next(t, e) == ReopenNext(s, 0, stage, t.life.recoveries[0].ctl, e.reply);
      if o.Stopped? { AttemptLeavesSockets(t1); }
      hide Base, AttemptFails;
    } else {
      hide Base, ReleaseAll;
    }
  }

  lemma AttemptLeavesSockets(t: Tenant)
    requires |t.life.recoveries| == 1 && t.net.connection.None?
    ensures AttemptFails(t, 0).net.sockets == t.net.sockets && AttemptFails(t, 0).net.factories == t.net.factories
  {
    hide ReleaseAll;
  }

  /** A close that settles takes its connection out of use, and lowers the barrier when it stands for it; it does so once. */
  lemma ClosesSettle(t: Tenant, c: Connection)
    requires Inv(t) && c in t.net.sockets && t.net.sockets[c].closes == 1 && !t.net.sockets[c].settled
    ensures var t' := Next(t, SocketCloses(c));
            && t'.net.sockets == t.net.sockets[c := t.net.sockets[c].(settled := true)]
            && !Sockets.InUse(t'.net, c)
            && (if t.net.barrier == Some(c) then t'.net.barrier.None? else t'.net.barrier == t.net.barrier)
            && t'.net.connection == t.net.connection && t'.life == t.life && t'.index == t.index && t'.log == []
  {
  }

  /** Disposal ends a live entry: exactly the leases it held are completed, each once, and its connection closes. */
  lemma DisposalEnds(t: Tenant)
    requires Inv(t)
    ensures var t' := Next(t, Disposed);
            && (!t.life.dead ==> Over(t') && t'.log == [Signal(Complete, t.index.members)])
            && (t.life.dead ==> t' == t.(log := []))
    ensures Routing.Distinct(t.index.members)
    ensures forall l :: l in t.index.members <==> l in t.index.leases && !t.index.leases[l].released
  {
    assert Routing.Membership(t.index);
    LogIsHistory(t, []);
    if !t.life.dead {
      TerminationLeavesNothing(t.(log := []));
      hide Readies, Rechecks, GiveUp, ReleaseAll, Routing.Valid, Sockets.Valid;
    }
  }

  // ---- what a failure means ---------------------------------------------------------------------

  /** The recovery's present attempt is over: an operation of its start failed, or a check that a retry could change. */
  predicate FailsAttempt(t: Tenant, reply: Reply) {
    && Recovers(t) && t.life.recoveries != [] && reply.Failed?
    && match Head(t)
       case Backoff => false
       case Reopening(_, _) => true
       case Revalidating(_, _, _, check, _) => t.life.aborted || !reply.definitive || check.ListenerCheck?
  }

  /** The check under way has an outcome no retry can change: the mapping moved, or a check was refused for good. */
  predicate FailsLease(t: Tenant, reply: Reply) {
    && Recovers(t) && t.life.recoveries != [] && !t.life.aborted
    && match Head(t)
       case Revalidating(_, l, _, check, _) =>
         (match check
          case ReaderCheck => (reply.Failed? && reply.definitive) || (reply.Mapping? && !SameMapping(t.index, l, reply.identity))
          case ListenerCheck(identity) => reply.Database? && reply.database != identity.database
          case TriggerCheck(_) => reply.Failed? && reply.definitive)
       case _ => false
  }

  /**
   * A failure that a retry could change spends one: every lease stays, the attempt's connection closes, and the entry backs
   * off; when no delay is left it ends, and tells exactly its leases.
   */
  lemma TransientFailuresSpendARetry(t: Tenant, reply: Reply)
    requires Inv(t) && FailsAttempt(t, reply)
    ensures var t' := Next(t, RecoveryMoves(0, reply));
            && (t'.life.dead <==> Left(t.life) == 0)
            && (!t'.life.dead ==> t'.life.recoveries == [Backoff] && Left(t'.life) == Left(t.life) - 1
                                  && t'.index == t.index && t'.log == [] && t'.net.connection.None?)
            && (t'.life.dead ==> t'.index.members == [] && t'.log == [Signal(Fail, t.index.members)])
            && (t.net.connection.Some? ==>
                  t.net.connection.value in t'.net.sockets && t'.net.sockets[t.net.connection.value].closes == 1)
  {
    var s := t.(log := []);
    LogIsHistory(t, []);
    assert Phase(t) && Recovering(t.life, t.net) && Sockets.Owned(t.net, true);
    LostKeeps(s);
    LostAgain(s);
    var u := if s.life.aborted then s else Lost(s);
    FailedAttemptsSpendTheBudget(u, 0);
    AttemptAfterLoss(s);
    AttemptFailsCloses(u);
    assert Next(t, RecoveryMoves(0, reply)) == AttemptFails(u, 0);
    hide Base, Lost, AttemptFails, Next;
  }

  lemma LostAgain(t: Tenant)
    requires Inv(t) && Recovers(t)
    ensures var u := if t.life.aborted then t else Lost(t);
            && u.life.aborted && Recovers(u) && u.life.recoveries == t.life.recoveries && Left(u.life) == Left(t.life)
            && u.index == t.index && u.log == t.log && u.net.connection.None?
            && (t.net.connection.Some? ==>
                  t.net.connection.value in u.net.sockets && u.net.sockets[t.net.connection.value].closes == 1)
  {
    assert Recovering(t.life, t.net) && Sockets.Owned(t.net, true);
    hide Base;
  }

  /** The catch block gives an attempt up in the same way, whether or not the failure had already cost the connection. */
  lemma AttemptAfterLoss(t: Tenant)
    requires Inv(t) && Recovers(t) && |t.life.recoveries| == 1
    ensures AttemptFails(t, 0) == AttemptFails(if t.life.aborted then t else Lost(t), 0)
  {
    LostKeeps(t);
    LostAgain(t);
    hide Inv, Lost, Retry;
  }

  lemma AttemptFailsCloses(u: Tenant)
    requires Inv(u) && Recovers(u) && |u.life.recoveries| == 1 && u.life.aborted && u.net.connection.None?
    ensures AttemptFails(u, 0).net == u.net
  {
    assert Phase(u);
    hide Base;
  }

  /**
   * An outcome that no retry can change fails this lease only: it is told and released, everybody else stays, no retry is
   * spent, and the attempt goes on over the same connection; with the last lease the entry ends.
   */
  lemma DefinitiveOutcomesFailOneLease(t: Tenant, reply: Reply)
    requires Inv(t) && FailsLease(t, reply)
    ensures FailsOnly(t, Next(t, RecoveryMoves(0, reply)), Head(t).lease)
  {
    var s := t.(log := []);
    var r := Head(t);
    LogIsHistory(t, []);
    RejectionFollows(t, reply);
    assert Recovering(t.life, t.net) && Rechecks(t.life.recoveries, t.index.leases);
    hide Inv, Next, RejectLease, Rechecks;
    RejectStays(s, r);
    hide Recovering, Left, Told;
  }

  lemma RejectionFollows(t: Tenant, reply: Reply)
    requires Inv(t) && FailsLease(t, reply)
    ensures Next(t, RecoveryMoves(0, reply)) == RejectLease(t.(log := []), 0, Head(t))
  {
    assert Recovering(t.life, t.net);
    hide Base, RejectLease;
  }

  /** The lease is out and, if it was held, told; nobody else is touched, no retry is spent, and the attempt goes on. */
  ghost predicate FailsOnly(t: Tenant, t': Tenant, l: LeaseId) {
    && l in t.index.leases && t'.index.leases == t.index.leases[l := t.index.leases[l].(released := true)]
    && (forall o :: Told(t'.log, Fail, o) <==> o == l && !t.index.leases[l].released)
    && Left(t'.life) == Left(t.life)
    && (t'.life.dead <==> t.index.members == [l])
    && (!t'.life.dead ==> t'.net == t.net && t'.life.generation == t.life.generation && t'.life.controller == t.life.controller
                          && (t'.life.available || (|t'.life.recoveries| == 1 && t'.life.recoveries[0].Revalidating?)))
  }

  lemma RejectStays(s: Tenant, r: Recovery)
    requires Inv(s) && Recovers(s) && s.life.recoveries == [r] && r.Revalidating? && s.log == []
    requires r.generation == s.life.generation && r.lease in s.index.leases
    ensures FailsOnly(s, RejectLease(s, 0, r), r.lease)
  {
    if s.index.leases[r.lease].released {
      HeldAreMembers(s, r.lease);
      assert s.index.leases == s.index.leases[r.lease := s.index.leases[r.lease].(released := true)];
      hide Inv, Release, Revalidate, Left;
      RevalidateStays(s, r.generation, r.todo);
    } else {
      RejectHeld(s, r);
    }
  }

  lemma RejectHeld(s: Tenant, r: Recovery)
    requires Inv(s) && Recovers(s) && s.life.recoveries == [r] && r.Revalidating? && s.log == []
    requires r.generation == s.life.generation && r.lease in s.index.leases && !s.index.leases[r.lease].released
    ensures FailsOnly(s, RejectLease(s, 0, r), r.lease)
  {
    var told := s.(log := [Signal(Fail, [r.lease])]);
    assert s.log + [Signal(Fail, [r.lease])] == told.log && Recovers(told);
    hide Inv, Release, Revalidate, Left, Recovers;
    TellsOne(r.lease);
    LogIsHistory(s, told.log);
    ReleasedStays(told, r.lease);
    var t1 := Release(told, r.lease);
    assert RejectLease(s, 0, r) == Revalidate(t1, 0, r.generation, r.todo);
    hide RejectLease, Told, FailsOnly;
    if t1.life.dead {
      RevalidateDead(t1, r.generation, r.todo);
      FailsOnlyFrom(s, t1, Revalidate(t1, 0, r.generation, r.todo), r.lease);
    } else {
      RevalidateStays(t1, r.generation, r.todo);
      FailsOnlyFrom(s, t1, Revalidate(t1, 0, r.generation, r.todo), r.lease);
    }
  }

  lemma FailsOnlyFrom(s: Tenant, t: Tenant, u: Tenant, l: LeaseId)
    requires l in s.index.leases && !s.index.leases[l].released
    requires t.index.leases == s.index.leases[l := s.index.leases[l].(released := true)] && u.index == t.index
    requires forall o :: Told(u.log, Fail, o) <==> o == l
    requires Left(u.life) == Left(t.life) == Left(s.life) && (t.life.dead <==> s.index.members == [l]) && u.life.dead == t.life.dead
    requires !t.life.dead ==> t.net == s.net && t.life == s.life
    requires !u.life.dead ==>
               u.net == t.net && u.life.generation == t.life.generation && u.life.controller == t.life.controller
               && (u.life.available || (|u.life.recoveries| == 1 && u.life.recoveries[0].Revalidating?))
    ensures FailsOnly(s, u, l)
  {
    hide Told, Left;
  }

  lemma HeldAreMembers(t: Tenant, l: LeaseId)
    requires Inv(t) && l in t.index.leases && t.index.leases[l].released
    ensures t.index.members != [l]
  {
    assert Routing.Membership(t.index);
    assert l !in t.index.members && l in [l];
  }

  lemma TellsOne(l: LeaseId)
    ensures forall o :: Told([Signal(Fail, [l])], Fail, o) <==> o == l
  {
    assert [Signal(Fail, [l])][0].leases == [l];
  }

  lemma ReleasedStays(t: Tenant, l: LeaseId)
    requires Inv(t) && l in t.index.leases && !t.index.leases[l].released
    ensures var u := Release(t, l);
            && Inv(u) && u.index.leases == t.index.leases[l := t.index.leases[l].(released := true)] && u.log == t.log
            && u.life.recoveries == t.life.recoveries && Left(u.life) == Left(t.life)
            && (u.life.dead <==> t.index.members == [l])
            && (!u.life.dead ==> u.life == t.life && u.net == t.net && (Recovers(t) ==> Recovers(u)))
  {
    ReleaseKeeps(t, l);
    LastLeaves(t.index, l);
    DropLeaves(t.index, l);
    hide Inv, Drop;
  }

  lemma {:induction false} RevalidateStays(t: Tenant, generation: nat, todo: seq<LeaseId>)
    requires Inv(t) && Recovers(t) && |t.life.recoveries| == 1 && generation == t.life.generation
    ensures var u := Revalidate(t, 0, generation, todo);
            && u.index == t.index && u.net == t.net && !u.life.dead && Left(u.life) == Left(t.life)
            && u.life.generation == t.life.generation && u.life.controller == t.life.controller
            && (forall o :: Told(u.log, Fail, o) <==> Told(t.log, Fail, o))
            && (u.life.available || (|u.life.recoveries| == 1 && u.life.recoveries[0].Revalidating?))
    decreases |todo|
  {
    assert Phase(t);
    hide Inv;
    if todo == [] {
      hide Keyed;
      var u := Recovered(t, 0, generation);
      assert forall i :: 0 <= i < |t.log| ==> u.log[i] == t.log[i];
    } else {
      RevalidateStays(t, generation, todo[1..]);
    }
  }

  /** Of an entry that has died no lease is held, so its recovery just ends. */
  lemma {:induction false} RevalidateDead(t: Tenant, generation: nat, todo: seq<LeaseId>)
    requires Inv(t) && t.life.dead && |t.life.recoveries| == 1
    ensures var u := Revalidate(t, 0, generation, todo);
            u.index == t.index && u.net == t.net && u.life.dead && Left(u.life) == Left(t.life) && u.log == t.log
    decreases |todo|
  {
    assert Routing.Membership(t.index);
    if todo != [] { RevalidateDead(t, generation, todo[1..]); }
    hide Inv;
  }

  // ---- a lease that is refused, or has to start over --------------------------------------------

  /** A check failed, or its answer contradicts what is known. */
  predicate CheckRefuses(t: Tenant, l: LeaseId, r: Ready, reply: Reply)
    requires r.Checking?
  {
    || reply.Failed?
    || (Live(t.life, r.ctl) &&
          match r.check
          case ReaderCheck => reply.Mapping? && !Held(t, l)
          case ListenerCheck(identity) => reply.Database? && reply.database != identity.database
          case TriggerCheck(identity) =>
            reply.Ok? && (!Held(t, l) || (!Stale(t.life, r.generation) && Conflicts(t.index, l, identity))))
  }

  /** What a lease waited for is refused, and nothing lost in the meantime excuses it. */
  predicate Refuses(t: Tenant, l: LeaseId, reply: Reply) {
    && l in t.ready
    && match t.ready[l]
       case AwaitStartup => t.life.startup.StartFailed?
       case AwaitReadiness(i) =>
         i < |t.life.promises| && !t.life.promises[i].Pending? && (t.life.promises[i].Rejected? || !Held(t, l))
       case Checking(generation, _, _) => CheckRefuses(t, l, t.ready[l], reply) && !(Held(t, l) && Stale(t.life, generation))
  }

  /** A refused lease is released, and waits for nothing any more. */
  lemma RefusedLeasesAreReleased(t: Tenant, l: LeaseId, reply: Reply)
    requires Inv(t) && Refuses(t, l, reply)
    ensures var t' := Next(t, ReadyMoves(l, reply));
            && l !in t'.ready && l in t'.index.leases && t'.index.leases[l].released && l !in t'.index.members && t'.log == []
            && (forall o :: o != l && o in t.index.leases ==> o in t'.index.leases && t'.index.leases[o] == t.index.leases[o])
  {
    assert Readies(t.ready, t.index.leases, t.life) && Routing.Membership(t.index);
    var s := t.(log := []);
    var loses := LosesWith(s, l, reply);
    var u := if loses then Lost(s) else s;
    if loses && !t.life.dead { LostSaysNothing(s); LostKeeps(s); }
    assert u.ready == t.ready && u.index == t.index && u.log == [];
    ReadyIs(t, l, reply);
    hide Inv, Lost, Next, LosesWith, ReadyStep;
    RefusalFails(s, u, l, reply);
    hide Refuses;
    FailingReleases(u, l);
  }

  /** A trigger check that failed for a passing reason, while a recovery is under way, is a loss as well. */
  predicate LosesWith(t: Tenant, l: LeaseId, reply: Reply) {
    l in t.ready && t.ready[l].Checking? && reply == Failed(false) && t.ready[l].check.TriggerCheck? && t.life.wasReady && !t.life.available
  }

  lemma ReadyIs(t: Tenant, l: LeaseId, reply: Reply)
    ensures Next(t, ReadyMoves(l, reply)) == ReadyStep(t.(log := []), l, reply)
  {
    hide ReadyStep;
  }

  lemma RefusalFails(s: Tenant, u: Tenant, l: LeaseId, reply: Reply)
    requires Refuses(s, l, reply) && u == (if LosesWith(s, l, reply) then Lost(s) else s)
    requires u.ready == s.ready && u.index == s.index
    requires s.life.dead ==> u.life.dead
    ensures ReadyStep(s, l, reply) == ReadyFails(u, l)
  {
    hide Lost, ReadyFails, ReadyTop, Conflicts, Validated;
  }

  lemma FailingReleases(t: Tenant, l: LeaseId)
    requires l in t.index.leases && (t.index.leases[l].released ==> l !in t.index.members)
    ensures var t' := ReadyFails(t, l);
            && l !in t'.ready && t'.index.leases.Keys == t.index.leases.Keys && l in t'.index.leases && t'.index.leases[l].released
            && l !in t'.index.members && t'.log == t.log
            && (forall o :: o != l && o in t.index.leases ==> o in t'.index.leases && t'.index.leases[o] == t.index.leases[o])
  {
    if !t.index.leases[l].released { DropLeaves(t.index, l); }
    hide Drop, GiveUp, Die;
  }

  /**
   * A lease that was being checked when the listener was lost starts over, whatever the check said: it waits for the
   * recovery, or resolves its mapping again under the present generation.
   */
  lemma StaleChecksStartOver(t: Tenant, l: LeaseId, reply: Reply)
    requires Inv(t) && l in t.ready && t.ready[l].Checking? && Held(t, l) && Stale(t.life, t.ready[l].generation)
    requires CheckRefuses(t, l, t.ready[l], reply)
             || (Live(t.life, t.ready[l].ctl) && ((t.ready[l].check.ReaderCheck? && reply.Mapping?) || (t.ready[l].check.TriggerCheck? && reply.Ok?)))
    ensures var t' := Next(t, ReadyMoves(l, reply));
            && Held(t', l) && l in t'.ready && t'.index == t.index && t'.log == []
            && t'.ready[l] == if t.life.available then Checking(t.life.generation, ReaderCheck, t.life.controller)
                              else AwaitReadiness(|t.life.promises| - 1)
  {
    assert Phase(t);
    hide Base;
  }
}
