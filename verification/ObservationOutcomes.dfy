/** What the turning points in an entry's life amount to: a failed start, the end, a recovery, a lease that is filed. */
module ObservationOutcomes {
  import opened Options
  import opened ObservationGate
  import opened PostgreSQLObservationManager
  import opened ObservationLifecycle
  import Promises = ObservationPromises
  import Routing = ObservationRouting
  import Sockets = ObservationSockets

  /** An entry has ended: nobody is held or waits, nothing is routed, and what is in use is closing. */
  ghost predicate Over(t: Tenant) {
    && t.life.dead && !Newly(t.life.promises, Pending)
    && t.index.members == [] && t.index.routing == map[] && t.index.identities == map[]
    && (forall l :: l in t.index.leases ==> t.index.leases[l].released)
    && (forall c :: Sockets.InUse(t.net, c) ==> t.net.sockets[c].closes == 1)
  }

  /** Termination leaves nothing behind, and tells exactly the leases that were held, each once, that it failed. */
  lemma TerminationLeavesNothing(t: Tenant)
    requires Base(t) && !t.life.dead
    ensures Over(Terminate(t)) && Terminate(t).log == t.log + [Signal(Fail, t.index.members)]
    ensures Routing.Distinct(t.index.members)
    ensures forall l :: l in t.index.members <==> l in t.index.leases && !t.index.leases[l].released
  {
    TerminateKeeps(t);
    Routing.ReleaseAllKeeps(t.index);
    assert Sockets.Valid(Terminate(t).net, false);
    hide Readies, Rechecks, GiveUp, ReleaseAll;
  }

  /** The first start ends the entry exactly when it fails; when it is done, the entry holds a connection that is in use. */
  lemma FailedStartsEndTheEntry(t: Tenant, reply: Reply)
    requires Inv(t) && !t.life.dead && t.life.startup.Starting?
    ensures var t' := Next(t, StartupMoves(reply));
            && (t'.life.dead <==> t'.life.startup.StartFailed?)
            && (reply.Failed? ==> t'.life.dead)
            && (t'.life.dead ==> Over(t') && t'.log == [Signal(Fail, t.index.members)])
            && (t'.life.startup.Started? ==>
                  t'.net.connection.Some? && Sockets.InUse(t'.net, t'.net.connection.value) && t'.log == [] && t'.index == t.index)
  {
    LogIsHistory(t, []);
    hide Inv;
    StartupEndsTheEntry(t.(log := []), reply);
    hide StartupStep, Over;
  }

  lemma StartupEndsTheEntry(t: Tenant, reply: Reply)
    requires Inv(t) && !t.life.dead && t.life.startup.Starting?
    ensures var t' := StartupStep(t, reply);
            && (t'.life.dead <==> t'.life.startup.StartFailed?)
            && (reply.Failed? ==> t'.life.dead)
            && (t'.life.dead ==> Over(t') && t'.log == t.log + [Signal(Fail, t.index.members)])
            && (t'.life.startup.Started? ==>
                  t'.net.connection.Some? && Sockets.InUse(t'.net, t'.net.connection.value) && t'.log == t.log && t'.index == t.index)
  {
    hide Truthful, Routing.Valid, Readies, Rechecks, Over;
    StartupStepKeeps(t, reply);
    var stage, ctl := t.life.startup.stage, t.life.startup.ctl;
    if reply.Failed? {
      StartupBase(t, StartFailed);
      TerminationLeavesNothing(t.(life := t.life.(startup := StartFailed)));
    } else if Live(t.life, ctl) && Fits(t, stage, reply) {
      assert Beginning(t.life, t.net);
      OpenNextKeeps(t, stage, reply);
      OpenNextIsSilent(t, stage, reply);
      var (t1, o) := OpenNext(t, stage, reply);
      if o.Stopped? {
        StartupBase(t1, StartFailed);
        TerminationLeavesNothing(t1.(life := t1.life.(startup := StartFailed)));
      }
      hide OpenNext, Fits, Terminate;
    }
  }

  lemma OpenNextIsSilent(t: Tenant, stage: Stage, reply: Reply)
    requires Fits(t, stage, reply)
    ensures OpenNext(t, stage, reply).0.log == t.log
  {
  }

  /**
   * A recovery that succeeds leaves a working entry under the generation it validated its leases under, and asks exactly
   * the held, validated leases to catch up.
   */
  lemma RecoveredEntriesServe(t: Tenant, generation: nat, l: LeaseId)
    requires Reopened(t, generation) && Promises.NoCatchUp(t.log)
    ensures var t' := Recovered(t, 0, generation);
            && Working(t'.life, t'.net) && t'.life.generation == generation && t'.index == t.index
            && (Promises.Told(t'.log, CatchUp, l) <==>
                  l in t.index.leases && !t.index.leases[l].released && t.index.leases[l].key.Some?)
  {
    var asked := Signal(CatchUp, Keyed(t.index, t.index.members));
    assert Routing.Membership(t.index);
    hide Truthful, Routing.Valid, Routing.Distinct, Sockets.Valid, Readies, Rechecks, Keyed;
    var t' := Recovered(t, 0, generation);
    assert t'.log == t.log + [asked];
    assert Without(t.life.recoveries, 0) == [];
    assert t'.log[|t.log|] == asked;
  }

  /**
   * The last check files a lease exactly when it is still held, what it learned still counts, and no other lease of its
   * table contradicts: then it is routed under its key over a working entry, which the first such lease opens.
   */
  lemma FiledLeasesAreServed(t: Tenant, l: LeaseId, identity: Identity)
    requires Inv(t) && l in t.ready && t.ready[l].Checking? && t.ready[l].check == TriggerCheck(identity)
    requires Live(t.life, t.ready[l].ctl)
    ensures var t' := Next(t, ReadyMoves(l, Ok));
            var fits := Held(t, l) && !Stale(t.life, t.ready[l].generation) && !Conflicts(t.index, l, identity);
            && (t'.index.leases[l].key == if fits then Some(identity.key) else None)
            && (fits ==> Working(t'.life, t'.net) && t'.life.wasReady && t'.life.generation == t.life.generation
                         && identity.key in t'.index.routing && l in t'.index.routing[identity.key] && l !in t'.ready)
            && (fits && t.life.wasReady ==> t'.life == t.life)
  {
  }
}
