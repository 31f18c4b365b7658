/** What good answers lead to: a recovery that is answered well recovers, a start starts, a lease that is vetted is filed. */
module ObservationProgress {
  import opened Options
  import opened ObservationGate
  import opened PostgreSQLObservationManager
  import opened ObservationLifecycle
  import opened ObservationPromises
  import opened ObservationRecovery
  import Routing = ObservationRouting
  import Sockets = ObservationSockets

  // ---- a recovery -------------------------------------------------------------------------------

  /** The mapping a lease had when it was filed. */
  function Former(x: Index, l: LeaseId): Identity {
    if l in x.leases && x.leases[l].key.Some? && x.leases[l].table in x.identities
    then Identity(x.leases[l].key.value, x.identities[x.leases[l].table].database) else Identity(0, 0)
  }

  /** The good answer to whatever a start awaits; `c` is the connection its factory may hand over. */
  function Opens(stage: Stage, c: Connection): Reply {
    if stage.AwaitFactory? then Handed(c, true, true) else Ok
  }

  /** The good answer to whatever a recovery awaits. */
  function Good(t: Tenant, c: Connection): Reply {
    match Head(t)
    case Backoff => Ok
    case Reopening(stage, _) => Opens(stage, c)
    case Revalidating(_, l, _, check, _) =>
      match check
      case ReaderCheck => Mapping(Former(t.index, l))
      case ListenerCheck(identity) => Database(identity.database)
      case TriggerCheck(_) => Ok
  }

  /** Nothing of a start is in the way: its barrier has fallen, its factory is still out, and the connection is new. */
  predicate Clear(n: Net, stage: Stage, c: Connection) {
    match stage
    case AwaitBarrier(b) => b in n.sockets && n.sockets[b].settled && c !in n.sockets
    case AwaitFactory(f, _) => f in n.factories && c !in n.sockets
    case _ => true
  }

  /** A recovery whose present attempt can succeed. */
  predicate OnTrack(t: Tenant, c: Connection) {
    && Recovers(t) && |t.life.recoveries| == 1
    && match Head(t)
       case Backoff => t.net.barrier.None? && c !in t.net.sockets
       case Reopening(stage, _) => !t.life.aborted && Clear(t.net, stage, c)
       case Revalidating(_, _, _, _, _) => !t.life.aborted
  }

  function Onward(t: Tenant, c: Connection): Tenant {
    Next(t, RecoveryMoves(0, Good(t, c)))
  }

  /** Nobody was let go or told of an end. */
  ghost predicate Spares(t: Tenant, t': Tenant) {
    t'.index.(identities := t.index.identities) == t.index && forall i, l :: 0 <= i < |t'.log| ==> !TellsEnd(t'.log[i], l)
  }

  /** The attempt has come nearer to its end, or the entry is available. */
  ghost predicate Gains(t: Tenant, t': Tenant, c: Connection) {
    && Spares(t, t')
    && (if t'.life.available then !t'.life.dead
        else OnTrack(t', c) && Left(t'.life) == Left(t.life) && Below(Left(t'.life), Head(t'), Left(t.life), Head(t)))
  }

  lemma {:induction false} RevalidateGains(t: Tenant, generation: nat, todo: seq<LeaseId>, t0: Tenant, c: Connection)
    requires Inv(t) && Recovers(t) && |t.life.recoveries| == 1 && !t.life.aborted && generation == t.life.generation
    requires Recovers(t0) && Left(t0.life) == Left(t.life) && Spares(t0, t) && t.log == []
    requires 0 < Stages(Head(t0)) || (Stages(Head(t0)) == 0 && 3 * |todo| < Checks(Head(t0)))
    ensures Gains(t0, Revalidate(t, 0, generation, todo), c)
    decreases |todo|
  {
    assert Phase(t);
    hide Inv;
    if todo == [] {
      hide Below, Stages, Checks, Left, Keyed;
      assert Recovered(t, 0, generation).life.available;
    } else if todo[0] !in t.index.leases || t.index.leases[todo[0]].released || t.index.leases[todo[0]].key.None? {
      hide Below, Left;
      RevalidateGains(t, generation, todo[1..], t0, c);
    }
  }

  lemma CheckGains(t: Tenant, c: Connection)
    requires Inv(t) && OnTrack(t, c) && Head(t).Revalidating? && t.log == []
    ensures Gains(t, CheckPasses(t, 0, Head(t), Good(t, c)), c)
  {
    var r := Head(t);
    assert Recovering(t.life, t.net);
    if r.check.ReaderCheck? {
      MappingGains(t, c);
    } else if r.check.TriggerCheck? {
      TriggerGains(t, c);
    } else {
      hide Inv, Revalidate;
    }
  }

  lemma MappingGains(t: Tenant, c: Connection)
    requires Inv(t) && OnTrack(t, c) && Head(t).Revalidating? && Head(t).check.ReaderCheck? && t.log == []
    ensures Gains(t, CheckPasses(t, 0, Head(t), Good(t, c)), c)
  {
    var r := Head(t);
    assert Recovering(t.life, t.net) && Rechecks(t.life.recoveries, t.index.leases);
    if !SameMapping(t.index, r.lease, Former(t.index, r.lease)) {
      if Held(t, r.lease) { HeldIsMapped(t, r.lease); }
      hide Inv;
      RevalidateGains(t, r.generation, r.todo, t, c);
      hide Gains, Revalidate, Release;
    } else {
      hide Inv, Revalidate;
    }
  }

  lemma TriggerGains(t: Tenant, c: Connection)
    requires Inv(t) && OnTrack(t, c) && Head(t).Revalidating? && Head(t).check.TriggerCheck? && t.log == []
    ensures Gains(t, CheckPasses(t, 0, Head(t), Good(t, c)), c)
  {
    var r := Head(t);
    assert Recovering(t.life, t.net);
    var x := if Held(t, r.lease) then t.index.(identities := t.index.identities[t.index.leases[r.lease].table := r.check.identity])
             else t.index;
    RefreshedIsBase(t);
    var t1 := t.(index := x);
    assert Spares(t, t1);
    assert CheckPasses(t, 0, r, Ok) == Revalidate(t1, 0, r.generation, r.todo);
    hide Inv, CheckPasses;
    RevalidateGains(t1, r.generation, r.todo, t, c);
    hide Gains, Revalidate;
  }

  lemma RefreshedIsBase(t: Tenant)
    requires Inv(t) && Recovers(t) && |t.life.recoveries| == 1 && Head(t).Revalidating? && Head(t).check.TriggerCheck?
    ensures var r := Head(t);
            Held(t, r.lease) ==>
              Inv(t.(index := t.index.(identities := t.index.identities[t.index.leases[r.lease].table := r.check.identity])))
  {
    assert Rechecks(t.life.recoveries, t.index.leases) && Routing.Valid(t.index);
    var r := Head(t);
    if Held(t, r.lease) {
      Routing.RefreshKeeps(t.index, r.lease, r.check.identity);
      IndexBase(t, t.index.(identities := t.index.identities[t.index.leases[r.lease].table := r.check.identity]));
    }
    hide Base, Rechecks, Routing.Valid;
  }

  /** A held, validated lease has a mapping. */
  lemma HeldIsMapped(t: Tenant, l: LeaseId)
    requires Inv(t) && l in t.index.leases && !t.index.leases[l].released && t.index.leases[l].key.Some?
    ensures SameMapping(t.index, l, Former(t.index, l))
  {
    assert Routing.Valid(t.index);
  }

  lemma StageGains(t: Tenant, c: Connection)
    requires Inv(t) && OnTrack(t, c) && !Head(t).Revalidating? && t.log == []
    ensures Gains(t, Onward(t, c), c)
  {
    assert Recovering(t.life, t.net);
    assert Sockets.Valid(t.net, true);
    if Head(t).Reopening? && Head(t).stage.AwaitListen? {
      OpenedGains(t, c);
    } else {
      hide Inv, Revalidate;
    }
  }

  lemma OpenedGains(t: Tenant, c: Connection)
    requires Inv(t) && OnTrack(t, c) && Head(t).Reopening? && Head(t).stage.AwaitListen? && t.log == []
    ensures Gains(t, Onward(t, c), c)
  {
    assert Recovering(t.life, t.net);
    hide Inv;
    RevalidateGains(t, t.life.generation, t.index.members, t, c);
    hide Revalidate, Gains;
  }

  lemma GoodAnswersGain(t: Tenant, c: Connection)
    requires Inv(t) && OnTrack(t, c)
    ensures Inv(Onward(t, c)) && Gains(t, Onward(t, c), c)
  {
    NextKeeps(t, RecoveryMoves(0, Good(t, c)));
    LogIsHistory(t, []);
    var s := t.(log := []);
    assert OnTrack(s, c) && Good(s, c) == Good(t, c) && Onward(s, c) == Onward(t, c);
    assert Recovering(t.life, t.net);
    hide Inv, CheckPasses, Below, Stages, Checks, Left;
    if Head(t).Revalidating? { CheckGains(s, c); } else { StageGains(s, c); }
    hide Clear;
  }

  function Answered(t: Tenant, c: Connection, n: nat): Tenant {
    if n == 0 then t else Onward(Answered(t, c, n - 1), c)
  }

  /**
   * A recovery whose operations all succeed makes the entry available again, with every lease it had, and nobody is told
   * of an end: no good answer is ever ignored, refused or taken for a failure.
   */
  lemma {:induction false} GoodAnswersRecover(t: Tenant, c: Connection, from: nat) returns (n: nat)
    requires Inv(t) && Inv(Answered(t, c, from)) && OnTrack(Answered(t, c, from), c) && Spares(t, Answered(t, c, from))
    ensures from < n && Inv(Answered(t, c, n)) && Answered(t, c, n).life.available && !Answered(t, c, n).life.dead
    ensures Spares(t, Answered(t, c, n))
    decreases Stages(Head(Answered(t, c, from))), Checks(Head(Answered(t, c, from)))
  {
    hide *;
    GoodAnswersGain(Answered(t, c, from), c);
    AnsweredOn(t, c, from);
    GainsFrom(t, Answered(t, c, from), c);
    n := from + 1;
    if !Answered(t, c, n).life.available {
      n := GoodAnswersRecover(t, c, from + 1);
    }
  }

  lemma AnsweredOn(t: Tenant, c: Connection, n: nat)
    ensures Answered(t, c, n + 1) == Onward(Answered(t, c, n), c)
  {
  }

  lemma GainsFrom(t: Tenant, a: Tenant, c: Connection)
    requires Spares(t, a) && Gains(a, Onward(a, c), c)
    ensures var b := Onward(a, c);
            && Spares(t, b) && (b.life.available ==> !b.life.dead)
            && (!b.life.available ==> OnTrack(b, c)
                                      && (Stages(Head(b)) < Stages(Head(a)) || (Stages(Head(b)) == Stages(Head(a)) && Checks(Head(b)) < Checks(Head(a)))))
  {
    hide Onward, OnTrack, Stages, Checks, Left, Head;
  }

  // ---- the first start --------------------------------------------------------------------------

  predicate Begins(t: Tenant, c: Connection) {
    !t.life.dead && t.life.startup.Starting? && Clear(t.net, t.life.startup.stage, c)
  }

  function StartAnswered(t: Tenant, c: Connection, n: nat): Tenant {
    if n == 0 then t
    else
      var u := StartAnswered(t, c, n - 1);
      if u.life.startup.Starting? then Next(u, StartupMoves(Opens(u.life.startup.stage, c))) else u
  }

  function StagesLeft(s: Startup): nat {
    if s.Starting? then Stages(Reopening(s.stage, 0)) else 0
  }

  lemma GoodAnswersStartOne(t: Tenant, c: Connection)
    requires Inv(t) && Begins(t, c)
    ensures var t' := Next(t, StartupMoves(Opens(t.life.startup.stage, c)));
            && Inv(t') && t'.index == t.index && t'.ready == t.ready && t'.log == []
            && (t'.life.startup.Started? || (Begins(t', c) && StagesLeft(t'.life.startup) < StagesLeft(t.life.startup)))
            && !t'.life.dead && (t'.life.startup.Started? ==> t'.net.connection.Some?)
  {
    NextKeeps(t, StartupMoves(Opens(t.life.startup.stage, c)));
    StartingFits(t, c);
    LogIsHistory(t, []);
    var s := t.(log := []);
    hide Inv;
    OpensWell(s, t.life.startup.stage, c);
    hide Fits, OpenNext, Clear, Stages, StageFits;
  }

  lemma StartingFits(t: Tenant, c: Connection)
    requires Inv(t) && Begins(t, c)
    ensures StageFits(t.life, t.net, t.life.startup.stage) && Live(t.life, t.life.startup.ctl) && t.life.recoveries == []
  {
    assert Beginning(t.life, t.net);
    hide Base, StageFits;
  }

  /** A good answer takes a start on by a stage. */
  lemma OpensWell(t: Tenant, stage: Stage, c: Connection)
    requires !t.life.dead && StageFits(t.life, t.net, stage) && Clear(t.net, stage, c)
    ensures Fits(t, stage, Opens(stage, c))
    ensures var (t1, o) := OpenNext(t, stage, Opens(stage, c));
            && t1.index == t.index && t1.ready == t.ready && t1.log == t.log && !t1.life.dead
            && (o.Opened? ==> t1.net.connection.Some?) && !o.Stopped?
            && (o.Onward? ==> Clear(t1.net, o.stage, c) && Stages(Reopening(o.stage, 0)) < Stages(Reopening(stage, 0)))
  {
  }

  /** A first start whose operations all succeed starts the entry: it holds a connection and every lease it had. */
  lemma {:induction false} GoodAnswersStart(t: Tenant, c: Connection) returns (n: nat)
    requires Inv(t) && Begins(t, c)
    ensures var t' := StartAnswered(t, c, n);
            Inv(t') && !t'.life.dead && t'.life.startup.Started? && t'.net.connection.Some? && t'.index == t.index && t'.log == []
    decreases StagesLeft(t.life.startup)
  {
    assert t.life.startup.Starting?;
    hide *;
    GoodAnswersStartOne(t, c);
    n := 1;
    OneStart(t, c);
    if !StartAnswered(t, c, 1).life.startup.Started? {
      var m := GoodAnswersStart(StartAnswered(t, c, 1), c);
      StartAnsweredFrom(t, c, m);
      n := m + 1;
    }
  }

  lemma OneStart(t: Tenant, c: Connection)
    requires t.life.startup.Starting?
    ensures StartAnswered(t, c, 1) == Next(t, StartupMoves(Opens(t.life.startup.stage, c)))
  {
    hide Next;
    assert StartAnswered(t, c, 0) == t;
  }

  lemma {:induction false} StartAnsweredFrom(t: Tenant, c: Connection, m: nat)
    requires t.life.startup.Starting?
    ensures StartAnswered(t, c, m + 1) == StartAnswered(Next(t, StartupMoves(Opens(t.life.startup.stage, c))), c, m)
  {
    hide Next;
    if m == 0 {
      assert StartAnswered(t, c, 0) == t;
    } else {
      StartAnsweredFrom(t, c, m - 1);
    }
  }

  // ---- a lease becomes ready --------------------------------------------------------------------

  /** A held lease of an entry that has started and is not recovering, whose reader maps to `identity`. */
  predicate Vetting(t: Tenant, l: LeaseId, identity: Identity) {
    && Held(t, l) && l in t.ready && t.life.startup.Started? && !t.life.aborted && (t.life.wasReady ==> t.life.available)
    && !Conflicts(t.index, l, identity)
    && match t.ready[l]
       case AwaitStartup => true
       case AwaitReadiness(i) => i < |t.life.promises| && t.life.promises[i].Resolved?
       case Checking(generation, check, ctl) =>
         && generation == t.life.generation && ctl == t.life.controller
         && (match check
             case ReaderCheck => true
             case ListenerCheck(checked) => checked == identity
             case TriggerCheck(checked) => checked == identity)
  }

  function Vets(r: Ready, identity: Identity): Reply {
    if r.Checking? && r.check.ReaderCheck? then Mapping(identity)
    else if r.Checking? && r.check.ListenerCheck? then Database(identity.database)
    else Ok
  }

  function ChecksLeft(r: Ready): nat {
    match r
    case Checking(_, check, _) => (match check case ReaderCheck => 3 case ListenerCheck(_) => 2 case TriggerCheck(_) => 1)
    case _ => 4
  }

  /** The lease hears notifications of its table over a working entry; it is the only thing that has changed. */
  ghost predicate Served(t: Tenant, t': Tenant, l: LeaseId, identity: Identity) {
    && Working(t'.life, t'.net) && t'.life.generation == t.life.generation && l !in t'.ready
    && l in t.index.leases && l in t'.index.leases && t'.index.leases[l] == t.index.leases[l].(key := Some(identity.key))
    && identity.key in t'.index.routing && l in t'.index.routing[identity.key]
    && t'.index.members == t.index.members && (forall o :: o in t.index.leases && o != l ==> o in t'.index.leases && t'.index.leases[o] == t.index.leases[o])
  }

  lemma GoodAnswersVetOne(t: Tenant, l: LeaseId, identity: Identity)
    requires Inv(t) && Vetting(t, l, identity)
    ensures var t' := Next(t, ReadyMoves(l, Vets(t.ready[l], identity)));
            && Inv(t') && t'.log == []
            && l in t.ready && 0 < ChecksLeft(t.ready[l])
            && if ChecksLeft(t.ready[l]) == 1 then Served(t, t', l, identity)
               else l in t'.ready && Vetting(t', l, identity) && t'.index == t.index && t'.life == t.life && ChecksLeft(t'.ready[l]) < ChecksLeft(t.ready[l])
  {
    NextKeeps(t, ReadyMoves(l, Vets(t.ready[l], identity)));
    if ChecksLeft(t.ready[l]) == 1 {
      FiledIsServed(t, l, identity);
    } else {
      CheckGoesOn(t, l, identity);
    }
    hide Inv, Next, Served;
  }

  /** What a lease waits for after a good answer that is not the last. */
  function NextCheck(t: Tenant, r: Ready, identity: Identity): Ready {
    match r
    case Checking(generation, ReaderCheck, ctl) => Checking(generation, ListenerCheck(identity), ctl)
    case Checking(generation, ListenerCheck(checked), ctl) => Checking(generation, TriggerCheck(checked), ctl)
    case _ => Checking(t.life.generation, ReaderCheck, t.life.controller)
  }

  lemma CheckGoesOn(t: Tenant, l: LeaseId, identity: Identity)
    requires Vetting(t, l, identity) && ChecksLeft(t.ready[l]) != 1
    ensures Next(t, ReadyMoves(l, Vets(t.ready[l], identity))) ==
            t.(log := [], ready := t.ready[l := NextCheck(t, t.ready[l], identity)])
  {
    hide Conflicts, Validated;
  }

  /** The last good answer files the lease. */
  lemma LastCheckFiles(t: Tenant, l: LeaseId, identity: Identity)
    requires Vetting(t, l, identity) && ChecksLeft(t.ready[l]) == 1
    ensures l in t.index.leases && Next(t, ReadyMoves(l, Ok)) == Validated(t.(log := []), l, identity)
  {
    hide Validated;
  }

  lemma ValidatedIsFiled(t: Tenant, l: LeaseId, identity: Identity)
    requires l in t.index.leases && !t.life.dead && (t.life.wasReady ==> t.life.available)
    ensures var t' := Validated(t, l, identity);
            && t'.life.available && t'.life.wasReady && !t'.life.dead && t'.log == t.log && t'.life.generation == t.life.generation
            && t'.index == Route(t.index, l, identity) && l !in t'.ready && (t'.life.aborted <==> t.life.aborted)
  {
    hide Route;
  }

  lemma RoutedIsReached(x: Index, l: LeaseId, identity: Identity)
    requires l in x.leases
    ensures var y := Route(x, l, identity);
            && l in y.leases && y.leases[l] == x.leases[l].(key := Some(identity.key)) && y.members == x.members
            && identity.key in y.routing && l in y.routing[identity.key]
            && forall o :: o in x.leases && o != l ==> o in y.leases && y.leases[o] == x.leases[o]
  {
  }

  lemma FiledIsServed(t: Tenant, l: LeaseId, identity: Identity)
    requires Inv(t) && Vetting(t, l, identity) && ChecksLeft(t.ready[l]) == 1
    requires Inv(Next(t, ReadyMoves(l, Ok)))
    ensures Served(t, Next(t, ReadyMoves(l, Ok)), l, identity) && Next(t, ReadyMoves(l, Ok)).log == []
  {
    LastCheckFiles(t, l, identity);
    hide Next, Route, Validated;
    ValidatedIsFiled(t.(log := []), l, identity);
    RoutedIsReached(t.index, l, identity);
    AvailableWorks(Next(t, ReadyMoves(l, Ok)));
  }

  lemma AvailableWorks(t: Tenant)
    requires Inv(t) && t.life.available && t.life.wasReady && !t.life.dead
    ensures Working(t.life, t.net)
  {
    assert PhaseOf(t.life, t.net);
    hide Base;
  }

  function ReadyAnswered(t: Tenant, l: LeaseId, identity: Identity, n: nat): Tenant {
    if n == 0 then t
    else
      var u := ReadyAnswered(t, l, identity, n - 1);
      if l in u.ready then Next(u, ReadyMoves(l, Vets(u.ready[l], identity))) else u
  }

  /**
   * A lease whose checks all succeed, and whose table is not already read from somewhere else, is filed: it is routed under
   * its key, readers may read, and nothing else has changed.
   */
  lemma {:induction false} GoodAnswersFile(t: Tenant, l: LeaseId, identity: Identity) returns (n: nat)
    requires Inv(t) && Vetting(t, l, identity)
    ensures Inv(ReadyAnswered(t, l, identity, n)) && Served(t, ReadyAnswered(t, l, identity, n), l, identity)
    decreases if l in t.ready then ChecksLeft(t.ready[l]) else 0
  {
    hide *;
    GoodAnswersVetOne(t, l, identity);
    if ChecksLeft(t.ready[l]) == 1 {
      n := 1;
      OneAnswer(t, l, identity);
    } else {
      var m := GoodAnswersFile(Next(t, ReadyMoves(l, Vets(t.ready[l], identity))), l, identity);
      n := m + 1;
      FiledOn(t, l, identity, m);
    }
  }

  lemma FiledOn(t: Tenant, l: LeaseId, identity: Identity, m: nat)
    requires l in t.ready
    requires var t' := Next(t, ReadyMoves(l, Vets(t.ready[l], identity)));
             && t'.index == t.index && t'.life == t.life
             && Inv(ReadyAnswered(t', l, identity, m)) && Served(t', ReadyAnswered(t', l, identity, m), l, identity)
    ensures Inv(ReadyAnswered(t, l, identity, m + 1)) && Served(t, ReadyAnswered(t, l, identity, m + 1), l, identity)
  {
    hide *;
    var t' := Next(t, ReadyMoves(l, Vets(t.ready[l], identity)));
    ReadyAnsweredFrom(t, l, identity, m);
    ServedSame(t, t', ReadyAnswered(t', l, identity, m), l, identity);
  }

  lemma OneAnswer(t: Tenant, l: LeaseId, identity: Identity)
    requires l in t.ready
    ensures ReadyAnswered(t, l, identity, 1) == Next(t, ReadyMoves(l, Vets(t.ready[l], identity)))
  {
    hide Next;
    assert ReadyAnswered(t, l, identity, 0) == t;
  }

  lemma ServedSame(t: Tenant, t1: Tenant, t2: Tenant, l: LeaseId, identity: Identity)
    requires Served(t1, t2, l, identity) && t1.index == t.index && t1.life == t.life
    ensures Served(t, t2, l, identity)
  {
    hide Working;
  }

  lemma {:induction false} ReadyAnsweredFrom(t: Tenant, l: LeaseId, identity: Identity, m: nat)
    requires l in t.ready
    ensures ReadyAnswered(t, l, identity, m + 1) == ReadyAnswered(Next(t, ReadyMoves(l, Vets(t.ready[l], identity))), l, identity, m)
  {
    hide Next;
    if m == 0 {
      assert ReadyAnswered(t, l, identity, 0) == t;
    } else {
      ReadyAnsweredFrom(t, l, identity, m - 1);
    }
  }
}
