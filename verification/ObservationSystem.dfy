/** The whole live observation: a PostgreSQL entry, one of its leases, and the session that reads under it. */
module ObservationSystem {
  import opened Options
  import opened ObservationGate
  import Manager = PostgreSQLObservationManager
  import Entry = ObservationLifecycle
  import Promises = ObservationPromises
  import Session = DrizzleObservationSession
  import Fence = FencedObservation

  datatype System = System(tenant: Manager.Tenant, session: Session.Session)

  datatype Move = EntryMoves(cause: Manager.Event) | SessionMoves(act: Session.Event)

  /** The `changed` callbacks a step made for one lease, with their catch-up flags. */
  function Signals(log: seq<Manager.Signal>, l: Manager.LeaseId): seq<bool> {
    if log == [] then []
    else if (log[0].kind.Invalidate? || log[0].kind.CatchUp?) && l in log[0].leases
    then [log[0].kind.CatchUp?] + Signals(log[1..], l) else Signals(log[1..], l)
  }

  predicate Freed(x: Manager.Index, l: Manager.LeaseId) {
    l !in x.leases || x.leases[l].released
  }

  /**
   * A step that releases the lease ends its session: through `fail`, through `complete`, or because the promise of its
   * first validation is rejected.
   */
  function Ending(t: Manager.Tenant, t': Manager.Tenant, l: Manager.LeaseId): Option<bool> {
    if !Freed(t.index, l) && Freed(t'.index, l) then Some(!Promises.Told(t'.log, Manager.Complete, l)) else None
  }

  function EntryStep(y: System, l: Manager.LeaseId, e: Manager.Event): System {
    var t := Manager.Next(y.tenant, e);
    var r := Fence.Deliver(y.session.reader, Signals(t.log, l));
    var ending := Ending(y.tenant, t, l);
    System(t, Session.Put(y.session, if ending.Some? then Session.End(r, ending.value) else r))
  }

  /** A session that closes releases its lease. */
  function SessionStep(y: System, l: Manager.LeaseId, e: Session.Event): System {
    var g := Promises.GateOf(y.tenant, l);
    if !Fence.Enabled(g, e) then y else
      var s := Session.Next(y.session, g, e);
      System(if s.reader.closed && !Freed(y.tenant.index, l) then Manager.Next(y.tenant, Manager.Released(l)) else y.tenant, s)
  }

  function Step(y: System, l: Manager.LeaseId, m: Move): System {
    match m
    case EntryMoves(e) => if e == Manager.Released(l) then y else EntryStep(y, l, e)
    case SessionMoves(e) => SessionStep(y, l, e)
  }

  function Run(y: System, l: Manager.LeaseId, trace: seq<Move>): System {
    if trace == [] then y else Step(Run(y, l, trace[..|trace| - 1]), l, trace[|trace| - 1])
  }

  ghost predicate Inv(y: System, l: Manager.LeaseId) {
    && Entry.Inv(y.tenant) && l in y.tenant.index.leases
    && Fence.Fenced(Fence.Observation(Promises.GateOf(y.tenant, l), y.session))
  }

  lemma {:induction false} SignalsCatchUp(log: seq<Manager.Signal>, l: Manager.LeaseId)
    ensures true in Signals(log, l) <==> Promises.Told(log, Manager.CatchUp, l)
  {
    if log != [] {
      SignalsCatchUp(log[1..], l);
      if Promises.Told(log[1..], Manager.CatchUp, l) {
        var i :| 0 <= i < |log[1..]| && log[1..][i].kind == Manager.CatchUp && l in log[1..][i].leases;
        assert log[i + 1] == log[1..][i];
      }
      if Promises.Told(log, Manager.CatchUp, l) {
        var i :| 0 <= i < |log| && log[i].kind == Manager.CatchUp && l in log[i].leases;
        if i != 0 { assert log[i] == log[1..][i - 1]; }
      }
    }
  }

  /** The step of the fence that a step of the entry is, seen from one of its leases. */
  function Seen(t: Manager.Tenant, t': Manager.Tenant, l: Manager.LeaseId): Fence.Step {
    Fence.EntryMoves(Promises.GateOf(t', l), Signals(t'.log, l), Ending(t, t', l))
  }

  /** Seen from its lease, a step of the entry is one the fence allows. */
  lemma EntryStepIsAllowed(t: Manager.Tenant, e: Manager.Event, l: Manager.LeaseId)
    requires Entry.Inv(t) && l in t.index.leases
    ensures Fence.Allowed(Promises.GateOf(t, l), Seen(t, Manager.Next(t, e), l))
    ensures l in Manager.Next(t, e).index.leases
  {
    Promises.EntryIsReliable(t, e, l);
    Promises.StepEndsOnce(t, e, l);
    SignalsCatchUp(Manager.Next(t, e).log, l);
    hide Entry.Inv, Manager.Next, Rely, Signals, Promises.Told;
  }

  lemma EntryStepKeeps(y: System, l: Manager.LeaseId, e: Manager.Event)
    requires Inv(y, l)
    ensures Inv(EntryStep(y, l, e), l)
  {
    Entry.NextKeeps(y.tenant, e);
    EntryStepIsAllowed(y.tenant, e, l);
    hide Entry.Inv, Fence.Fenced, Manager.Next, Fence.Allowed, Promises.GateOf, Signals, Ending;
    Fence.ApplyKeeps(Fence.Observation(Promises.GateOf(y.tenant, l), y.session), Seen(y.tenant, Manager.Next(y.tenant, e), l));
  }

  /** Releasing the lease of a session that has closed is a step the fence allows, too. */
  lemma ReleaseKeeps(t: Manager.Tenant, s: Session.Session, l: Manager.LeaseId)
    requires Inv(System(t, s), l) && s.reader.closed
    ensures Inv(System(Manager.Next(t, Manager.Released(l)), s), l)
  {
    EntryStepKeeps(System(t, s), l, Manager.Released(l));
    var y := EntryStep(System(t, s), l, Manager.Released(l));
    ClosedHearsNothing(s.reader, Signals(y.tenant.log, l));
    assert y.session.reader == s.reader && y.session.callers == s.callers;
    hide Inv;
  }

  lemma {:induction false} ClosedHearsNothing(r: Session.Reader, signals: seq<bool>)
    requires r.closed
    ensures Fence.Deliver(r, signals) == r
    decreases |signals|
  {
    if signals != [] { ClosedHearsNothing(r, signals[1..]); }
  }

  lemma SessionStepKeeps(y: System, l: Manager.LeaseId, e: Session.Event)
    requires Inv(y, l)
    ensures Inv(SessionStep(y, l, e), l)
  {
    var g := Promises.GateOf(y.tenant, l);
    if Fence.Enabled(g, e) {
      Fence.ApplyKeeps(Fence.Observation(g, y.session), Fence.SessionMoves(e));
      var s := Session.Next(y.session, g, e);
      hide Entry.Inv, Fence.Fenced, Session.Next, Manager.Next, Fence.Enabled;
      assert Inv(System(y.tenant, s), l);
      if s.reader.closed && !Freed(y.tenant.index, l) {
        ReleaseKeeps(y.tenant, s, l);
      }
    }
  }

  lemma StepKeeps(y: System, l: Manager.LeaseId, m: Move)
    requires Inv(y, l)
    ensures Inv(Step(y, l, m), l)
  {
    hide Inv, EntryStep, SessionStep;
    match m
    case EntryMoves(e) => if e != Manager.Released(l) { EntryStepKeeps(y, l, e); }
    case SessionMoves(e) => SessionStepKeeps(y, l, e);
  }

  lemma {:induction false} RunKeeps(y: System, l: Manager.LeaseId, trace: seq<Move>)
    requires Inv(y, l)
    ensures Inv(Run(y, l, trace), l)
  {
    if trace != [] {
      var last := |trace| - 1;
      RunKeeps(y, l, trace[..last]);
      hide Inv, Step;
      StepKeeps(Run(y, l, trace[..last]), l, trace[last]);
    }
  }

  /** A session is opened over a lease that was just acquired, from an entry that exists or from one created for it. */
  function Start(t: Manager.Tenant): System {
    System(t, Session.Open(true))
  }

  lemma StartIsFenced(t: Manager.Tenant, l: Manager.LeaseId)
    requires Entry.Inv(t) && l in t.index.leases && !t.index.leases[l].released
    ensures Inv(Start(t), l)
  {
    Promises.GateIsValid(t, l);
    Fence.RunKeeps(Promises.GateOf(t, l), []);
    hide Entry.Inv, Fence.Fenced;
  }

  /**
   * Generation fencing, end to end: in every run of an entry and one of its sessions, whatever the connections, timers,
   * notifications and other leases do, every accepted value was read wholly inside one listener generation.
   */
  lemma EveryAcceptedReadIsUnbroken(t: Manager.Tenant, l: Manager.LeaseId, trace: seq<Move>, i: nat)
    requires Entry.Inv(t) && l in t.index.leases && !t.index.leases[l].released
    requires i < |Run(Start(t), l, trace).session.reader.past.accepted|
    ensures Fence.Unbroken(Run(Start(t), l, trace).session.reader.past.accepted[i])
  {
    StartIsFenced(t, l);
    RunKeeps(Start(t), l, trace);
    hide Run, Entry.Inv;
  }

  /** Every catch-up is served by a read that began after it was asked for, and nobody is answered from before their wait. */
  lemma EveryWaitIsServedAfresh(t: Manager.Tenant, l: Manager.LeaseId, trace: seq<Move>)
    requires Entry.Inv(t) && l in t.index.leases && !t.index.leases[l].released
    ensures var s := Run(Start(t), l, trace).session;
            && (forall i :: 0 <= i < |s.reader.past.retired| ==> Fence.Served(s.reader.past.retired[i]))
            && (forall i :: 0 <= i < |s.answers| ==> s.answers[i].admitted <= s.answers[i].generation)
  {
    StartIsFenced(t, l);
    RunKeeps(Start(t), l, trace);
    hide Run, Entry.Inv;
  }

  /**
   * After any run, an open session at rest over an available entry shows a snapshot that was read under the entry's
   * present connection, after the last change it was told of; and a session whose lease is gone is closed.
   */
  lemma RestingSystemIsCurrent(t: Manager.Tenant, l: Manager.LeaseId, trace: seq<Move>)
    requires Entry.Inv(t) && l in t.index.leases && !t.index.leases[l].released
    ensures var y := Run(Start(t), l, trace);
            && (Freed(y.tenant.index, l) ==> y.session.reader.closed)
            && (y.session.reader.emitted && !y.session.reader.closed && Session.Quiescent(y.session.reader)
                && y.tenant.life.available && !y.tenant.life.dead ==>
                  && y.session.reader.origin.Some?
                  && y.session.reader.origin.value.generation == y.tenant.life.generation
                  && y.session.reader.origin.value.start.changes == y.session.reader.past.changes
                  && y.session.reader.past.emissions != []
                  && y.session.reader.past.emissions[|y.session.reader.past.emissions| - 1] == y.session.reader.origin.value.value)
  {
    StartIsFenced(t, l);
    RunKeeps(Start(t), l, trace);
    hide Run, Entry.Inv;
  }
}
