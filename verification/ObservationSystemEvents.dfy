/**
 * What happens to a connection, a table or a lease, followed all the way to the session: no accepted read spans bad news
 * about its listener, every notification is heard, and a session and its lease end together.
 */
module ObservationSystemEvents {
  import opened Options
  import opened ObservationGate
  import opened ObservationSystem
  import Manager = PostgreSQLObservationManager
  import Entry = ObservationLifecycle
  import Events = ObservationEvents
  import Promises = ObservationPromises
  import Routing = ObservationRouting
  import Session = DrizzleObservationSession
  import SessionEvents = DrizzleSessionEvents
  import SessionOutcomes = DrizzleSessionOutcomes
  import Fence = FencedObservation

  // ---- no accepted read spans a loss ------------------------------------------------------------

  /** Bad news about the connection the entry has at that moment. */
  predicate Breaks(y: System, m: Move) {
    m.EntryMoves? && Events.LosesListener(y.tenant, m.cause)
  }

  function Accepted(y: System): seq<Session.Acceptance> {
    y.session.reader.past.accepted
  }

  /** The entry has moved on from a generation, and every value accepted since was read wholly after that. */
  ghost predicate Past(y: System, from: nat, generation: nat, losses: nat) {
    && generation < y.tenant.life.generation && losses < y.tenant.life.losses
    && from <= |Accepted(y)|
    && forall n :: from <= n < |Accepted(y)| ==> generation < Accepted(y)[n].generation && losses < Accepted(y)[n].start.losses
  }

  lemma EntryTakesNothing(y: System, l: Manager.LeaseId, e: Manager.Event)
    requires Inv(y, l)
    ensures Accepted(EntryStep(y, l, e)) == Accepted(y)
  {
    var t := Manager.Next(y.tenant, e);
    Fence.DeliverFacts(y.session.reader, Signals(t.log, l));
    hide Inv, Fence.Deliver, Manager.Next, Session.Inv, Signals, Ending;
  }

  /** Generations and losses only grow, in every step of entry or session. */
  lemma TenantGrows(t: Manager.Tenant, e: Manager.Event, l: Manager.LeaseId)
    requires Entry.Inv(t) && l in t.index.leases
    ensures var t' := Manager.Next(t, e); t.life.generation <= t'.life.generation && t.life.losses <= t'.life.losses
  {
    Promises.EntryIsReliable(t, e, l);
    hide Entry.Inv, Manager.Next, Promises.Told;
  }

  lemma StepGrows(y: System, l: Manager.LeaseId, m: Move)
    requires Inv(y, l)
    ensures var t' := Step(y, l, m).tenant; y.tenant.life.generation <= t'.life.generation && y.tenant.life.losses <= t'.life.losses
  {
    match m
    case EntryMoves(e) => TenantGrows(y.tenant, e, l);
    case SessionMoves(_) => TenantGrows(y.tenant, Manager.Released(l), l);
    hide Entry.Inv, Manager.Next, Session.Next, Fence.Enabled, Signals, Ending;
  }

  /** A step accepts at most one value, read under the entry's generation of that moment, with no loss since it began. */
  lemma StepTakesNow(y: System, l: Manager.LeaseId, m: Move)
    requires Inv(y, l)
    ensures var a, a' := Accepted(y), Accepted(Step(y, l, m));
            || a' == a
            || (|a'| == |a| + 1 && a'[..|a|] == a
                && a'[|a|].generation == y.tenant.life.generation && a'[|a|].finish.losses == y.tenant.life.losses)
  {
    match m
    case EntryMoves(e) =>
      if e != Manager.Released(l) { EntryTakesNothing(y, l, e); }
      hide EntryStep;
    case SessionMoves(e) =>
      var g := Promises.GateOf(y.tenant, l);
      assert y.session.reader.fenced;
      SessionEvents.ValuesAreTakenNow(y.session, g, e);
      hide Inv, Entry.Inv, Manager.Next, Session.Next, Fence.Enabled;
  }

  lemma AllUnbroken(y: System, l: Manager.LeaseId)
    requires Inv(y, l)
    ensures forall n :: 0 <= n < |Accepted(y)| ==> Fence.Unbroken(Accepted(y)[n])
  {
    assert Fence.Past(y.session.reader.past);
  }

  lemma StepStaysPast(y: System, l: Manager.LeaseId, m: Move, from: nat, generation: nat, losses: nat)
    requires Inv(y, l) && Past(y, from, generation, losses)
    ensures Past(Step(y, l, m), from, generation, losses)
  {
    hide Inv, Step;
    var y' := Step(y, l, m);
    StepGrows(y, l, m);
    StepTakesNow(y, l, m);
    StepKeeps(y, l, m);
    AllUnbroken(y', l);
    var a, a' := Accepted(y), Accepted(y');
    hide Accepted;
    forall n | from <= n < |a'|
      ensures generation < a'[n].generation && losses < a'[n].start.losses
    {
      assert Fence.Unbroken(a'[n]);
      if n < |a| { assert a'[n] == a[n] by { if a' != a { assert a'[n] == a'[..|a|][n]; } } }
    }
  }

  lemma BreakIsPast(y: System, l: Manager.LeaseId, m: Move)
    requires Inv(y, l) && Breaks(y, m)
    ensures Past(Step(y, l, m), |Accepted(y)|, y.tenant.life.generation, y.tenant.life.losses)
  {
    EntryTakesNothing(y, l, m.cause);
    Events.BadNewsIsALoss(y.tenant, m.cause);
    hide Inv, Entry.Inv, Manager.Next, Signals, Ending, Events.LosesListener;
  }

  /**
   * Whenever the connection drops, an operation on it times out or its heartbeat fails, no value accepted later was read
   * under that generation or an earlier one, and every read that was under way at that moment was: nothing that overlapped
   * the loss ever becomes a snapshot.
   */
  lemma {:induction false} NoAcceptedReadSpansALoss(t: Manager.Tenant, l: Manager.LeaseId, trace: seq<Move>, k: nat, n: nat)
    requires Entry.Inv(t) && l in t.index.leases && !t.index.leases[l].released
    requires k < |trace| && Breaks(Run(Start(t), l, trace[..k]), trace[k])
    requires |Accepted(Run(Start(t), l, trace[..k]))| <= n < |Accepted(Run(Start(t), l, trace))|
    ensures var y := Run(Start(t), l, trace[..k]); var r := y.session.reader; var a := Accepted(Run(Start(t), l, trace))[n];
            && y.tenant.life.generation < a.generation && y.tenant.life.losses < a.start.losses
            && (r.initial.InitialRead? && r.initial.read.Reading? ==> r.initial.read.generation <= y.tenant.life.generation)
            && (forall i :: 0 <= i < |r.pumps| && r.pumps[i].read.Reading? ==> r.pumps[i].read.generation <= y.tenant.life.generation)
  {
    StartIsFenced(t, l);
    RunKeeps(Start(t), l, trace[..k]);
    var y := Run(Start(t), l, trace[..k]);
    ReadsAreNoNewer(y, l);
    hide Inv, Breaks, Run, Entry.Inv;
    StaysPast(t, l, trace, k);
  }

  lemma ReadsAreNoNewer(y: System, l: Manager.LeaseId)
    requires Inv(y, l)
    ensures var r := y.session.reader;
            && (r.initial.InitialRead? && r.initial.read.Reading? ==> r.initial.read.generation <= y.tenant.life.generation)
            && (forall i :: 0 <= i < |r.pumps| && r.pumps[i].read.Reading? ==> r.pumps[i].read.generation <= y.tenant.life.generation)
  {
    var g := Promises.GateOf(y.tenant, l);
    assert g.Valid() && Fence.Reads(g, y.session.reader);
    hide Entry.Inv;
  }

  lemma {:induction false} StaysPast(t: Manager.Tenant, l: Manager.LeaseId, trace: seq<Move>, k: nat)
    requires Entry.Inv(t) && l in t.index.leases && !t.index.leases[l].released
    requires k < |trace| && Breaks(Run(Start(t), l, trace[..k]), trace[k])
    ensures var y := Run(Start(t), l, trace[..k]);
            Past(Run(Start(t), l, trace), |Accepted(y)|, y.tenant.life.generation, y.tenant.life.losses)
    decreases |trace|
  {
    hide *;
    var last := |trace| - 1;
    StartIsFenced(t, l);
    RunKeeps(Start(t), l, trace[..last]);
    RunsOn(Start(t), l, trace);
    var y := Run(Start(t), l, trace[..k]);
    if k == last {
      BreakIsPast(y, l, trace[k]);
    } else {
      assert trace[..last][..k] == trace[..k] && trace[..last][k] == trace[k];
      StaysPast(t, l, trace[..last], k);
      StepStaysPast(Run(Start(t), l, trace[..last]), l, trace[last], |Accepted(y)|, y.tenant.life.generation, y.tenant.life.losses);
    }
  }

  lemma RunsOn(y: System, l: Manager.LeaseId, trace: seq<Move>)
    requires trace != []
    ensures var last := |trace| - 1; Run(y, l, trace) == Step(Run(y, l, trace[..last]), l, trace[last])
  {
    hide Step;
  }

  // ---- notifications ----------------------------------------------------------------------------

  lemma OneSignal(r: Session.Reader, catchup: bool)
    ensures Fence.Deliver(r, [catchup]) == Session.Changed(r, catchup)
  {
    assert Fence.Deliver(Session.Changed(r, catchup), []) == Session.Changed(r, catchup);
    hide Session.Changed;
  }

  lemma NotificationOnlyTells(t: Manager.Tenant, generation: nat, key: Manager.Key)
    ensures var t' := Manager.Next(t, Manager.Notified(generation, key)); t' == t.(log := t'.log)
  {
  }

  lemma OneSignalFor(signal: Manager.Signal, l: Manager.LeaseId)
    requires signal.kind.Invalidate? && l in signal.leases
    ensures Signals([signal], l) == [false]
  {
    assert [signal][1..] == [];
    assert Signals([], l) == [];
  }

  /** A notification changes nothing of an entry, and tells each held lease of the table once that something changed. */
  lemma NotificationSignals(t: Manager.Tenant, l: Manager.LeaseId, key: Manager.Key)
    requires Entry.Inv(t) && !t.life.dead && !Freed(t.index, l) && t.index.leases[l].key == Some(key)
    ensures var t' := Manager.Next(t, Manager.Notified(t.life.generation, key));
            t' == t.(log := t'.log) && Signals(t'.log, l) == [false]
  {
    assert Routing.Valid(t.index);
    hide Entry.Inv, Routing.Valid, Manager.Next, Manager.Reached, Signals;
    NotificationOnlyTells(t, t.life.generation, key);
    Entry.SentIsReached(t, t.life.generation, key);
    Entry.FiledIsRouted(t.index, l);
    Routing.ReachesExactly(t.index, key, l);
    OneSignalFor(Manager.Signal(Manager.Invalidate, Manager.Reached(t.index.members, t.index.routing[key])), l);
  }

  /** A notification for the table of a held, validated lease makes its open session dirty, and counts as a change. */
  lemma NotificationsAreHeard(y: System, l: Manager.LeaseId, key: Manager.Key)
    requires Inv(y, l) && !y.session.reader.closed && !y.tenant.life.dead
    requires !Freed(y.tenant.index, l) && y.tenant.index.leases[l].key == Some(key)
    ensures var y' := Step(y, l, EntryMoves(Manager.Notified(y.tenant.life.generation, key)));
            && y'.session.reader.past.changes == y.session.reader.past.changes + 1
            && y'.session.reader.dirty && !y'.session.reader.closed
            && (y.session.reader.subscriber ==> 0 < y'.session.reader.immediates || y'.session.reader.pumps != [])
            && y'.tenant == y.tenant.(log := y'.tenant.log)
  {
    NotificationSignals(y.tenant, l, key);
    OneSignal(y.session.reader, false);
    ChangesAreHeard(y, l);
    hide Inv, Manager.Next, Session.Changed, Fence.Deliver, Signals, Promises.Told;
  }

  lemma ChangesAreHeard(y: System, l: Manager.LeaseId)
    requires Inv(y, l) && !y.session.reader.closed
    ensures var r, r' := y.session.reader, Session.Changed(y.session.reader, false);
            && r'.past.changes == r.past.changes + 1 && r'.dirty && !r'.closed
            && (r.subscriber ==> 0 < r'.immediates || r'.pumps != [])
  {
    var g := Promises.GateOf(y.tenant, l);
    SessionEvents.ChangesAreNoted(y.session, g, false);
    SessionEvents.ReaderCounts(y.session.reader, g, Session.SourceChanged(false));
    hide Inv, Session.Changed;
  }

  // ---- a session and its lease end together -----------------------------------------------------

  ghost predicate EndTogether(y: System, l: Manager.LeaseId) {
    y.session.reader.closed <==> Freed(y.tenant.index, l)
  }

  lemma StepEndsTogether(y: System, l: Manager.LeaseId, m: Move)
    requires Inv(y, l) && EndTogether(y, l)
    ensures EndTogether(Step(y, l, m), l)
  {
    StepKeeps(y, l, m);
    match m
    case EntryMoves(e) =>
      var t := Manager.Next(y.tenant, e);
      Fence.DeliverFacts(y.session.reader, Signals(t.log, l));
      Promises.StepEndsOnce(y.tenant, e, l);
      hide Inv, Manager.Next, Fence.Deliver, Promises.TellsEnd, Promises.Told, Session.Inv;
    case SessionMoves(e) =>
      if !Freed(y.tenant.index, l) {
        Events.ReleasedLeasesAreGone(y.tenant, l);
      }
      ClosedStays(y.session, Promises.GateOf(y.tenant, l), e);
      hide Inv, Entry.Inv, Manager.Next, Session.Next, Fence.Enabled, Events.OthersStay;
  }

  lemma ClosedStays(s: Session.Session, g: Gate, e: Session.Event)
    ensures s.reader.closed ==> Session.Next(s, g, e).reader.closed
  {
    if s.reader.closed { SessionOutcomes.ClosedSessionRests(s, g, e); }
    hide Session.Next;
  }

  /** After any run a session is closed exactly when its lease has been let go: neither outlives the other. */
  lemma {:induction false} SessionsEndWithTheirLeases(t: Manager.Tenant, l: Manager.LeaseId, trace: seq<Move>)
    requires Entry.Inv(t) && l in t.index.leases && !t.index.leases[l].released
    ensures var y := Run(Start(t), l, trace); y.session.reader.closed <==> Freed(y.tenant.index, l)
  {
    if trace != [] {
      var last := |trace| - 1;
      SessionsEndWithTheirLeases(t, l, trace[..last]);
      StartIsFenced(t, l);
      RunKeeps(Start(t), l, trace[..last]);
      hide Inv, Step, Freed, Entry.Inv;
      StepEndsTogether(Run(Start(t), l, trace[..last]), l, trace[last]);
    }
  }
}
