/**
 * From a committed change to the value a subscriber sees, over a working listener: what `whenReady` and `isCurrent` tell a
 * held lease is the truth, so the read that a notification leads to is accepted and shown
 * (Source/Drizzle/PostgreSQLObservationManager.ts:120-151, DrizzleObservationSession.ts:43-51 and 114-172).
 */
module ObservationDelivery {
  import opened Options
  import opened ObservationGate
  import opened ObservationSystem
  import opened ObservationSystemEvents
  import Manager = PostgreSQLObservationManager
  import Entry = ObservationLifecycle
  import Promises = ObservationPromises
  import Session = DrizzleObservationSession
  import SessionEvents = DrizzleSessionEvents
  import Fence = FencedObservation

  // ---- what a lease is told ---------------------------------------------------------------------

  /**
   * `isCurrent` holds of the present generation of an available entry and of nothing else; `whenReady` refuses exactly the
   * released and the dead, and otherwise hands out a promise that is resolved with the present generation while a ready
   * entry is available, and pending while it recovers.
   */
  lemma LeasesAreToldTheTruth(t: Manager.Tenant, l: Manager.LeaseId, n: nat)
    requires Entry.Inv(t) && l in t.index.leases
    ensures var g := Promises.GateOf(t, l);
            && (g.IsCurrent(n) <==> !t.life.dead && t.life.available && n == t.life.generation)
            && (g.Refuses() <==> t.life.dead || t.index.leases[l].released)
            && g.promises != []
            && (!t.life.dead && t.life.wasReady ==>
                  g.promises[|g.promises| - 1] == if t.life.available then Resolved(t.life.generation) else Pending)
  {
    hide Entry.Base;
    assert t.life.promises != [] by { Promises.GateIsValid(t, l); }
  }

  // ---- from a notification to the screen --------------------------------------------------------

  /** A listener that works, a lease that is validated, and a subscriber that has seen something and waits for more. */
  ghost predicate Watching(y: System, l: Manager.LeaseId, key: Manager.Key) {
    && Inv(y, l) && !y.tenant.life.dead && y.tenant.life.available && y.tenant.life.wasReady
    && !Freed(y.tenant.index, l) && y.tenant.index.leases[l].key == Some(key)
    && y.session.reader.fenced && !y.session.reader.closed && y.session.reader.emitted && y.session.reader.hasValue
  }

  /** What the steps of a turn leave alone. */
  predicate SameWatch(y: System, y': System) {
    && y'.tenant == y.tenant.(log := y'.tenant.log)
    && y'.session.reader.fenced == y.session.reader.fenced && y'.session.reader.closed == y.session.reader.closed
    && y'.session.reader.emitted == y.session.reader.emitted && y'.session.reader.hasValue == y.session.reader.hasValue
    && y'.session.reader.past.emissions == y.session.reader.past.emissions
  }

  lemma StillWatching(y: System, y': System, l: Manager.LeaseId, key: Manager.Key)
    requires Watching(y, l, key) && SameWatch(y, y') && Inv(y', l)
    ensures Watching(y', l, key)
  {
    hide Inv;
  }

  predicate SameReader(r: Session.Reader, r': Session.Reader) {
    && r'.fenced == r.fenced && r'.closed == r.closed && r'.emitted == r.emitted && r'.hasValue == r.hasValue
    && r'.pumps == r.pumps && r'.past.emissions == r.past.emissions
  }

  lemma ScheduleSame(r: Session.Reader)
    ensures SameReader(r, Session.Schedule(r))
  {
  }

  lemma DirtiedSame(r: Session.Reader)
    ensures SameReader(r, Session.Dirtied(r))
  {
  }

  lemma ChangedSame(r: Session.Reader)
    ensures SameReader(r, Session.Changed(r, false))
  {
    DirtiedSame(r);
    ScheduleSame(Session.Dirtied(r));
    hide Session.Dirtied, Session.Schedule;
  }

  /** The notification reaches the session, whose next turn is scheduled. */
  lemma NotificationSchedules(y: System, l: Manager.LeaseId, key: Manager.Key)
    requires Watching(y, l, key) && y.session.reader.pumps == []
    ensures var y' := Step(y, l, EntryMoves(Manager.Notified(y.tenant.life.generation, key)));
            && Watching(y', l, key) && SameWatch(y, y') && y'.session.reader.pumps == [] && y'.session.reader.dirty
            && 0 < y'.session.reader.immediates
  {
    var e := Manager.Notified(y.tenant.life.generation, key);
    var y' := Step(y, l, EntryMoves(e));
    StepKeeps(y, l, EntryMoves(e));
    NotificationsAreHeard(y, l, key);
    NotificationReaches(y, l, key);
    ChangedSame(y.session.reader);
    StillWatching(y, y', l, key);
    DirtyIsScheduled(y', l);
    hide *;
  }

  lemma NotificationReaches(y: System, l: Manager.LeaseId, key: Manager.Key)
    requires Inv(y, l) && !y.session.reader.closed && !y.tenant.life.dead
    requires !Freed(y.tenant.index, l) && y.tenant.index.leases[l].key == Some(key)
    ensures Step(y, l, EntryMoves(Manager.Notified(y.tenant.life.generation, key))).session.reader == Session.Changed(y.session.reader, false)
  {
    NotificationSignals(y.tenant, l, key);
    OneSignal(y.session.reader, false);
    hide Inv, Manager.Next, Session.Changed, Fence.Deliver, Signals, Promises.Told;
  }

  lemma DirtyIsScheduled(y: System, l: Manager.LeaseId)
    requires Inv(y, l)
    ensures var r := y.session.reader; !r.closed && r.hasValue && r.dirty && r.emitted && r.pumps == [] ==> 0 < r.immediates
  {
    assert Session.Valid(y.session);
    hide Entry.Inv, Session.Asked;
  }

  lemma SessionSteps(y: System, l: Manager.LeaseId, e: Session.Event)
    requires e.ImmediateRuns? || e.PumpRuns?
    requires !Session.Next(y.session, Promises.GateOf(y.tenant, l), e).reader.closed
    ensures Step(y, l, SessionMoves(e)) == System(y.tenant, Session.Next(y.session, Promises.GateOf(y.tenant, l), e))
  {
    hide Session.Next;
  }

  lemma ImmediateSame(s: Session.Session, g: Gate)
    requires !s.reader.closed
    ensures var r, r' := s.reader, Session.Next(s, g, Session.ImmediateRuns).reader;
            && r'.fenced == r.fenced && r'.closed == r.closed && r'.emitted == r.emitted && r'.hasValue == r.hasValue
            && r'.past.emissions == r.past.emissions
  {
    if s.reader.immediates != 0 { StartSame(s.reader.(scheduled := false, immediates := s.reader.immediates - 1), g); }
    hide Session.Cancel, Session.PumpStart;
  }

  lemma StartSame(r: Session.Reader, g: Gate)
    ensures var r' := Session.PumpStart(r, g);
            && r'.fenced == r.fenced && r'.closed == r.closed && r'.emitted == r.emitted && r'.hasValue == r.hasValue
            && r'.past.emissions == r.past.emissions
  {
  }

  /** Its turn begins, and waits for a readiness that has come. */
  lemma TurnBegins(y: System, l: Manager.LeaseId, key: Manager.Key)
    requires Watching(y, l, key) && y.session.reader.pumps == [] && y.session.reader.dirty && 0 < y.session.reader.immediates
    ensures var y' := Step(y, l, SessionMoves(Session.ImmediateRuns)); var pumps := y'.session.reader.pumps;
            && Watching(y', l, key) && SameWatch(y, y') && |pumps| == 1
            && pumps[0].read == Session.AwaitGate(Session.Readiness(|y.tenant.life.promises| - 1))
            && 0 < |y.tenant.life.promises| && y.tenant.life.promises[|y.tenant.life.promises| - 1] == Resolved(y.tenant.life.generation)
  {
    var g := Promises.GateOf(y.tenant, l);
    assert Session.Valid(y.session);
    LeasesAreToldTheTruth(y.tenant, l, 0);
    SessionEvents.ScheduledTurnsBegin(y.session, g);
    ImmediateSame(y.session, g);
    hide Session.Next, Entry.Inv, Session.Valid, Fence.Fenced;
    SessionSteps(y, l, Session.ImmediateRuns);
    StepKeeps(y, l, SessionMoves(Session.ImmediateRuns));
    StillWatching(y, Step(y, l, SessionMoves(Session.ImmediateRuns)), l, key);
  }

  /** The read begins, under the generation that is live. */
  lemma ReadBegins(y: System, l: Manager.LeaseId, key: Manager.Key, j: nat)
    requires Watching(y, l, key) && |y.session.reader.pumps| == 1
    requires y.session.reader.pumps[0].read == Session.AwaitGate(Session.Readiness(j))
    requires j < |y.tenant.life.promises| && y.tenant.life.promises[j] == Resolved(y.tenant.life.generation)
    ensures var y' := Step(y, l, SessionMoves(Session.PumpRuns(0, None))); var pumps := y'.session.reader.pumps;
            && Watching(y', l, key) && SameWatch(y, y') && |pumps| == 1
            && pumps[0].read.Reading? && pumps[0].read.generation == y.tenant.life.generation
  {
    var g := Promises.GateOf(y.tenant, l);
    SessionEvents.ReadinessLetsRead(y.session.reader, g, j, None);
    SessionEvents.PumpGoesOn(y.session, g, 0, None, Session.Resume(y.session.reader, g, Session.AwaitGate(Session.Readiness(j)), None).value.read);
    hide Session.Next, Inv, Session.Resume;
    SessionSteps(y, l, Session.PumpRuns(0, None));
    StepKeeps(y, l, SessionMoves(Session.PumpRuns(0, None)));
    StillWatching(y, Step(y, l, SessionMoves(Session.PumpRuns(0, None))), l, key);
  }

  /** What it returns is accepted, and shown. */
  lemma ReadIsShown(y: System, l: Manager.LeaseId, key: Manager.Key, i: nat, value: Session.Snapshot)
    requires Watching(y, l, key) && i < |y.session.reader.pumps|
    requires y.session.reader.pumps[i].read.Reading? && y.session.reader.pumps[i].read.generation == y.tenant.life.generation
    ensures var y' := Step(y, l, SessionMoves(Session.PumpRuns(i, Some(value))));
            && y'.tenant == y.tenant && y'.session.reader.snapshot == value && !y'.session.reader.closed
            && y'.session.reader.past.emissions == y.session.reader.past.emissions + [value]
            && |Accepted(y')| == |Accepted(y)| + 1 && Accepted(y')[|Accepted(y)|].generation == y.tenant.life.generation
  {
    var g := Promises.GateOf(y.tenant, l);
    assert Session.Valid(y.session);
    LeasesAreToldTheTruth(y.tenant, l, y.tenant.life.generation);
    SessionEvents.PumpedValuesAreTaken(y.session, g, i, value);
    hide Session.Next, Entry.Inv, Session.Valid, Fence.Fenced;
    SessionSteps(y, l, Session.PumpRuns(i, Some(value)));
  }

  /** The steps from a notification to the end of the read it leads to. */
  function Delivery(y: System, l: Manager.LeaseId, key: Manager.Key, value: Session.Snapshot): System {
    var y1 := Step(y, l, EntryMoves(Manager.Notified(y.tenant.life.generation, key)));
    var y2 := Step(y1, l, SessionMoves(Session.ImmediateRuns));
    Step(Step(y2, l, SessionMoves(Session.PumpRuns(0, None))), l, SessionMoves(Session.PumpRuns(0, Some(value))))
  }

  /**
   * A change that is committed while a subscriber watches at rest reaches it: once the scheduled turn has run, its readiness
   * been awaited and its read returned, the subscriber has been shown exactly that read's value, under the listener that
   * announced the change.
   */
  lemma CommittedChangesAreShown(y: System, l: Manager.LeaseId, key: Manager.Key, value: Session.Snapshot)
    requires Watching(y, l, key) && y.session.reader.pumps == []
    ensures var y' := Delivery(y, l, key, value);
            && y'.session.reader.past.emissions == y.session.reader.past.emissions + [value]
            && y'.session.reader.snapshot == value && !y'.session.reader.closed && Inv(y', l)
            && y'.tenant == y.tenant.(log := y'.tenant.log)
  {
    hide Step, Watching, Inv, Accepted;
    var y1 := Step(y, l, EntryMoves(Manager.Notified(y.tenant.life.generation, key)));
    var y2 := Step(y1, l, SessionMoves(Session.ImmediateRuns));
    var y3 := Step(y2, l, SessionMoves(Session.PumpRuns(0, None)));
    NotificationSchedules(y, l, key);
    TurnBegins(y1, l, key);
    ReadBegins(y2, l, key, |y1.tenant.life.promises| - 1);
    ReadIsShown(y3, l, key, 0, value);
    WatchingKeeps(y3, l, key, SessionMoves(Session.PumpRuns(0, Some(value))));
  }

  lemma WatchingKeeps(y: System, l: Manager.LeaseId, key: Manager.Key, m: Move)
    requires Watching(y, l, key)
    ensures Inv(Step(y, l, m), l)
  {
    StepKeeps(y, l, m);
    hide Inv, Step;
  }
}
