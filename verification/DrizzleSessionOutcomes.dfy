/** What a session owes, shows and answers, over all its runs. */
module DrizzleSessionOutcomes {
  import opened Options
  import opened ObservationGate
  import opened DrizzleObservationSession

  // ---- owed reads -------------------------------------------------------------------------------

  /** Somebody adopted the session and waits for the first emission. */
  predicate Adopting(callers: map<nat, Caller>) {
    exists id :: id in callers && callers[id].kind.Adopter?
  }

  ghost predicate Attended(s: Session) {
    s.reader.subscriber && !s.reader.emitted && !s.reader.closed ==> Adopting(s.callers)
  }

  lemma FinishAttends(s: Session, r: Reader, id: nat, generation: nat)
    requires Attended(s) && id in s.callers && (s.reader.closed ==> r.closed)
    requires r.subscriber == s.reader.subscriber && r.emitted == s.reader.emitted
    ensures Attended(CallerFinish(s, r, id, generation))
  {
    if Attended(s) && Adopting(s.callers) && !s.callers[id].kind.Adopter? {
      var other :| other in s.callers && s.callers[other].kind.Adopter?;
      assert other in s.callers - {id};
    }
  }

  lemma WaitAttends(s: Session, r: Reader, id: nat, pc: CallerPc)
    requires Attended(s) && id in s.callers && (s.reader.closed ==> r.closed)
    requires r.subscriber == s.reader.subscriber && r.emitted == s.reader.emitted
    ensures Attended(s.(reader := r, callers := s.callers[id := s.callers[id].(pc := pc)]))
  {
    var callers := s.callers[id := s.callers[id].(pc := pc)];
    if Adopting(s.callers) {
      var other :| other in s.callers && s.callers[other].kind.Adopter?;
      assert other in callers && callers[other].kind.Adopter?;
    }
  }

  lemma PumpStartOnlyReads(r: Reader, g: Gate)
    ensures PumpStart(r, g).closed == r.closed
  {
  }

  lemma AdmittedAttends(s: Session, g: Gate, id: nat, generation: nat)
    requires Attended(s) && id in s.callers
    ensures Attended(CallerAdmitted(s, g, id, generation))
  {
    PumpStartSettles(s.reader, g);
    PumpStartOnlyReads(s.reader, g);
    var r := if MustRead(s.reader) then PumpStart(s.reader, g) else s.reader;
    hide Attended, PumpStart, MustRead, CallerFinish;
    if MustRead(s.reader) && WaiterOf(r).Some? {
      WaitAttends(s, r, id, AwaitWaiter(generation, WaiterOf(r).value));
    } else {
      FinishAttends(s, r, id, generation);
    }
  }

  lemma FailureAttends(s: Session, id: nat)
    requires Attended(s) && id in s.callers
    ensures Attended(CallerFails(s, id))
  {
    if Adopting(s.callers) && !s.callers[id].kind.Adopter? {
      var other :| other in s.callers && s.callers[other].kind.Adopter?;
      assert other in s.callers - {id};
    }
  }

  lemma CallerAttends(s: Session, g: Gate, id: nat)
    requires Attended(s)
    ensures Attended(CallerStep(s, g, id))
  {
    if id in s.callers {
      FailureAttends(s, id);
      hide Attended, CallerAdmitted, CallerFinish, CallerFails;
      match s.callers[id].pc
      case AwaitInitial =>
        AdmittedAttends(s, g, id, 0);
        if !g.Refuses() { WaitAttends(s, s.reader, id, AwaitReady(|g.promises| - 1)); }
      case AwaitReady(i) =>
        if i < |g.promises| && g.promises[i].Resolved? { AdmittedAttends(s, g, id, g.promises[i].generation); }
      case AwaitWaiter(generation, _) => FinishAttends(s, s.reader, id, generation);
    }
  }

  lemma JoiningAttends(s: Session, id: nat)
    requires Attended(s)
    ensures Attended(Adopt(s, id)) && Attended(Current(s, id))
  {
    var adopted, asked := s.callers[id := Caller(Adopter, AwaitInitial)], s.callers[id := Caller(Asker, AwaitInitial)];
    assert id in adopted && adopted[id].kind.Adopter?;
    if Adopting(s.callers) && id !in s.callers {
      var other :| other in s.callers && s.callers[other].kind.Adopter?;
      assert other in asked && asked[other].kind.Adopter?;
    }
  }

  lemma NextAttends(s: Session, g: Gate, e: Event)
    requires Attended(s)
    ensures Attended(Next(s, g, e))
  {
    hide CallerStep, Adopt, Current, ReaderNext, Cancel;
    match e
    case Adopts(id) => JoiningAttends(s, id);
    case Asks(id) => JoiningAttends(s, id);
    case CallerRuns(id) => CallerAttends(s, g, id);
    case _ =>
      ReaderSettles(s.reader, g, e);
      if s.reader.closed { ClosedReaderRests(s.reader, g, e); }
  }

  lemma {:induction false} RunAttends(fenced: bool, trace: seq<(Gate, Event)>)
    ensures Attended(Run(Open(fenced), trace))
  {
    if trace != [] {
      var last := |trace| - 1;
      RunAttends(fenced, trace[..last]);
      hide Attended, Next;
      NextAttends(Run(Open(fenced), trace[..last]), trace[last].0, trace[last].1);
    }
  }

  /**
   * An open session that owes a catch-up has a read scheduled or running. So has a dirty one that was adopted, unless its
   * adopter still waits for the first emission, which schedules the read.
   */
  lemma OwedReadsAreOnTheirWay(fenced: bool, trace: seq<(Gate, Event)>)
    requires var r := Run(Open(fenced), trace).reader; !r.closed && r.hasValue
    ensures var s := Run(Open(fenced), trace); s.reader.catchup ==> 0 < s.reader.immediates || s.reader.pumps != []
    ensures var s := Run(Open(fenced), trace);
            s.reader.dirty && s.reader.subscriber ==>
              0 < s.reader.immediates || s.reader.pumps != [] || (!s.reader.emitted && Adopting(s.callers))
  {
    RunKeeps(fenced, trace);
    RunAttends(fenced, trace);
    hide Run;
  }

  /**
   * At rest, a subscriber whose adoption is over sees the session's snapshot, that snapshot's read began after the last
   * change, and no catch-up is owed: whether or not it had seen anything before.
   */
  lemma RestingSubscribersAreUpToDate(fenced: bool, trace: seq<(Gate, Event)>)
    requires var s := Run(Open(fenced), trace);
             s.reader.subscriber && !s.reader.closed && Quiescent(s.reader) && !Adopting(s.callers)
    ensures var r := Run(Open(fenced), trace).reader;
            && r.emitted && !r.dirty && !r.catchup
            && r.past.emissions != [] && r.past.emissions[|r.past.emissions| - 1] == r.snapshot
            && r.origin.Some? && r.origin.value.value == r.snapshot && r.origin.value.start.changes == r.past.changes
  {
    RunAttends(fenced, trace);
    RestingSessionHasConverged(fenced, trace);
    hide Run;
  }

  /** The adopter's first emission sees to what is still owed. */
  lemma FirstEmissionsAreFollowedUp(s: Session, id: nat, generation: nat)
    requires Valid(s) && id in s.callers && s.callers[id].kind.Adopter? && s.reader.hasValue && !s.reader.closed
    ensures var r := CallerFinish(s, s.reader, id, generation).reader;
            r.emitted && (r.dirty ==> 0 < r.immediates || r.pumps != [])
            && r.past.emissions == s.reader.past.emissions + [s.reader.snapshot]
  {
    assert s.reader.subscriber;
    FirstEmissionKeeps(s.reader);
  }

  /** No change is forgotten: until a read that began after the last one is accepted, a read after it is still owed. */
  lemma UnreadChangesStayOwed(fenced: bool, trace: seq<(Gate, Event)>)
    requires var r := Run(Open(fenced), trace).reader; !r.closed && r.hasValue
    ensures var r := Run(Open(fenced), trace).reader;
            && r.origin.Some? && r.origin.value.value == r.snapshot
            && (r.origin.value.start.changes != r.past.changes ==>
                  r.dirty || (r.pumps != [] && r.pumps[0].floor == r.past.changes
                              && (r.pumps[0].read.Reading? ==> r.pumps[0].read.since.changes == r.past.changes)))
  {
    RunKeeps(fenced, trace);
    hide Run;
  }

  /** Nobody waits for a promise that nobody will settle: at rest, whoever waits for a read can go on. */
  lemma NobodyWaitsAtRest(fenced: bool, trace: seq<(Gate, Event)>, id: nat)
    requires var s := Run(Open(fenced), trace);
             Quiescent(s.reader) && id in s.callers && s.callers[id].pc.AwaitWaiter?
    ensures var s := Run(Open(fenced), trace); !Outstanding(s.reader, s.callers[id].pc.waiter)
  {
    RunKeeps(fenced, trace);
    hide Run;
    assert Run(Open(fenced), trace).reader.hasValue;
  }

  // ---- the end ----------------------------------------------------------------------------------

  /** Nothing is read, shown or forgiven any more. */
  predicate Rests(r: Reader, r': Reader) {
    && r'.closed && r'.failed == r.failed && r'.past == r.past && r'.released == r.released
    && r'.catchup == r.catchup && r'.catchupFinished == r.catchupFinished && r'.snapshot == r.snapshot
  }

  lemma StillRests(r: Reader)
    requires r.closed
    ensures Rests(r, r)
  {
  }

  lemma ClosedInitialRests(r: Reader, g: Gate, o: Outcome)
    requires r.closed
    ensures Rests(r, InitialOutcome(r, g, o))
  {
    hide Accept, Schedule;
  }

  lemma StopRests(r: Reader, i: nat)
    requires r.closed && i < |r.pumps|
    ensures Rests(r, PumpStops(r, i))
  {
    hide Without;
  }

  lemma ClosedPumpRests(r: Reader, g: Gate, i: nat, o: Outcome)
    requires r.closed && i < |r.pumps|
    ensures Rests(r, PumpOutcome(r, g, i, o))
  {
    StopRests(r, i);
    hide PumpStops, PumpAccepts, PumpLoop;
  }

  lemma ClosedReaderRests(r: Reader, g: Gate, e: Event)
    requires r.closed
    ensures Rests(r, ReaderNext(r, g, e))
  {
    StillRests(r);
    assert Rests(r, Immediate(r, g)) by { hide PumpStart; }
    hide Rests, InitialOutcome, PumpOutcome, Immediate, Resume, Schedule;
    match e
    case LeaseReady => ClosedInitialRests(r, g, ReadTop(r, g));
    case LeaseRefused => ClosedInitialRests(r, g, Threw);
    case InitialRuns(result) =>
      if r.initial.InitialRead? {
        var o := Resume(r, g, r.initial.read, result);
        if o.Some? { ClosedInitialRests(r, g, o.value); }
      }
    case PumpRuns(i, result) =>
      if i < |r.pumps| {
        var o := Resume(r, g, r.pumps[i].read, result);
        if o.Some? { ClosedPumpRests(r, g, i, o.value); }
      }
    case _ =>
  }

  lemma ClosedCallerRests(s: Session, g: Gate, id: nat)
    requires s.reader.closed
    ensures CallerStep(s, g, id).reader == s.reader && CallerStep(s, g, id).answers == s.answers
  {
    assert PumpStart(s.reader, g) == s.reader;
    hide PumpStart, FirstEmission, Cancel;
  }

  lemma ClosedSessionRests(s: Session, g: Gate, e: Event)
    requires s.reader.closed
    ensures Rests(s.reader, Next(s, g, e).reader) && Next(s, g, e).answers == s.answers
  {
    hide ReaderNext, CallerStep, Rests, Cancel;
    StillRests(s.reader);
    ClosedReaderRests(s.reader, g, e);
    if e.CallerRuns? { ClosedCallerRests(s, g, e.id); }
  }

  /**
   * A session that has failed or was closed has released its lease and every catch-up waiter; from then on it accepts,
   * shows and answers nothing, and how it ended stays.
   */
  lemma {:induction false} ClosedForGood(fenced: bool, before: seq<(Gate, Event)>, after: seq<(Gate, Event)>)
    requires Run(Open(fenced), before).reader.closed
    ensures var r := Run(Open(fenced), before).reader; r.released && !r.catchup && r.catchupFinished.None?
    ensures var s, s' := Run(Open(fenced), before), Run(Open(fenced), before + after);
            Rests(s.reader, s'.reader) && s'.answers == s.answers
    decreases |after|
  {
    hide Rests, Run, Next, Open;
    ClosedOwesNothing(fenced, before);
    if after == [] {
      assert before + after == before;
      StillRests(Run(Open(fenced), before).reader);
    } else {
      var last := |after| - 1;
      var s, s' := Run(Open(fenced), before), Run(Open(fenced), before + after[..last]);
      ClosedForGood(fenced, before, after[..last]);
      RunOn(fenced, before + after[..last], after[last]);
      assert before + after == before + after[..last] + [after[last]];
      RestsTwice(s.reader, s'.reader, s'.reader);
      ClosedSessionRests(s', after[last].0, after[last].1);
      RestsTwice(s.reader, s'.reader, Next(s', after[last].0, after[last].1).reader);
    }
  }

  lemma ClosedOwesNothing(fenced: bool, trace: seq<(Gate, Event)>)
    ensures var r := Run(Open(fenced), trace).reader; r.closed ==> r.released && !r.catchup && r.catchupFinished.None?
  {
    RunKeeps(fenced, trace);
    hide Run;
  }

  lemma RunOn(fenced: bool, trace: seq<(Gate, Event)>, next: (Gate, Event))
    ensures Run(Open(fenced), trace + [next]) == Next(Run(Open(fenced), trace), next.0, next.1)
  {
    assert (trace + [next])[..|trace|] == trace;
    hide Next;
  }

  lemma RestsTwice(r: Reader, r': Reader, r'': Reader)
    requires Rests(r, r')
    ensures r'.closed
    ensures Rests(r', r'') ==> Rests(r, r'')
  {
  }

  // ---- turns ------------------------------------------------------------------------------------

  /**
   * A turn of the pump that has ended is followed by another exactly when a value was accepted, the session is open and
   * something changed meanwhile; an accepted value becomes the snapshot, and what the subscriber sees.
   */
  lemma TurnsShowWhatTheyRead(s: Reader, g: Gate, i: nat, o: Outcome)
    requires Inv(s) && i < |s.pumps| && !o.Again?
    ensures var r := PumpOutcome(s, g, i, o);
            && (r.pumps != [] <==> o.Accepted? && !s.closed && s.dirty)
            && (r.pumps != [] ==> !r.dirty && r.pumps[0].floor == s.past.changes && r.pumps[0].catchingUp == r.catchup)
            && (o.Accepted? && !s.closed ==>
                  r.snapshot == o.value && r.past.emissions == s.past.emissions + if s.emitted then [o.value] else [])
            && (o.Threw? ==> r.closed && r.snapshot == s.snapshot && r.past == s.past)
  {
    assert |s.pumps| == 1;
    hide Inv, PumpOutcome;
    if o.Accepted? && !s.closed { AcceptedTurn(s, g, i, o); } else { LastTurn(s, g, i, o); }
  }

  lemma AcceptedTurn(s: Reader, g: Gate, i: nat, o: Outcome)
    requires i < |s.pumps| == 1 && o.Accepted? && !s.closed
    ensures var r := PumpOutcome(s, g, i, o);
            && (r.pumps != [] <==> s.dirty)
            && (r.pumps != [] ==> !r.dirty && r.pumps[0].floor == s.past.changes && r.pumps[0].catchingUp == r.catchup)
            && r.snapshot == o.value && r.past.emissions == s.past.emissions + if s.emitted then [o.value] else []
  {
    hide PumpAccepts, PumpLoop, PumpStops, End;
    var taken := PumpAccepts(s, g, s.pumps[i].catchingUp, o);
    assert PumpOutcome(s, g, i, o) == PumpLoop(taken, g, i);
    hide PumpOutcome;
    TakenShows(s, g, s.pumps[i].catchingUp, o);
    LoopGoesOn(taken, g, i);
  }

  lemma LastTurn(s: Reader, g: Gate, i: nat, o: Outcome)
    requires i < |s.pumps| == 1 && (o.Threw? || (o.Accepted? && s.closed))
    ensures var r := PumpOutcome(s, g, i, o);
            r.pumps == [] && r.snapshot == s.snapshot && r.past == s.past && (o.Threw? ==> r.closed)
  {
    StopStops(s, i);
    StopStops(End(s, true), i);
    hide PumpStops, PumpLoop, PumpAccepts, Without;
  }

  lemma TakenShows(s: Reader, g: Gate, catchingUp: bool, o: Outcome)
    requires o.Accepted?
    ensures var r := PumpAccepts(s, g, catchingUp, o);
            r.past.emissions == s.past.emissions + (if s.emitted then [o.value] else []) && r.past.changes == s.past.changes
  {
  }

  lemma StopStops(s: Reader, i: nat)
    requires i < |s.pumps| == 1
    ensures PumpStops(s, i).pumps == [] && PumpStops(s, i).past == s.past
    ensures PumpStops(s, i).snapshot == s.snapshot && PumpStops(s, i).closed == s.closed
  {
    assert Without(s.pumps, i) == [];
  }

  lemma LoopGoesOn(s: Reader, g: Gate, i: nat)
    requires i < |s.pumps| == 1
    ensures var r := PumpLoop(s, g, i);
            && (r.pumps != [] <==> s.dirty && !s.closed) && r.snapshot == s.snapshot && r.past == s.past
            && (r.pumps != [] ==> !r.dirty && r.pumps[0].floor == s.past.changes && r.pumps[0].catchingUp == r.catchup)
  {
    StopStops(s, i);
    hide PumpStops;
  }

  // ---- where values come from -------------------------------------------------------------------

  predicate WasRead(accepted: seq<Acceptance>, value: Snapshot) {
    exists j :: 0 <= j < |accepted| && accepted[j].value == value
  }

  predicate WasReadUnder(accepted: seq<Acceptance>, value: Snapshot, generation: nat) {
    exists j :: 0 <= j < |accepted| && accepted[j].value == value && accepted[j].generation == generation
  }

  /** The snapshot is the last accepted value, and nothing was shown that was not accepted. */
  ghost predicate Sourced(r: Reader) {
    && (r.origin.Some? ==> r.past.accepted != [] && r.past.accepted[|r.past.accepted| - 1] == r.origin.value)
    && forall i :: 0 <= i < |r.past.emissions| ==> WasRead(r.past.accepted, r.past.emissions[i])
  }

  ghost predicate AnswersSourced(s: Session) {
    forall i :: 0 <= i < |s.answers| ==> WasReadUnder(s.reader.past.accepted, s.answers[i].value, s.answers[i].generation)
  }

  /** Accepted values are kept, and the snapshot changes only with them. */
  predicate Extends(r: Reader, r': Reader) {
    && r.past.accepted <= r'.past.accepted
    && (r'.past.accepted == r.past.accepted ==> r'.origin == r.origin)
  }

  lemma ExtendsKeeps(s: Session, r: Reader)
    requires AnswersSourced(s) && Extends(s.reader, r)
    ensures AnswersSourced(s.(reader := r))
  {
    forall i | 0 <= i < |s.answers| ensures WasReadUnder(r.past.accepted, s.answers[i].value, s.answers[i].generation) {
      var j :| 0 <= j < |s.reader.past.accepted| && s.reader.past.accepted[j].value == s.answers[i].value
               && s.reader.past.accepted[j].generation == s.answers[i].generation;
      assert r.past.accepted[j] == s.reader.past.accepted[j];
    }
  }

  lemma AcceptSources(r: Reader, g: Gate, o: Outcome)
    requires Sourced(r) && o.Accepted?
    ensures Sourced(Accept(r, g, o)) && Extends(r, Accept(r, g, o))
  {
    var r' := Accept(r, g, o);
    forall i | 0 <= i < |r.past.emissions| ensures WasRead(r'.past.accepted, r.past.emissions[i]) {
      var j :| 0 <= j < |r.past.accepted| && r.past.accepted[j].value == r.past.emissions[i];
      assert r'.past.accepted[j] == r.past.accepted[j];
    }
  }

  lemma EmitSources(r: Reader)
    requires Sourced(r) && r.origin.Some? && r.origin.value.value == r.snapshot
    ensures Sourced(Emit(r))
  {
    assert r.past.accepted[|r.past.accepted| - 1].value == r.snapshot;
  }

  /** What neither a change nor the end nor the start of a turn touches. */
  predicate SameRecord(r: Reader, r': Reader) {
    r'.origin == r.origin && r'.past.accepted == r.past.accepted && r'.past.emissions == r.past.emissions && r'.snapshot == r.snapshot
  }

  lemma RecordSources(r: Reader, r': Reader, r'': Reader)
    requires Sourced(r') && Extends(r, r') && SameRecord(r', r'')
    ensures Sourced(r'') && Extends(r, r'')
  {
  }

  lemma ServeRecords(r: Reader, catchingUp: bool, start: Stamp, finish: Stamp)
    ensures SameRecord(r, Serve(r, catchingUp, start, finish))
  {
  }

  lemma PumpAcceptsSources(r: Reader, g: Gate, catchingUp: bool, o: Outcome)
    requires Sourced(r) && o.Accepted?
    ensures var r' := PumpAccepts(r, g, catchingUp, o); Sourced(r') && Extends(r, r')
  {
    AcceptSources(r, g, o);
    var kept := Accept(r, g, o);
    var served := Serve(kept, catchingUp, o.since, Now(r, g, o.generation));
    ServeRecords(kept, catchingUp, o.since, Now(r, g, o.generation));
    assert kept.origin.Some? && kept.origin.value.value == kept.snapshot;
    hide Accept, Serve, Sourced, Extends, Show;
    RecordSources(r, kept, served);
    ShowSources(r, served);
  }

  lemma ShowSources(r: Reader, served: Reader)
    requires Sourced(served) && Extends(r, served)
    requires served.origin.Some? && served.origin.value.value == served.snapshot
    ensures Sourced(Show(served)) && Extends(r, Show(served))
  {
    EmitSources(served);
    hide Sourced;
  }

  lemma ChangedRecords(r: Reader, catchup: bool)
    ensures SameRecord(r, Changed(r, catchup))
  {
    ScheduleRecords(Dirtied(r));
    ScheduleRecords(CatchupAsked(Dirtied(r)));
    assert SameRecord(r, Dirtied(r)) && SameRecord(r, CatchupAsked(Dirtied(r)));
    hide Schedule, CatchupAsked, Dirtied;
  }

  lemma ScheduleRecords(r: Reader)
    ensures SameRecord(r, Schedule(r))
  {
  }

  lemma PumpStartRecords(r: Reader, g: Gate)
    ensures SameRecord(r, PumpStart(r, g))
  {
  }

  lemma LoopRecords(r: Reader, g: Gate, i: nat)
    requires i < |r.pumps|
    ensures SameRecord(r, PumpLoop(r, g, i)) && SameRecord(r, PumpStops(r, i)) && SameRecord(r, PumpStops(End(r, true), i))
  {
    StopRecords(r, i);
    StopRecords(End(r, true), i);
    IterateRecords(r, g);
    hide PumpStops, Iterate;
  }

  lemma StopRecords(r: Reader, i: nat)
    requires i < |r.pumps|
    ensures SameRecord(r, PumpStops(r, i))
  {
    hide Without;
  }

  lemma IterateRecords(r: Reader, g: Gate)
    ensures SameRecord(r, Iterate(r, g).0)
  {
  }

  lemma InitialSources(r: Reader, g: Gate, o: Outcome)
    requires Sourced(r)
    ensures Sourced(InitialOutcome(r, g, o)) && Extends(r, InitialOutcome(r, g, o))
  {
    RecordSources(r, r, r);
    if o.Accepted? && !r.closed {
      AcceptSources(r, g, o);
      hide Sourced;
      RecordSources(r, Accept(r, g, o), InitialOutcome(r, g, o));
    } else {
      hide Sourced;
      RecordSources(r, r, InitialOutcome(r, g, o));
    }
  }

  lemma PumpSources(r: Reader, g: Gate, i: nat, o: Outcome)
    requires Sourced(r) && i < |r.pumps|
    ensures Sourced(PumpOutcome(r, g, i, o)) && Extends(r, PumpOutcome(r, g, i, o))
  {
    RecordSources(r, r, r);
    LoopRecords(r, g, i);
    hide Sourced, PumpAccepts, PumpLoop, PumpStops, Extends;
    if o.Accepted? && !r.closed {
      var taken := PumpAccepts(r, g, r.pumps[i].catchingUp, o);
      PumpAcceptsSources(r, g, r.pumps[i].catchingUp, o);
      LoopRecords(taken, g, i);
      RecordSources(r, taken, PumpLoop(taken, g, i));
    } else {
      RecordSources(r, r, PumpOutcome(r, g, i, o));
    }
  }

  lemma EndRecords(r: Reader, failed: bool)
    ensures SameRecord(r, End(r, failed))
  {
  }

  lemma ImmediateRecords(r: Reader, g: Gate)
    ensures SameRecord(r, Immediate(r, g))
  {
    if r.immediates != 0 { PumpStartRecords(r.(scheduled := false, immediates := r.immediates - 1), g); }
    hide PumpStart;
  }

  /** Where no read is resumed nothing new is recorded. */
  lemma OtherSources(r: Reader, g: Gate, e: Event)
    requires Sourced(r) && !e.LeaseReady? && !e.LeaseRefused? && !e.InitialRuns? && !e.PumpRuns?
    ensures Sourced(ReaderNext(r, g, e)) && Extends(r, ReaderNext(r, g, e))
  {
    assert SameRecord(r, r) && Extends(r, r);
    hide Sourced, Extends, SameRecord, Changed, End, Immediate, InitialOutcome, PumpOutcome, Resume;
    ChangedRecords(r, e.SourceChanged? && e.catchup);
    EndRecords(r, e.SourceFailed?);
    ImmediateRecords(r, g);
    RecordSources(r, r, ReaderNext(r, g, e));
  }

  lemma ReaderSources(r: Reader, g: Gate, e: Event)
    requires Sourced(r)
    ensures Sourced(ReaderNext(r, g, e)) && Extends(r, ReaderNext(r, g, e))
  {
    assert Extends(r, r);
    hide Sourced, Extends, Changed, End, Immediate, InitialOutcome, PumpOutcome, Resume, ReadTop;
    match e
    case LeaseReady => InitialSources(r, g, ReadTop(r, g));
    case LeaseRefused => InitialSources(r, g, Threw);
    case InitialRuns(result) =>
      if r.initial.InitialRead? {
        var o := Resume(r, g, r.initial.read, result);
        if o.Some? { InitialSources(r, g, o.value); }
      }
    case PumpRuns(i, result) =>
      if i < |r.pumps| {
        var o := Resume(r, g, r.pumps[i].read, result);
        if o.Some? { PumpSources(r, g, i, o.value); }
      }
    case _ => OtherSources(r, g, e);
  }

  lemma FinishSources(s: Session, r: Reader, id: nat, generation: nat)
    requires Inv(r) && r.hasValue && Sourced(r) && AnswersSourced(s.(reader := r)) && id in s.callers
    ensures var s' := CallerFinish(s, r, id, generation); Sourced(s'.reader) && AnswersSourced(s')
  {
    var s' := CallerFinish(s, r, id, generation);
    assert r.origin.Some? && r.origin.value.value == r.snapshot;
    hide Inv;
    if !r.closed {
      EmitSources(r.(emitted := true));
      assert r.past.accepted[|r.past.accepted| - 1] == r.origin.value;
      assert WasReadUnder(r.past.accepted, r.snapshot, r.origin.value.generation);
      assert s'.reader.past.accepted == r.past.accepted;
      hide Sourced, WasReadUnder, FirstEmission;
    }
  }

  lemma CallerSources(s: Session, g: Gate, id: nat)
    requires Valid(s) && Sourced(s.reader) && AnswersSourced(s)
    ensures Sourced(CallerStep(s, g, id).reader) && AnswersSourced(CallerStep(s, g, id))
  {
    if id in s.callers {
      assert s.reader.initial.Settled? ==> s.reader.hasValue;
      assert !s.callers[id].pc.AwaitInitial? ==> s.reader.hasValue;
      hide Inv, Sourced, CallerAdmitted, CallerFinish, Cancel;
      assert CallerFails(s, id).reader == s.reader || CallerFails(s, id).reader == End(s.reader, false);
      RecordSourced(s, End(s.reader, false));
      if s.reader.hasValue {
        FinishSources(s, s.reader, id, if s.callers[id].pc.AwaitWaiter? then s.callers[id].pc.generation else 0);
        AdmittedSources(s, g, id, 0);
        match s.callers[id].pc
        case AwaitReady(i) =>
          if i < |g.promises| && g.promises[i].Resolved? { AdmittedSources(s, g, id, g.promises[i].generation); }
        case _ =>
      }
    }
  }

  lemma RecordSourced(s: Session, r: Reader)
    requires Sourced(s.reader) && AnswersSourced(s) && SameRecord(s.reader, r)
    ensures Sourced(r) && AnswersSourced(s.(reader := r))
  {
    hide WasReadUnder;
  }

  lemma AdmittedSources(s: Session, g: Gate, id: nat, generation: nat)
    requires Valid(s) && Sourced(s.reader) && AnswersSourced(s) && id in s.callers && s.reader.hasValue
    ensures var s' := CallerAdmitted(s, g, id, generation); Sourced(s'.reader) && AnswersSourced(s')
  {
    PumpStartKeeps(s.reader, g);
    PumpStartSettles(s.reader, g);
    PumpStartRecords(s.reader, g);
    var r := if MustRead(s.reader) then PumpStart(s.reader, g) else s.reader;
    RecordSourced(s, r);
    hide Inv, Sourced, PumpStart, CallerFinish, MustRead;
    FinishSources(s, r, id, generation);
  }

  lemma NextSources(s: Session, g: Gate, e: Event)
    requires Valid(s) && Sourced(s.reader) && AnswersSourced(s)
    ensures Sourced(Next(s, g, e).reader) && AnswersSourced(Next(s, g, e))
  {
    hide Valid, Sourced, CallerStep, ReaderNext, Cancel, Extends;
    match e
    case CallerRuns(id) => CallerSources(s, g, id);
    case Adopts(_) => RecordSourced(s, s.reader.(subscriber := true));
    case Asks(_) =>
    case _ =>
      ReaderSources(s.reader, g, e);
      ExtendsKeeps(s, ReaderNext(s.reader, g, e));
  }

  lemma {:induction false} RunSources(fenced: bool, trace: seq<(Gate, Event)>)
    ensures var s := Run(Open(fenced), trace); Sourced(s.reader) && AnswersSourced(s)
  {
    if trace != [] {
      var last := |trace| - 1;
      RunSources(fenced, trace[..last]);
      RunKeeps(fenced, trace[..last]);
      hide Valid, Sourced, AnswersSourced, Next;
      NextSources(Run(Open(fenced), trace[..last]), trace[last].0, trace[last].1);
    }
  }

  /**
   * Nobody is ever shown or answered anything but a value that a read of this session returned and the session accepted;
   * an answer also tells the generation it was read under.
   */
  lemma EveryValueWasRead(fenced: bool, trace: seq<(Gate, Event)>, i: nat)
    ensures var s := Run(Open(fenced), trace);
            && (i < |s.reader.past.emissions| ==> WasRead(s.reader.past.accepted, s.reader.past.emissions[i]))
            && (i < |s.answers| ==> WasReadUnder(s.reader.past.accepted, s.answers[i].value, s.answers[i].generation))
  {
    RunSources(fenced, trace);
    hide Run;
  }

  // ---- catch-ups --------------------------------------------------------------------------------

  /** A session that was never asked to catch up owes no catch-up, makes nobody wait for one, and serves none. */
  ghost predicate Unasked(r: Reader) {
    && r.past.catchups == 0 && r.past.retired == [] && !r.catchup && r.catchupFinished.None?
    && forall i :: 0 <= i < |r.pumps| ==> !r.pumps[i].catchingUp
  }

  lemma ChangedUnasked(r: Reader)
    requires Unasked(r)
    ensures Unasked(Changed(r, false))
  {
  }

  lemma StopUnasked(r: Reader, i: nat)
    requires Unasked(r) && i < |r.pumps|
    ensures Unasked(PumpStops(r, i))
  {
  }

  lemma EndUnasked(r: Reader, failed: bool)
    requires Unasked(r)
    ensures Unasked(End(r, failed))
  {
  }

  lemma PumpStartUnasked(r: Reader, g: Gate)
    requires Unasked(r)
    ensures Unasked(PumpStart(r, g))
  {
  }

  lemma LoopUnasked(r: Reader, g: Gate, i: nat)
    requires Unasked(r) && i < |r.pumps|
    ensures Unasked(PumpLoop(r, g, i))
  {
    StopUnasked(r, i);
    hide PumpStops;
  }

  lemma PumpAcceptsUnasked(r: Reader, g: Gate, o: Outcome)
    requires Unasked(r) && o.Accepted?
    ensures Unasked(PumpAccepts(r, g, false, o))
  {
  }

  lemma PumpUnasked(r: Reader, g: Gate, i: nat, o: Outcome)
    requires Unasked(r) && i < |r.pumps|
    ensures Unasked(PumpOutcome(r, g, i, o))
  {
    StopUnasked(r, i);
    EndUnasked(r, true);
    StopUnasked(End(r, true), i);
    if o.Accepted? {
      PumpAcceptsUnasked(r, g, o);
      LoopUnasked(PumpAccepts(r, g, false, o), g, i);
    }
    hide PumpStops, PumpAccepts, PumpLoop, End;
  }

  lemma InitialUnasked(r: Reader, g: Gate, o: Outcome)
    requires Unasked(r)
    ensures Unasked(InitialOutcome(r, g, o))
  {
  }

  lemma ReaderUnasked(r: Reader, g: Gate, e: Event)
    requires Unasked(r) && (e.SourceChanged? ==> !e.catchup)
    ensures Unasked(ReaderNext(r, g, e))
  {
    hide Unasked, Changed, End, InitialOutcome, PumpOutcome, PumpStart, Resume;
    match e
    case SourceChanged(_) => ChangedUnasked(r);
    case SourceFailed => EndUnasked(r, true);
    case Closed => EndUnasked(r, false);
    case LeaseReady => InitialUnasked(r, g, ReadTop(r, g));
    case LeaseRefused => InitialUnasked(r, g, Threw);
    case InitialRuns(result) =>
      if r.initial.InitialRead? {
        var o := Resume(r, g, r.initial.read, result);
        if o.Some? { InitialUnasked(r, g, o.value); }
      }
    case PumpRuns(i, result) =>
      if i < |r.pumps| {
        var o := Resume(r, g, r.pumps[i].read, result);
        if o.Some? { PumpUnasked(r, g, i, o.value); }
      }
    case ImmediateRuns => ImmediateUnasked(r, g);
    case _ =>
  }

  lemma ImmediateUnasked(r: Reader, g: Gate)
    requires Unasked(r)
    ensures Unasked(Immediate(r, g))
  {
    if r.immediates != 0 {
      var r1 := r.(scheduled := false, immediates := r.immediates - 1);
      PumpStartUnasked(r1, g);
      hide PumpStart;
    }
  }

  lemma CallerUnasked(s: Session, g: Gate, id: nat)
    requires Unasked(s.reader)
    ensures Unasked(CallerStep(s, g, id).reader)
  {
    PumpStartUnasked(s.reader, g);
    EndUnasked(s.reader, false);
    FirstEmissionUnasked(s.reader);
    FirstEmissionUnasked(PumpStart(s.reader, g));
    hide Unasked, PumpStart, End, FirstEmission, Cancel;
  }

  lemma FirstEmissionUnasked(r: Reader)
    requires Unasked(r)
    ensures Unasked(FirstEmission(r))
  {
  }

  /**
   * Only a source that asks for catch-ups has any to be served: over one that never does, as the in-process change bus
   * never does, a session never owes, awaits or retires a catch-up in any run.
   */
  lemma {:induction false} OnlyAskedCatchupsAreOwed(fenced: bool, trace: seq<(Gate, Event)>)
    requires forall i :: 0 <= i < |trace| ==> trace[i].1 != SourceChanged(true)
    ensures Unasked(Run(Open(fenced), trace).reader)
  {
    if trace != [] {
      var last := |trace| - 1;
      var s, g, e := Run(Open(fenced), trace[..last]), trace[last].0, trace[last].1;
      OnlyAskedCatchupsAreOwed(fenced, trace[..last]);
      hide Unasked, CallerStep, ReaderNext, Adopt, Current, Cancel;
      match e
      case Adopts(id) => AdoptUnasked(s, id);
      case Asks(id) => AdoptUnasked(s, id);
      case CallerRuns(id) => CallerUnasked(s, g, id);
      case _ => ReaderUnasked(s.reader, g, e);
    }
  }

  lemma AdoptUnasked(s: Session, id: nat)
    requires Unasked(s.reader)
    ensures Unasked(Adopt(s, id).reader) && Unasked(Current(s, id).reader)
  {
  }
}
