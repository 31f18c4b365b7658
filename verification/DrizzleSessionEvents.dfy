/**
 * What every event a session can meet does, said of the event: changes are counted, ends are heard, reads end as they
 * return, callers are served. What the history of a session records is thereby what really happened to it.
 */
module DrizzleSessionEvents {
  import opened Options
  import opened ObservationGate
  import opened DrizzleObservationSession
  import Outcomes = DrizzleSessionOutcomes

  // ---- what the source says ---------------------------------------------------------------------

  /** The source tells of a change; with `catchup`, of one that asks for a catch-up. */
  predicate Tells(e: Event, catchup: bool) {
    e.SourceChanged? && (catchup ==> e.catchup)
  }

  /** How many changes, or how many catch-up requests, a session was told of while it was open. */
  function Heard(fenced: bool, trace: seq<(Gate, Event)>, catchup: bool): nat {
    if trace == [] then 0
    else
      var last := |trace| - 1;
      Heard(fenced, trace[..last], catchup)
      + if Tells(trace[last].1, catchup) && !Run(Open(fenced), trace[..last]).reader.closed then 1 else 0
  }

  /** Neither count moves. */
  predicate Counts(r: Reader, r': Reader) {
    r'.past.changes == r.past.changes && r'.past.catchups == r.past.catchups
  }

  lemma PumpStartCounts(r: Reader, g: Gate)
    ensures Counts(r, PumpStart(r, g))
  {
  }

  lemma ServeCounts(r: Reader, catchingUp: bool, start: Stamp, finish: Stamp)
    ensures Counts(r, Serve(r, catchingUp, start, finish)) && Counts(r, Show(r))
  {
  }

  lemma AcceptCounts(r: Reader, g: Gate, o: Outcome)
    requires o.Accepted?
    ensures Counts(r, Accept(r, g, o))
  {
  }

  lemma TakenCounts(r: Reader, g: Gate, catchingUp: bool, o: Outcome)
    requires o.Accepted?
    ensures Counts(r, PumpAccepts(r, g, catchingUp, o))
  {
    AcceptCounts(r, g, o);
    var taken := Accept(r, g, o);
    ServeCounts(taken, catchingUp, o.since, Now(r, g, o.generation));
    hide Accept, Serve, Now, Show;
    ServeCounts(Serve(taken, catchingUp, o.since, Now(r, g, o.generation)), catchingUp, o.since, o.since);
  }

  lemma StopCounts(r: Reader, i: nat)
    requires i < |r.pumps|
    ensures Counts(r, PumpStops(r, i))
  {
    hide Without;
  }

  lemma IterateCounts(r: Reader, g: Gate)
    ensures Counts(r, Iterate(r, g).0)
  {
  }

  lemma LoopCounts(r: Reader, g: Gate, i: nat)
    requires i < |r.pumps|
    ensures Counts(r, PumpLoop(r, g, i)) && Counts(r, PumpStops(r, i)) && Counts(r, PumpStops(End(r, true), i))
  {
    StopCounts(r, i);
    StopCounts(End(r, true), i);
    IterateCounts(r, g);
    hide PumpStops, Iterate;
  }

  lemma PumpCounts(r: Reader, g: Gate, i: nat, o: Outcome)
    requires i < |r.pumps|
    ensures Counts(r, PumpOutcome(r, g, i, o))
  {
    hide PumpAccepts, PumpLoop, PumpStops, End;
    if o.Accepted? && !r.closed {
      var taken := PumpAccepts(r, g, r.pumps[i].catchingUp, o);
      TakenCounts(r, g, r.pumps[i].catchingUp, o);
      LoopCounts(taken, g, i);
    } else {
      LoopCounts(r, g, i);
    }
  }

  lemma InitialCounts(r: Reader, g: Gate, o: Outcome)
    ensures Counts(r, InitialOutcome(r, g, o))
  {
    if o.Accepted? {
      assert Counts(r, Accept(r, g, o));
      hide Accept;
    }
  }

  /** How a step may move the two counts. */
  predicate CountsBy(r: Reader, r': Reader, e: Event) {
    && r'.past.changes == r.past.changes + (if Tells(e, false) && !r.closed then 1 else 0)
    && r'.past.catchups == r.past.catchups + (if Tells(e, true) && !r.closed then 1 else 0)
  }

  lemma ChangedCounts(r: Reader, catchup: bool)
    ensures CountsBy(r, Changed(r, catchup), SourceChanged(catchup))
  {
    var d := Dirtied(r);
    assert d.past.changes == r.past.changes + 1 && d.past.catchups == r.past.catchups;
    var c := CatchupAsked(d);
    assert c.past.changes == d.past.changes && c.past.catchups == d.past.catchups + 1;
    ScheduleCounts(d);
    ScheduleCounts(c);
    hide Dirtied, CatchupAsked, Schedule;
  }

  lemma ScheduleCounts(r: Reader)
    ensures Counts(r, Schedule(r))
  {
  }

  lemma EndCounts(r: Reader, failed: bool)
    ensures Counts(r, End(r, failed))
  {
  }

  lemma CountsIsBy(r: Reader, r': Reader, e: Event)
    requires Counts(r, r') && !e.SourceChanged?
    ensures CountsBy(r, r', e)
  {
  }

  lemma ImmediateCounts(r: Reader, g: Gate)
    ensures Counts(r, Immediate(r, g))
  {
    if r.immediates != 0 { PumpStartCounts(r.(scheduled := false, immediates := r.immediates - 1), g); }
    hide PumpStart;
  }

  lemma ReaderCounts(r: Reader, g: Gate, e: Event)
    ensures CountsBy(r, ReaderNext(r, g, e), e)
  {
    hide CountsBy, Changed, End, Immediate, InitialOutcome, PumpOutcome, Resume, ReadTop;
    if e.SourceChanged? {
      ChangedCounts(r, e.catchup);
    } else {
      assert Counts(r, ReaderNext(r, g, e)) by {
        assert Counts(r, r);
        hide Counts;
        match e
        case SourceFailed => EndCounts(r, true);
        case Closed => EndCounts(r, false);
        case PumpRuns(i, result) =>
          if i < |r.pumps| {
            var o := Resume(r, g, r.pumps[i].read, result);
            if o.Some? { PumpCounts(r, g, i, o.value); }
          }
        case InitialRuns(result) =>
          if r.initial.InitialRead? {
            var o := Resume(r, g, r.initial.read, result);
            if o.Some? { InitialCounts(r, g, o.value); }
          }
        case LeaseReady => InitialCounts(r, g, ReadTop(r, g));
        case LeaseRefused => InitialCounts(r, g, Threw);
        case ImmediateRuns => ImmediateCounts(r, g);
        case _ =>
      }
      hide ReaderNext, Counts;
      CountsIsBy(r, ReaderNext(r, g, e), e);
    }
  }

  lemma FinishCounts(s: Session, r: Reader, id: nat, generation: nat)
    requires id in s.callers
    ensures Counts(r, CallerFinish(s, r, id, generation).reader)
  {
  }

  lemma AdmittedCounts(s: Session, g: Gate, id: nat, generation: nat)
    requires id in s.callers
    ensures Counts(s.reader, CallerAdmitted(s, g, id, generation).reader)
  {
    PumpStartCounts(s.reader, g);
    var r := if MustRead(s.reader) then PumpStart(s.reader, g) else s.reader;
    hide PumpStart, CallerFinish;
    FinishCounts(s, r, id, generation);
  }

  lemma FailingCounts(s: Session, id: nat)
    requires id in s.callers
    ensures Counts(s.reader, CallerFails(s, id).reader)
  {
    hide Cancel;
  }

  lemma CallerCounts(s: Session, g: Gate, id: nat)
    ensures Counts(s.reader, CallerStep(s, g, id).reader)
  {
    assert Counts(s.reader, s.reader);
    hide Counts, CallerAdmitted, CallerFails, CallerFinish;
    if id in s.callers {
      FailingCounts(s, id);
      match s.callers[id].pc
      case AwaitWaiter(generation, _) => FinishCounts(s, s.reader, id, generation);
      case AwaitReady(i) => if i < |g.promises| && g.promises[i].Resolved? { AdmittedCounts(s, g, id, g.promises[i].generation); }
      case AwaitInitial => AdmittedCounts(s, g, id, 0);
    }
  }

  lemma NextCounts(s: Session, g: Gate, e: Event)
    ensures CountsBy(s.reader, Next(s, g, e).reader, e)
  {
    hide ReaderNext, CallerStep, Cancel;
    match e
    case CallerRuns(id) => CallerCounts(s, g, id); CountsIsBy(s.reader, CallerStep(s, g, id).reader, e);
    case Adopts(_) =>
    case Asks(_) =>
    case _ => ReaderCounts(s.reader, g, e);
  }

  /**
   * Every change and every catch-up that an open session is told of counts, whether or not anybody has adopted it yet, and
   * nothing else does.
   */
  lemma {:induction false} EveryChangeCounts(fenced: bool, trace: seq<(Gate, Event)>)
    ensures var past := Run(Open(fenced), trace).reader.past;
            past.changes == Heard(fenced, trace, false) && past.catchups == Heard(fenced, trace, true)
  {
    if trace != [] {
      hide Next, Tells, Run, Heard, Open;
      var last := |trace| - 1;
      EveryChangeCounts(fenced, trace[..last]);
      NextCounts(Run(Open(fenced), trace[..last]), trace[last].0, trace[last].1);
      HeardOn(fenced, trace, false);
      HeardOn(fenced, trace, true);
    }
  }

  lemma HeardOn(fenced: bool, trace: seq<(Gate, Event)>, catchup: bool)
    requires trace != []
    ensures var last := |trace| - 1; var before := Run(Open(fenced), trace[..last]);
            && Run(Open(fenced), trace) == Next(before, trace[last].0, trace[last].1)
            && Heard(fenced, trace, catchup) ==
               Heard(fenced, trace[..last], catchup) + if Tells(trace[last].1, catchup) && !before.reader.closed then 1 else 0
  {
    hide Next, Tells, Open;
  }

  /**
   * A change makes an open session dirty, adopted or not, and with a subscriber a read is on its way; a catch-up is owed
   * and on its way in any case. A closed session hears nothing.
   */
  lemma ChangesAreNoted(s: Session, g: Gate, catchup: bool)
    requires Valid(s)
    ensures var s' := Next(s, g, SourceChanged(catchup)); var r, r' := s.reader, s'.reader;
            && (r.closed ==> s' == s)
            && (!r.closed ==>
                  && r'.dirty && !r'.closed && s'.callers == s.callers && s'.answers == s.answers
                  && (catchup ==> r'.catchup && r'.catchupFinished.Some?)
                  && (r.catchupFinished.Some? ==> r'.catchupFinished == r.catchupFinished)
                  && (r.subscriber || catchup ==> 0 < r'.immediates || r'.pumps != [])
                  && r'.past.accepted == r.past.accepted && r'.past.emissions == r.past.emissions)
  {
  }

  /** An open session that is told that its source failed, or that is closed, ends so; whoever only asked is turned away. */
  lemma EndsAreHeard(s: Session, g: Gate, e: Event)
    requires Valid(s) && !s.reader.closed && (e.SourceFailed? || e.Closed?)
    ensures var s' := Next(s, g, e);
            && s'.reader.closed && s'.reader.failed == e.SourceFailed? && s'.reader.released && !s'.reader.catchup
            && s'.reader.catchupFinished.None? && s'.reader.past == s.reader.past && s'.answers == s.answers
            && (forall id :: id in s'.callers <==> id in s.callers && s.callers[id].kind.Adopter?)
  {
    hide Inv;
  }

  // ---- reads ------------------------------------------------------------------------------------

  /** A value may become the snapshot: the listener it was read under is the one that is live now. */
  predicate Counted(r: Reader, g: Gate, generation: nat) {
    !r.fenced || g.IsCurrent(generation)
  }

  /** The snapshot and everything that was shown or answered is what it was. */
  predicate Nothing(s: Session, s': Session) {
    && s'.reader.snapshot == s.reader.snapshot && s'.reader.past.accepted == s.reader.past.accepted
    && s'.reader.past.emissions == s.reader.past.emissions && s'.reader.past.retired == s.reader.past.retired
    && s'.answers == s.answers
  }

  /** One more value was accepted, from a read that began at `start`: it is the snapshot now. */
  predicate Takes(r: Reader, g: Gate, r': Reader, value: Snapshot, generation: nat, start: Stamp) {
    && r'.past.accepted == r.past.accepted + [Acceptance(value, generation, start, Now(r, g, generation))]
    && r'.snapshot == value && r'.hasValue && !r'.closed
    && r'.origin == Some(r'.past.accepted[|r.past.accepted|])
  }

  /**
   * A read of the pump that returns a value under the live generation is accepted and shown to a subscriber that has seen
   * something; a turn that set out to catch up has done so.
   */
  lemma PumpedValuesAreTaken(s: Session, g: Gate, i: nat, value: Snapshot)
    requires Valid(s) && i < |s.reader.pumps| && s.reader.pumps[i].read.Reading? && !s.reader.closed
    requires Counted(s.reader, g, s.reader.pumps[i].read.generation)
    ensures var r, s' := s.reader, Next(s, g, PumpRuns(i, Some(value)));
            var Reading(generation, since) := r.pumps[i].read;
            && Takes(r, g, s'.reader, value, generation, since)
            && s'.reader.past.emissions == r.past.emissions + (if r.emitted then [value] else [])
            && s'.reader.past.retired == r.past.retired + (if r.pumps[i].catchingUp then [Retirement(since, Now(r, g, generation))] else [])
            && s'.reader.catchup == (r.catchup && !r.pumps[i].catchingUp)
            && s'.answers == s.answers && s'.callers == s.callers
  {
    var r := s.reader;
    var Reading(generation, since) := r.pumps[i].read;
    var o := Accepted(value, generation, since);
    var taken := PumpAccepts(r, g, r.pumps[i].catchingUp, o);
    assert Resume(r, g, r.pumps[i].read, Some(value)) == Some(o);
    assert ReaderNext(r, g, PumpRuns(i, Some(value))) == PumpLoop(taken, g, i);
    TakenValues(r, g, r.pumps[i].catchingUp, o);
    LoopOnlyLoops(taken, g, i);
    hide Inv, PumpAccepts, PumpLoop, Resume, ReaderNext, Now;
  }

  lemma TakenValues(r: Reader, g: Gate, catchingUp: bool, o: Outcome)
    requires o.Accepted? && !r.closed && r.hasValue
    ensures var r' := PumpAccepts(r, g, catchingUp, o);
            && Takes(r, g, r', o.value, o.generation, o.since)
            && r'.past.emissions == r.past.emissions + (if r.emitted then [o.value] else [])
            && r'.past.retired == r.past.retired + (if catchingUp then [Retirement(o.since, Now(r, g, o.generation))] else [])
            && r'.catchup == (r.catchup && !catchingUp)
  {
    hide Now;
  }

  /** What the bookkeeping of a turn leaves alone. */
  predicate SameShown(r: Reader, r': Reader) {
    && r'.past == r.past && r'.snapshot == r.snapshot && r'.hasValue == r.hasValue && r'.closed == r.closed
    && r'.origin == r.origin && r'.catchup == r.catchup
  }

  lemma StopOnlyStops(r: Reader, i: nat)
    requires i < |r.pumps|
    ensures SameShown(r, PumpStops(r, i))
  {
    hide Without;
  }

  lemma IterateOnlyBegins(r: Reader, g: Gate)
    ensures SameShown(r, Iterate(r, g).0)
  {
  }

  lemma LoopOnlyLoops(r: Reader, g: Gate, i: nat)
    requires i < |r.pumps|
    ensures SameShown(r, PumpLoop(r, g, i))
  {
    StopOnlyStops(r, i);
    IterateOnlyBegins(r, g);
    hide PumpStops, Iterate;
  }

  // ---- a read goes on ---------------------------------------------------------------------------

  lemma PumpRunsOn(s: Session, g: Gate, i: nat, result: Option<Snapshot>, o: Outcome)
    requires i < |s.reader.pumps| && Resume(s.reader, g, s.reader.pumps[i].read, result) == Some(o)
    ensures Next(s, g, PumpRuns(i, result)) == Put(s, PumpOutcome(s.reader, g, i, o))
  {
    hide Resume, PumpOutcome, Put;
  }

  lemma InitialRunsOn(s: Session, g: Gate, result: Option<Snapshot>, o: Outcome)
    requires s.reader.initial.InitialRead? && Resume(s.reader, g, s.reader.initial.read, result) == Some(o)
    ensures Next(s, g, InitialRuns(result)) == Put(s, InitialOutcome(s.reader, g, o))
  {
    hide Resume, InitialOutcome, Put;
  }

  lemma PumpGoesOn(s: Session, g: Gate, i: nat, result: Option<Snapshot>, read: Read)
    requires !s.reader.closed && i < |s.reader.pumps| && Resume(s.reader, g, s.reader.pumps[i].read, result) == Some(Again(read))
    ensures Next(s, g, PumpRuns(i, result)) ==
            s.(reader := s.reader.(pumps := s.reader.pumps[i := s.reader.pumps[i].(read := read)]))
  {
    PumpRunsOn(s, g, i, result, Again(read));
    hide Next, Resume, Cancel;
  }

  lemma InitialGoesOn(s: Session, g: Gate, result: Option<Snapshot>, read: Read)
    requires !s.reader.closed && s.reader.initial.InitialRead? && Resume(s.reader, g, s.reader.initial.read, result) == Some(Again(read))
    ensures Next(s, g, InitialRuns(result)) == s.(reader := s.reader.(initial := InitialRead(read)))
  {
    InitialRunsOn(s, g, result, Again(read));
    hide Next, Resume, Cancel;
  }

  /** The read that a settled readiness lets begin. */
  lemma ReadinessLetsRead(r: Reader, g: Gate, j: nat, result: Option<Snapshot>)
    requires !r.closed && j < |g.promises| && g.promises[j].Resolved?
    ensures Resume(r, g, AwaitGate(Readiness(j)), result) ==
            Some(Again(Reading(g.promises[j].generation,
                               Stamp(r.past.changes, r.past.catchups, g.losses, g.IsCurrent(g.promises[j].generation)))))
  {
  }

  lemma LostReadsBeginAnew(r: Reader, g: Gate, generation: nat, since: Stamp, result: Option<Snapshot>)
    requires !r.closed && !Counted(r, g, generation)
    ensures Resume(r, g, Reading(generation, since), result) == Some(Again(AwaitGate(WhenReady(r, g))))
  {
  }

  /** The first read that returns under the live generation gives the session its snapshot. */
  lemma FirstValuesAreTaken(s: Session, g: Gate, value: Snapshot)
    requires Valid(s) && s.reader.initial.InitialRead? && s.reader.initial.read.Reading? && !s.reader.closed
    requires Counted(s.reader, g, s.reader.initial.read.generation)
    ensures var r, s' := s.reader, Next(s, g, InitialRuns(Some(value)));
            && Takes(r, g, s'.reader, value, r.initial.read.generation, r.initial.read.since)
            && s'.reader.initial.Settled? && s'.reader.past.emissions == r.past.emissions
            && (r.dirty && (r.subscriber || r.catchup) ==> 0 < s'.reader.immediates)
            && s'.answers == s.answers && s'.callers == s.callers
  {
    var r := s.reader;
    var o := Accepted(value, r.initial.read.generation, r.initial.read.since);
    InitialRunsOn(s, g, Some(value), o);
    FirstValueIsKept(r, g, o);
    hide Next, Inv, InitialOutcome, Now;
  }

  lemma FirstValueIsKept(r: Reader, g: Gate, o: Outcome)
    requires o.Accepted? && !r.closed
    ensures var r' := InitialOutcome(r, g, o);
            && Takes(r, g, r', o.value, o.generation, o.since) && r'.initial.Settled? && r'.past.emissions == r.past.emissions
            && !r'.closed && (r.dirty && (r.subscriber || r.catchup) && (r.scheduled ==> 0 < r.immediates) && !r.running ==> 0 < r'.immediates)
  {
    hide Now;
  }

  /**
   * A read that lost its listener, whatever it returned, is thrown away: the reader waits for the newest readiness again,
   * and nothing that anybody sees has changed.
   */
  lemma FencedReadsAreThrownAway(s: Session, g: Gate, i: nat, result: Option<Snapshot>)
    requires Valid(s) && i < |s.reader.pumps| && s.reader.pumps[i].read.Reading? && !s.reader.closed
    requires !Counted(s.reader, g, s.reader.pumps[i].read.generation)
    ensures var s' := Next(s, g, PumpRuns(i, result));
            && Nothing(s, s') && !s'.reader.closed && s'.callers == s.callers
            && s'.reader.pumps == s.reader.pumps[i := s.reader.pumps[i].(read := AwaitGate(WhenReady(s.reader, g)))]
  {
    var r := s.reader;
    LostReadsBeginAnew(r, g, r.pumps[i].read.generation, r.pumps[i].read.since, result);
    PumpGoesOn(s, g, i, result, AwaitGate(WhenReady(r, g)));
    hide Next, Inv, Resume, WhenReady;
  }

  lemma FencedFirstReadsAreThrownAway(s: Session, g: Gate, result: Option<Snapshot>)
    requires Valid(s) && s.reader.initial.InitialRead? && s.reader.initial.read.Reading? && !s.reader.closed
    requires !Counted(s.reader, g, s.reader.initial.read.generation)
    ensures var s' := Next(s, g, InitialRuns(result));
            && Nothing(s, s') && !s'.reader.closed && s'.callers == s.callers
            && s'.reader.initial == InitialRead(AwaitGate(WhenReady(s.reader, g)))
  {
    var r := s.reader;
    LostReadsBeginAnew(r, g, r.initial.read.generation, r.initial.read.since, result);
    InitialGoesOn(s, g, result, AwaitGate(WhenReady(r, g)));
    hide Next, Inv, Resume, WhenReady;
  }

  /** What ends a session through one of its reads: an error that no lost listener explains, or a refused readiness. */
  predicate Breaks(r: Reader, g: Gate, read: Read, result: Option<Snapshot>) {
    match read
    case AwaitGate(wait) => CanPass(g, wait) && (wait.Refused? || (wait.Readiness? && g.promises[wait.index].Rejected?))
    case Reading(generation, _) => result.None? && Counted(r, g, generation)
  }

  /** The reader has failed and let go of its lease; nothing was taken or shown. */
  predicate Fails(r: Reader, r': Reader) {
    r'.closed && r'.failed && r'.released && r'.past == r.past && r'.snapshot == r.snapshot
  }

  predicate BreaksBy(r: Reader, g: Gate, e: Event) {
    match e
    case PumpRuns(i, result) => i < |r.pumps| && Breaks(r, g, r.pumps[i].read, result)
    case InitialRuns(result) => r.initial.InitialRead? && Breaks(r, g, r.initial.read, result)
    case LeaseRefused => r.initial.AwaitLease?
    case _ => false
  }

  lemma BrokenResumes(r: Reader, g: Gate, read: Read, result: Option<Snapshot>)
    requires Breaks(r, g, read, result) && !r.closed
    ensures Resume(r, g, read, result) == Some(Threw)
  {
  }

  lemma ThrowingFails(r: Reader, g: Gate, i: nat)
    requires !r.closed
    ensures Fails(r, InitialOutcome(r, g, Threw))
    ensures i < |r.pumps| ==> Fails(r, PumpOutcome(r, g, i, Threw))
  {
    if i < |r.pumps| {
      var e := End(r, true);
      assert Fails(r, e);
      StopOnlyStops(e, i);
      StopSpares(e, i);
      hide PumpStops, End;
    }
  }

  lemma StopSpares(r: Reader, i: nat)
    requires i < |r.pumps|
    ensures PumpStops(r, i).failed == r.failed && PumpStops(r, i).released == r.released
  {
    hide Without;
  }

  lemma BrokenReadersFail(r: Reader, g: Gate, e: Event)
    requires BreaksBy(r, g, e) && !r.closed
    ensures Fails(r, ReaderNext(r, g, e))
  {
    hide Fails, InitialOutcome, PumpOutcome, Resume, Breaks;
    match e
    case PumpRuns(i, result) => BrokenResumes(r, g, r.pumps[i].read, result); ThrowingFails(r, g, i);
    case InitialRuns(result) => BrokenResumes(r, g, r.initial.read, result); ThrowingFails(r, g, 0);
    case LeaseRefused => ThrowingFails(r, g, 0);
  }

  /** Such an end fails the session, and nobody is shown anything. */
  lemma BrokenReadsFailTheSession(s: Session, g: Gate, e: Event)
    requires !s.reader.closed && BreaksBy(s.reader, g, e)
    ensures var s' := Next(s, g, e); Fails(s.reader, s'.reader) && s'.answers == s.answers
  {
    BrokenReadersFail(s.reader, g, e);
    hide Fails, ReaderNext;
  }

  /** A read begins when its readiness has come, under the generation that readiness names, and its stamp is the present. */
  lemma ReadsBeginWhenReady(s: Session, g: Gate, i: nat, j: nat)
    requires Valid(s) && i < |s.reader.pumps| && !s.reader.closed && s.reader.pumps[i].read == AwaitGate(Readiness(j))
    requires j < |g.promises| && g.promises[j].Resolved?
    ensures var s' := Next(s, g, PumpRuns(i, None)); var generation := g.promises[j].generation;
            && s'.reader.pumps == s.reader.pumps[i := s.reader.pumps[i].(read := Reading(generation,
                 Stamp(s.reader.past.changes, s.reader.past.catchups, g.losses, g.IsCurrent(generation))))]
            && Nothing(s, s') && !s'.reader.closed
  {
    ReadinessLetsRead(s.reader, g, j, None);
    PumpGoesOn(s, g, i, None, Resume(s.reader, g, AwaitGate(Readiness(j)), None).value.read);
    hide Next, Inv, Resume;
  }

  lemma FirstReadsBeginWhenReady(s: Session, g: Gate)
    requires Valid(s) && !s.reader.closed
    ensures s.reader.initial.AwaitLease? ==>
              Next(s, g, LeaseReady).reader.initial == InitialRead(AwaitGate(WhenReady(s.reader, g)))
    ensures s.reader.initial.InitialRead? && s.reader.initial.read.AwaitGate? && s.reader.initial.read.wait.Readiness? ==>
              var j := s.reader.initial.read.wait.index;
              j < |g.promises| && g.promises[j].Resolved? ==>
                Next(s, g, InitialRuns(None)).reader.initial == InitialRead(Reading(g.promises[j].generation,
                  Stamp(s.reader.past.changes, s.reader.past.catchups, g.losses, g.IsCurrent(g.promises[j].generation))))
  {
    var r := s.reader;
    if r.initial.AwaitLease? { LeaseBeginsRead(s, g); }
    if r.initial.InitialRead? && r.initial.read.AwaitGate? && r.initial.read.wait.Readiness? {
      var j := r.initial.read.wait.index;
      if j < |g.promises| && g.promises[j].Resolved? {
        ReadinessLetsRead(r, g, j, None);
        InitialGoesOn(s, g, None, Resume(r, g, AwaitGate(Readiness(j)), None).value.read);
      }
    }
    hide Next, Inv, Resume;
  }

  lemma LeaseBeginsRead(s: Session, g: Gate)
    requires !s.reader.closed && s.reader.initial.AwaitLease?
    ensures Next(s, g, LeaseReady).reader.initial == InitialRead(AwaitGate(WhenReady(s.reader, g)))
  {
    hide WhenReady, Cancel;
  }

  /** A scheduled turn begins: a dirty session that has a snapshot starts to read what changed, catching up if it owes that. */
  lemma ScheduledTurnsBegin(s: Session, g: Gate)
    requires Valid(s) && 0 < s.reader.immediates
    ensures var r, s' := s.reader, Next(s, g, ImmediateRuns);
            && s'.reader.immediates == 0 && Nothing(s, s') && s'.callers == s.callers
            && (!r.closed && r.hasValue && r.dirty && r.pumps == [] ==>
                  !s'.reader.dirty && s'.reader.pumps == [Pump(r.catchup, r.past.changes, AwaitGate(WhenReady(r, g)))])
  {
  }

  // ---- callers ----------------------------------------------------------------------------------

  /** The first to adopt an open session becomes its subscriber; everybody who joins waits for the first read. */
  lemma JoinersWait(s: Session, g: Gate, id: nat)
    requires id !in s.callers
    ensures var s' := Next(s, g, Adopts(id));
            if s.reader.closed || s.reader.subscriber then s' == s
            else s' == s.(reader := s.reader.(subscriber := true), callers := s.callers[id := Caller(Adopter, AwaitInitial)])
    ensures var s' := Next(s, g, Asks(id));
            if s.reader.closed then s' == s else s' == s.(callers := s.callers[id := Caller(Asker, AwaitInitial)])
  {
  }

  /** What a caller waits for has been refused. */
  predicate Denied(s: Session, g: Gate, id: nat)
    requires id in s.callers
  {
    match s.callers[id].pc
    case AwaitInitial => s.reader.initial.Broken? || (s.reader.initial.Settled? && s.reader.fenced && g.Refuses())
    case AwaitReady(i) => i < |g.promises| && g.promises[i].Rejected?
    case AwaitWaiter(_, _) => false
  }

  /** The caller is through with waiting: it has been admitted, under this generation. */
  predicate Admitted(s: Session, g: Gate, id: nat, generation: nat)
    requires id in s.callers
  {
    match s.callers[id].pc
    case AwaitInitial => s.reader.initial.Settled? && !s.reader.fenced && generation == 0
    case AwaitReady(i) => i < |g.promises| && g.promises[i] == Resolved(generation)
    case AwaitWaiter(_, _) => false
  }

  /** The caller has its answer, the snapshot; an adopter has been shown it. */
  predicate Answers(s: Session, s': Session, id: nat, generation: nat)
    requires id in s.callers
  {
    var kind := s.callers[id].kind;
    && s'.callers == s.callers - {id} && !s'.reader.closed && s'.reader.snapshot == s.reader.snapshot
    && |s'.answers| == |s.answers| + 1 && s'.answers[..|s.answers|] == s.answers
    && s'.answers[|s.answers|].kind == kind && s'.answers[|s.answers|].value == s'.reader.snapshot
    && s'.answers[|s.answers|].admitted == generation
    && s'.reader.past.emissions == s.reader.past.emissions + (if kind.Adopter? then [s'.reader.snapshot] else [])
    && (kind.Adopter? ==> s'.reader.emitted && (s'.reader.dirty ==> 0 < s'.reader.immediates || s'.reader.pumps != []))
  }

  /** A caller that is refused gets nothing and is gone; an adopter takes the session with it. */
  lemma DeniedCallersGo(s: Session, g: Gate, id: nat)
    requires Valid(s) && id in s.callers && Denied(s, g, id)
    ensures var s' := Next(s, g, CallerRuns(id));
            && id !in s'.callers && Nothing(s, s') && s'.reader.closed == (s.reader.closed || s.callers[id].kind.Adopter?)
  {
    hide Inv;
  }

  /** After the first read a caller of a fenced session waits for the readiness that is newest now. */
  lemma CallersAwaitReadiness(s: Session, g: Gate, id: nat)
    requires Valid(s) && id in s.callers && s.callers[id].pc.AwaitInitial? && s.reader.initial.Settled?
    requires s.reader.fenced && !g.Refuses()
    ensures Next(s, g, CallerRuns(id)) == s.(callers := s.callers[id := s.callers[id].(pc := AwaitReady(|g.promises| - 1))])
  {
    hide Inv;
  }

  /**
   * An admitted caller of an open session is answered at once when nothing is owed; over a fenced source its snapshot then
   * was read after the last change. Otherwise it waits for a read that is in flight, or that begins now, after the last
   * change.
   */
  lemma AdmittedCallersAreServed(s: Session, g: Gate, id: nat, generation: nat)
    requires Valid(s) && id in s.callers && Admitted(s, g, id, generation) && !s.reader.closed && s.reader.hasValue
    ensures var r, s' := s.reader, Next(s, g, CallerRuns(id));
            && s'.reader.snapshot == r.snapshot && s'.reader.past.accepted == r.past.accepted
            && if MustRead(r) then
                 && id in s'.callers && s'.callers[id].pc.AwaitWaiter? && s'.callers[id].pc.generation == generation
                 && s'.callers[id].kind == s.callers[id].kind && s'.answers == s.answers
                 && Outstanding(s'.reader, s'.callers[id].pc.waiter) && s'.reader.pumps != []
                 && (r.pumps == [] ==> s'.reader.pumps[0].floor == r.past.changes && s'.reader.pumps[0].catchingUp == r.catchup)
               else Answers(s, s', id, generation)
                    && (r.fenced ==> r.origin.Some? && r.origin.value.start.changes == r.past.changes)
  {
    var r := s.reader;
    if MustRead(r) {
      PumpStartServes(r, g);
      hide PumpStart, CallerFinish;
    } else {
      FinishAnswers(s, id, generation);
      hide CallerFinish, PumpStart;
    }
    hide Inv, Asked;
  }

  lemma PumpStartServes(r: Reader, g: Gate)
    requires Inv(r) && !r.closed && r.hasValue && MustRead(r)
    ensures var r' := PumpStart(r, g);
            && r'.pumps != [] && WaiterOf(r').Some? && r'.snapshot == r.snapshot && r'.past == r.past && r'.closed == r.closed
            && (r.pumps == [] ==> r'.pumps[0].floor == r.past.changes && r'.pumps[0].catchingUp == r.catchup)
  {
  }

  lemma FinishAnswers(s: Session, id: nat, generation: nat)
    requires Valid(s) && id in s.callers && !s.reader.closed && s.reader.hasValue
    ensures Answers(s, CallerFinish(s, s.reader, id, generation), id, generation)
  {
    FirstEmissionShows(s.reader);
    hide Inv, FirstEmission;
  }

  lemma FirstEmissionShows(r: Reader)
    requires Inv(r) && !r.closed
    ensures var r' := FirstEmission(r);
            && r'.snapshot == r.snapshot && r'.closed == r.closed && r'.emitted && r'.past.emissions == r.past.emissions + [r.snapshot]
            && (r'.dirty ==> 0 < r'.immediates || r'.pumps != [])
  {
  }

  /** Whoever waited for a read is answered with the snapshot once that read is over, or goes when the session has ended. */
  lemma ServedCallersAreAnswered(s: Session, g: Gate, id: nat)
    requires Valid(s) && id in s.callers && s.callers[id].pc.AwaitWaiter? && !Outstanding(s.reader, s.callers[id].pc.waiter)
    ensures var s' := Next(s, g, CallerRuns(id));
            if s.reader.closed then id !in s'.callers && Nothing(s, s') && s'.reader == s.reader
            else Answers(s, s', id, s.callers[id].pc.generation)
  {
    if !s.reader.closed { FinishAnswers(s, id, s.callers[id].pc.generation); hide CallerFinish; }
    hide Inv;
  }

  // ---- acceptance -------------------------------------------------------------------------------

  /** At most one value is accepted in a step; it was read under what is the live generation now, and is stamped so. */
  predicate TakesNow(r: Reader, g: Gate, r': Reader) {
    || r'.past.accepted == r.past.accepted
    || (&& |r'.past.accepted| == |r.past.accepted| + 1 && r'.past.accepted[..|r.past.accepted|] == r.past.accepted
        && var a := r'.past.accepted[|r.past.accepted|]; a.finish == Now(r, g, a.generation) && Counted(r, g, a.generation))
  }

  lemma TakesIsNow(r: Reader, g: Gate, r': Reader, value: Snapshot, generation: nat, start: Stamp)
    requires Takes(r, g, r', value, generation, start) && Counted(r, g, generation)
    ensures TakesNow(r, g, r')
  {
    hide Now;
  }

  lemma PumpTakesNow(s: Session, g: Gate, i: nat, result: Option<Snapshot>)
    requires Valid(s) && !s.reader.closed && i < |s.reader.pumps|
    ensures TakesNow(s.reader, g, Next(s, g, PumpRuns(i, result)).reader)
  {
    var r := s.reader;
    hide Valid, Next, TakesNow;
    match r.pumps[i].read
    case Reading(generation, since) =>
      if !Counted(r, g, generation) {
        FencedReadsAreThrownAway(s, g, i, result);
        SameIsNow(r, g, Next(s, g, PumpRuns(i, result)).reader);
      } else if result.Some? {
        PumpedValuesAreTaken(s, g, i, result.value);
        TakesIsNow(r, g, Next(s, g, PumpRuns(i, result)).reader, result.value, generation, since);
      } else {
        BrokenReadsFailTheSession(s, g, PumpRuns(i, result));
        SameIsNow(r, g, Next(s, g, PumpRuns(i, result)).reader);
      }
    case AwaitGate(wait) =>
      if Breaks(r, g, r.pumps[i].read, result) {
        BrokenReadsFailTheSession(s, g, PumpRuns(i, result));
      } else {
        GateTakesNothing(s, g, i, result);
      }
      SameIsNow(r, g, Next(s, g, PumpRuns(i, result)).reader);
  }

  lemma SameIsNow(r: Reader, g: Gate, r': Reader)
    requires r'.past.accepted == r.past.accepted
    ensures TakesNow(r, g, r')
  {
  }

  lemma GateTakesNothing(s: Session, g: Gate, i: nat, result: Option<Snapshot>)
    requires !s.reader.closed && i < |s.reader.pumps| && s.reader.pumps[i].read.AwaitGate?
    requires !Breaks(s.reader, g, s.reader.pumps[i].read, result)
    ensures Next(s, g, PumpRuns(i, result)).reader.past == s.reader.past
  {
    GatesLeadOn(s.reader, g, s.reader.pumps[i].read, result);
    hide Resume, Breaks;
  }

  lemma GatesLeadOn(r: Reader, g: Gate, read: Read, result: Option<Snapshot>)
    requires !r.closed && read.AwaitGate? && !Breaks(r, g, read, result)
    ensures var o := Resume(r, g, read, result); o.Some? ==> o.value.Again?
  {
  }

  lemma InitialTakesNow(s: Session, g: Gate, result: Option<Snapshot>)
    requires Valid(s) && !s.reader.closed && s.reader.initial.InitialRead?
    ensures TakesNow(s.reader, g, Next(s, g, InitialRuns(result)).reader)
  {
    var r := s.reader;
    hide Valid, Next, TakesNow;
    match r.initial.read
    case Reading(generation, since) =>
      if !Counted(r, g, generation) {
        FencedFirstReadsAreThrownAway(s, g, result);
        SameIsNow(r, g, Next(s, g, InitialRuns(result)).reader);
      } else if result.Some? {
        FirstValuesAreTaken(s, g, result.value);
        TakesIsNow(r, g, Next(s, g, InitialRuns(result)).reader, result.value, generation, since);
      } else {
        BrokenReadsFailTheSession(s, g, InitialRuns(result));
        SameIsNow(r, g, Next(s, g, InitialRuns(result)).reader);
      }
    case AwaitGate(wait) =>
      if Breaks(r, g, r.initial.read, result) {
        BrokenReadsFailTheSession(s, g, InitialRuns(result));
      } else {
        FirstGateTakesNothing(s, g, result);
      }
      SameIsNow(r, g, Next(s, g, InitialRuns(result)).reader);
  }

  lemma FirstGateTakesNothing(s: Session, g: Gate, result: Option<Snapshot>)
    requires !s.reader.closed && s.reader.initial.InitialRead? && s.reader.initial.read.AwaitGate?
    requires !Breaks(s.reader, g, s.reader.initial.read, result)
    ensures Next(s, g, InitialRuns(result)).reader.past == s.reader.past
  {
    GatesLeadOn(s.reader, g, s.reader.initial.read, result);
    hide Resume, Breaks;
  }

  predicate SameAccepted(r: Reader, r': Reader) {
    r'.past.accepted == r.past.accepted
  }

  lemma AdmittedTakesNothing(s: Session, g: Gate, id: nat, generation: nat)
    requires id in s.callers
    ensures SameAccepted(s.reader, CallerAdmitted(s, g, id, generation).reader)
  {
    Outcomes.PumpStartRecords(s.reader, g);
    var r := if MustRead(s.reader) then PumpStart(s.reader, g) else s.reader;
    hide PumpStart, CallerFinish;
    FinishTakesNothing(s, r, id, generation);
  }

  lemma FailingTakesNothing(s: Session, id: nat)
    requires id in s.callers
    ensures SameAccepted(s.reader, CallerFails(s, id).reader)
  {
    hide Cancel;
  }

  lemma CallerTakesNothing(s: Session, g: Gate, id: nat)
    ensures SameAccepted(s.reader, CallerStep(s, g, id).reader)
  {
    assert SameAccepted(s.reader, s.reader);
    hide SameAccepted, CallerAdmitted, CallerFails, CallerFinish;
    if id in s.callers {
      FailingTakesNothing(s, id);
      match s.callers[id].pc
      case AwaitWaiter(generation, _) => FinishTakesNothing(s, s.reader, id, generation);
      case AwaitReady(i) => if i < |g.promises| && g.promises[i].Resolved? { AdmittedTakesNothing(s, g, id, g.promises[i].generation); }
      case AwaitInitial => AdmittedTakesNothing(s, g, id, 0);
    }
  }

  lemma FinishTakesNothing(s: Session, r: Reader, id: nat, generation: nat)
    requires id in s.callers
    ensures SameAccepted(r, CallerFinish(s, r, id, generation).reader)
  {
    FirstEmissionTakesNothing(r);
    hide FirstEmission;
  }

  lemma FirstEmissionTakesNothing(r: Reader)
    ensures SameAccepted(r, FirstEmission(r))
  {
    var r1 := Emit(r.(emitted := true));
    assert SameAccepted(r, r1);
    ScheduleTakesNothing(r1);
    hide Emit, Schedule;
  }

  lemma ScheduleTakesNothing(r: Reader)
    ensures SameAccepted(r, Schedule(r))
  {
  }

  lemma InitialTakesNothing(r: Reader, g: Gate, o: Outcome)
    requires !o.Accepted?
    ensures SameAccepted(r, InitialOutcome(r, g, o))
  {
  }

  lemma ReaderTakesNothing(r: Reader, g: Gate, e: Event)
    requires !e.PumpRuns? && !e.InitialRuns?
    ensures SameAccepted(r, ReaderNext(r, g, e))
  {
    assert SameAccepted(r, r) && SameAccepted(r, End(r, true)) && SameAccepted(r, End(r, false));
    hide Changed, PumpStart, InitialOutcome, End, Resume, PumpOutcome;
    match e
    case SourceChanged(catchup) => Outcomes.ChangedRecords(r, catchup);
    case ImmediateRuns =>
      if r.immediates != 0 { Outcomes.PumpStartRecords(r.(scheduled := false, immediates := r.immediates - 1), g); }
    case LeaseReady => InitialTakesNothing(r, g, ReadTop(r, g));
    case LeaseRefused => InitialTakesNothing(r, g, Threw);
    case _ =>
  }

  lemma OthersTakeNothing(s: Session, g: Gate, e: Event)
    requires !e.PumpRuns? && !e.InitialRuns? && !e.CallerRuns?
    ensures Next(s, g, e).reader.past.accepted == s.reader.past.accepted
  {
    ReaderTakesNothing(s.reader, g, e);
    hide ReaderNext, Cancel;
  }

  /** In any step, whatever it is, a value is accepted only from a read under the generation that is live at that moment. */
  lemma ValuesAreTakenNow(s: Session, g: Gate, e: Event)
    requires Valid(s)
    ensures TakesNow(s.reader, g, Next(s, g, e).reader)
  {
    hide Valid, TakesNow;
    if e.CallerRuns? {
      CallerTakesNothing(s, g, e.id);
      SameIsNow(s.reader, g, Next(s, g, e).reader);
    } else if s.reader.closed {
      Outcomes.ClosedSessionRests(s, g, e);
      hide Next;
      SameIsNow(s.reader, g, Next(s, g, e).reader);
    } else if e.PumpRuns? && e.pump < |s.reader.pumps| {
      PumpTakesNow(s, g, e.pump, e.result);
    } else if e.InitialRuns? && s.reader.initial.InitialRead? {
      InitialTakesNow(s, g, e.result);
    } else {
      if e.PumpRuns? || e.InitialRuns? { assert Next(s, g, e).reader == s.reader; } else { OthersTakeNothing(s, g, e); }
      hide Next;
      SameIsNow(s.reader, g, Next(s, g, e).reader);
    }
  }
}
