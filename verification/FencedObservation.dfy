/**
 * A session over a PostgreSQL lease, composed with every environment that keeps `Rely`: what the generation counter
 * and the readiness promises of the entry buy the session.
 */
module FencedObservation {
  import opened Options
  import opened ObservationGate
  import opened DrizzleObservationSession

  datatype Observation = Observation(gate: Gate, session: Session)

  /**
   * A step of the entry, with the callbacks it makes for this lease (`changed`, with its catch-up flag, and at most one
   * `fail` or `complete`), or a step of the session itself.
   */
  datatype Step =
    | EntryMoves(gate: Gate, signals: seq<bool>, ended: Option<bool>)
    | SessionMoves(event: Event)

  function Deliver(r: Reader, signals: seq<bool>): Reader
    decreases |signals|
  {
    if signals == [] then r else Deliver(Changed(r, signals[0]), signals[1..])
  }

  /** A lease is taken from a session only together with the callback that closes it. */
  ghost predicate Allowed(g: Gate, m: Step)
    requires m.EntryMoves?
  {
    Rely(g, m.gate, true in m.signals) && (m.gate.released && !g.released ==> m.ended.Some?)
  }

  /** The source's callbacks belong to the entry; the lease reports ready only once it is validated. */
  predicate Enabled(g: Gate, e: Event) {
    !e.SourceChanged? && !e.SourceFailed? && (e.LeaseReady? ==> g.keyed)
  }

  ghost function Apply(o: Observation, m: Step): Observation {
    match m
    case EntryMoves(gate, signals, ended) =>
      if !Allowed(o.gate, m) then o else
        var r := Deliver(o.session.reader, signals);
        Observation(gate, Put(o.session, if ended.Some? then End(r, ended.value) else r))
    case SessionMoves(event) =>
      if !Enabled(o.gate, event) then o else o.(session := Next(o.session, o.gate, event))
  }

  ghost function Run(o: Observation, trace: seq<Step>): Observation {
    if trace == [] then o else Apply(Run(o, trace[..|trace| - 1]), trace[|trace| - 1])
  }

  // ---- invariant --------------------------------------------------------------------------------

  /**
   * A read under a generation that is still the entry's generation began while that listener was live, nothing has
   * been lost since, and no catch-up has been asked for since.
   */
  ghost predicate ReadSound(g: Gate, catchups: nat, read: Read) {
    match read
    case AwaitGate(wait) => !wait.Tick? && (wait.Readiness? ==> wait.index < |g.promises|)
    case Reading(generation, since) =>
      && generation <= g.restored && since.losses <= g.losses && since.catchups <= catchups
      && (generation == g.generation ==>
            g.available && !g.dead && since.live && since.losses == g.losses && since.catchups == catchups)
  }

  ghost predicate Reads(g: Gate, r: Reader) {
    && r.fenced
    && (r.initial.InitialRead? || r.initial.Settled? ==> g.keyed)
    && (r.initial.InitialRead? ==> ReadSound(g, r.past.catchups, r.initial.read))
    && (forall i :: 0 <= i < |r.pumps| ==> ReadSound(g, r.past.catchups, r.pumps[i].read))
  }

  /** A snapshot was read wholly inside one live generation. */
  predicate Unbroken(a: Acceptance) {
    a.start.live && a.finish.live && a.start.losses == a.finish.losses
  }

  /** A catch-up was served by a read that began after every catch-up asked for so far. */
  predicate Served(t: Retirement) {
    t.start.catchups == t.finish.catchups
  }

  ghost predicate Past(h: History) {
    && (forall i :: 0 <= i < |h.accepted| ==> Unbroken(h.accepted[i]))
    && (forall i :: 0 <= i < |h.retired| ==> Served(h.retired[i]))
  }

  /** An open session that owes no catch-up holds a snapshot of the generation that is, or was last, available. */
  ghost predicate Held(g: Gate, r: Reader) {
    !r.closed && r.origin.Some? && !r.catchup ==> r.origin.value.generation == g.restored
  }

  ghost predicate Waits(g: Gate, r: Reader, caller: Caller) {
    match caller.pc
    case AwaitInitial => true
    case AwaitReady(i) => i < |g.promises|
    case AwaitWaiter(generation, waiter) =>
      generation <= g.restored &&
      (!r.closed ==> r.origin.Some? && (generation <= r.origin.value.generation || r.catchupFinished == Some(waiter)))
  }

  ghost predicate AllWait(g: Gate, r: Reader, callers: map<nat, Caller>) {
    forall id :: id in callers ==> Waits(g, r, callers[id])
  }

  /** Every answer was read no earlier than under the generation whose readiness admitted its caller. */
  ghost predicate Answered(answers: seq<Answer>) {
    forall i :: 0 <= i < |answers| ==> answers[i].admitted <= answers[i].generation
  }

  ghost predicate Callers(g: Gate, s: Session) {
    AllWait(g, s.reader, s.callers) && Answered(s.answers)
  }

  /** What a reader keeps even while a catch-up signal is still to be delivered. */
  ghost predicate Guarded(g: Gate, r: Reader) {
    && Inv(r) && Reads(g, r) && Past(r.past)
    && (r.origin.Some? ==> r.origin.value.generation <= g.restored)
  }

  ghost predicate FencedReader(g: Gate, r: Reader) {
    Guarded(g, r) && Held(g, r)
  }

  ghost predicate Fenced(o: Observation) {
    && o.gate.Valid() && (o.gate.released ==> o.session.reader.closed)
    && Valid(o.session)
    && FencedReader(o.gate, o.session.reader)
    && Callers(o.gate, o.session)
  }

  // ---- a step of the entry ----------------------------------------------------------------------

  /** What `changed` callbacks leave alone; `asked` says whether one of them asked for a catch-up. */
  predicate Signalled(r: Reader, d: Reader, asked: bool) {
    && d.fenced == r.fenced && d.initial == r.initial && d.pumps == r.pumps && d.closed == r.closed
    && d.origin == r.origin && d.subscriber == r.subscriber && d.hasValue == r.hasValue
    && d.past.accepted == r.past.accepted && d.past.retired == r.past.retired
    && (!asked ==> d.past.catchups == r.past.catchups && d.catchup == r.catchup)
    && (asked && !r.closed ==> d.catchup)
    && r.past.catchups <= d.past.catchups
    && (r.catchup ==> d.catchup)
    && (r.catchupFinished.Some? ==> d.catchupFinished == r.catchupFinished)
  }

  lemma SignalledTwice(r: Reader, d: Reader, e: Reader, first: bool, second: bool)
    requires Signalled(r, d, first) && Signalled(d, e, second)
    ensures Signalled(r, e, first || second)
  {
  }

  lemma ScheduleSignals(r: Reader)
    ensures Signalled(r, Schedule(r), false)
  {
  }

  lemma DirtiedSignals(r: Reader)
    ensures Signalled(r, Dirtied(r), false)
  {
  }

  lemma CatchupAskedSignals(r: Reader)
    ensures Signalled(r, CatchupAsked(r), true)
  {
  }

  lemma ChangedSignals(r: Reader, catchup: bool)
    ensures Signalled(r, Changed(r, catchup), catchup)
  {
    if !r.closed {
      var d := Dirtied(r);
      var e := if catchup then CatchupAsked(d) else d;
      DirtiedSignals(r);
      CatchupAskedSignals(d);
      ScheduleSignals(e);
      hide Dirtied, CatchupAsked, Schedule;
      assert d.subscriber == r.subscriber;
      hide Signalled;
      if catchup { SignalledTwice(r, d, e, false, true); }
      SignalledTwice(r, e, Schedule(e), catchup, false);
    }
  }

  lemma SignalledNothing(r: Reader)
    ensures Signalled(r, r, false)
  {
  }

  lemma {:induction false} DeliverFacts(r: Reader, signals: seq<bool>)
    requires Inv(r)
    ensures Inv(Deliver(r, signals))
    ensures Signalled(r, Deliver(r, signals), true in signals)
    decreases |signals|
  {
    hide Inv, Changed, Signalled;
    if signals == [] {
      SignalledNothing(r);
    } else {
      var first, rest := Changed(r, signals[0]), signals[1..];
      assert Deliver(r, signals) == Deliver(first, rest);
      assert true in signals <==> signals[0] || true in rest;
      hide Deliver;
      ChangedKeeps(r, signals[0]);
      ChangedSignals(r, signals[0]);
      DeliverFacts(first, rest);
      SignalledTwice(r, first, Deliver(first, rest), signals[0], true in rest);
    }
  }

  /** The heart of the fence: a read the entry's step could invalidate no longer carries the entry's generation. */
  lemma ReadSurvives(g: Gate, g': Gate, catchup: bool, read: Read, before: nat, after: nat)
    requires g.Valid() && Rely(g, g', catchup) && ReadSound(g, before, read)
    requires before <= after && (!catchup ==> after == before)
    ensures ReadSound(g', after, read)
  {
  }

  lemma EntryKeepsReader(g: Gate, g': Gate, r: Reader, signals: seq<bool>)
    requires g.Valid() && FencedReader(g, r) && Rely(g, g', true in signals)
    ensures var d := Deliver(r, signals); Guarded(g', d)
    ensures g'.released ==> r.closed ==> Held(g', Deliver(r, signals))
    ensures !g'.released ==> Held(g', Deliver(r, signals))
  {
    DeliverFacts(r, signals);
    var d := Deliver(r, signals);
    hide Inv, Deliver, Rely;
    if r.initial.InitialRead? {
      ReadSurvives(g, g', true in signals, r.initial.read, r.past.catchups, d.past.catchups);
    }
    forall i | 0 <= i < |r.pumps| ensures ReadSound(g', d.past.catchups, d.pumps[i].read) {
      ReadSurvives(g, g', true in signals, r.pumps[i].read, r.past.catchups, d.past.catchups);
    }
    RelyGrows(g, g', true in signals);
    assert Reads(g', d);
  }

  lemma RelyGrows(g: Gate, g': Gate, catchup: bool)
    requires Rely(g, g', catchup)
    ensures g.keyed ==> g'.keyed
    ensures g.restored <= g'.restored && |g.promises| <= |g'.promises|
    ensures g'.restored != g.restored && g.keyed ==> catchup || g'.released
  {
  }

  lemma EndFenced(g: Gate, r: Reader, failed: bool)
    requires Guarded(g, r)
    ensures FencedReader(g, End(r, failed))
  {
    EndKeeps(r, failed);
    hide Inv;
  }

  lemma EntryKeepsCallers(g: Gate, g': Gate, s: Session, signals: seq<bool>, ended: Option<bool>)
    requires g.Valid() && Fenced(Observation(g, s)) && Rely(g, g', true in signals)
    ensures var d := Deliver(s.reader, signals);
            Callers(g', Put(s, if ended.Some? then End(d, ended.value) else d))
  {
    DeliverFacts(s.reader, signals);
    RelyGrows(g, g', true in signals);
    hide Inv, Deliver, Rely, Valid, FencedReader;
  }

  lemma EntryKeeps(o: Observation, m: Step)
    requires Fenced(o) && m.EntryMoves?
    ensures Fenced(Apply(o, m))
  {
    if Allowed(o.gate, m) {
      var r := o.session.reader;
      var d := Deliver(r, m.signals);
      EntryKeepsReader(o.gate, m.gate, r, m.signals);
      EntryKeepsCallers(o.gate, m.gate, o.session, m.signals, m.ended);
      DeliverFacts(r, m.signals);
      var r' := if m.ended.Some? then End(d, m.ended.value) else d;
      assert m.gate.released ==> r'.closed;
      assert r'.subscriber == r.subscriber && r'.hasValue == r.hasValue;
      hide Inv, Deliver, Rely, Asked, Reads, Past, Callers;
      if m.ended.Some? { EndFenced(m.gate, d, m.ended.value); }
      PutKeeps(o.session, r');
    }
  }

  // ---- a step of the session --------------------------------------------------------------------

  /** What a resumed read hands on: a read that is still sound, or a value of the generation that is live now. */
  lemma ResumeFenced(g: Gate, r: Reader, read: Read, result: Option<Snapshot>)
    requires g.Valid() && r.fenced && ReadSound(g, r.past.catchups, read)
    ensures var o := Resume(r, g, read, result);
            && (o.Some? && o.value.Again? ==> ReadSound(g, r.past.catchups, o.value.read))
            && (o.Some? && o.value.Accepted? ==> Proper(g, r, o.value))
  {
  }

  /** An accepted value belongs to the live generation, and to no older one. */
  ghost predicate Proper(g: Gate, r: Reader, o: Outcome)
    requires o.Accepted?
  {
    && g.IsCurrent(o.generation) && o.generation == g.restored
    && o.since.live && o.since.losses == g.losses && o.since.catchups == r.past.catchups
  }

  /** What a reader's internal step leaves alone. */
  ghost predicate Leaves(r: Reader, r': Reader) {
    && r'.fenced == r.fenced && r'.initial == r.initial && r'.pumps == r.pumps && r'.closed == r.closed
    && r'.past.catchups == r.past.catchups
  }

  lemma AcceptFenced(g: Gate, r: Reader, o: Outcome)
    requires g.Valid() && Past(r.past) && o.Accepted? && Proper(g, r, o)
    ensures var r' := Accept(r, g, o);
            Past(r'.past) && Leaves(r, r') && r'.origin.Some? && r'.origin.value.generation == g.restored
  {
  }

  /** A reader's step leaves behind a newer snapshot or the same one, and drops a waiter only with a current snapshot. */
  ghost predicate Advances(g: Gate, r: Reader, r': Reader) {
    && (r.closed ==> r'.closed)
    && (!r'.closed && r.origin.Some? ==>
          r'.origin == r.origin || (r'.origin.Some? && r'.origin.value.generation == g.restored))
    && (!r'.closed && r.catchupFinished.Some? ==>
          r'.catchupFinished == r.catchupFinished || (r'.origin.Some? && r'.origin.value.generation == g.restored))
  }

  lemma InitialFenced(g: Gate, r: Reader, o: Outcome)
    requires g.Valid() && g.keyed && FencedReader(g, r) && !r.hasValue && Inv(InitialOutcome(r, g, o))
    requires o.Again? ==> ReadSound(g, r.past.catchups, o.read)
    requires o.Accepted? ==> Proper(g, r, o)
    ensures FencedReader(g, InitialOutcome(r, g, o))
    ensures Advances(g, r, InitialOutcome(r, g, o))
  {
    if o.Accepted? { AcceptFenced(g, r, o); }
  }

  /** A fresh turn of the pump waits at a gate, so it disturbs nothing that was read. */
  lemma IterateFenced(g: Gate, r: Reader)
    requires g.Valid() && r.fenced
    ensures ReadSound(g, r.past.catchups, Iterate(r, g).1.read)
    ensures var r' := Iterate(r, g).0;
            && r'.origin == r.origin && r'.past == r.past && r'.closed == r.closed && r'.catchup == r.catchup
            && r'.catchupFinished == r.catchupFinished && r'.initial == r.initial && r'.fenced == r.fenced
  {
  }

  lemma PumpStartFenced(g: Gate, r: Reader)
    requires g.Valid() && Reads(g, r) && Past(r.past) && Held(g, r) && Inv(PumpStart(r, g))
    requires r.origin.Some? ==> r.origin.value.generation <= g.restored
    ensures FencedReader(g, PumpStart(r, g))
    ensures Advances(g, r, PumpStart(r, g))
  {
    if !(r.pumpPromise || r.closed || !r.hasValue || !r.dirty) {
      IterateFenced(g, r.(running := true, pumpPromise := true));
      hide Inv, Iterate, Past;
    }
  }

  lemma ServeFenced(r: Reader, catchingUp: bool, start: Stamp, finish: Stamp)
    requires Past(r.past) && start.catchups == finish.catchups
    ensures var r' := Serve(r, catchingUp, start, finish); Past(r'.past) && Leaves(r, r') && r'.origin == r.origin
  {
  }

  lemma ShowFenced(r: Reader)
    requires Past(r.past)
    ensures var r' := Show(r); Past(r'.past) && Leaves(r, r') && r'.origin == r.origin
  {
  }

  lemma PumpAcceptsFenced(g: Gate, r: Reader, catchingUp: bool, o: Outcome)
    requires g.Valid() && Past(r.past) && o.Accepted? && Proper(g, r, o)
    ensures var r' := PumpAccepts(r, g, catchingUp, o);
            Past(r'.past) && Leaves(r, r') && r'.origin.Some? && r'.origin.value.generation == g.restored
  {
    AcceptFenced(g, r, o);
    hide Accept, Past, Serve, Show;
    ServeFenced(Accept(r, g, o), catchingUp, o.since, Now(r, g, o.generation));
    ShowFenced(Serve(Accept(r, g, o), catchingUp, o.since, Now(r, g, o.generation)));
  }

  lemma PumpLoopFenced(g: Gate, r: Reader)
    requires g.Valid() && Reads(g, r) && Past(r.past) && r.pumps != [] && Inv(PumpLoop(r, g, 0)) && |r.pumps| == 1
    requires r.origin.Some? && r.origin.value.generation == g.restored
    ensures FencedReader(g, PumpLoop(r, g, 0))
    ensures PumpLoop(r, g, 0).origin == r.origin
  {
    if r.dirty && !r.closed {
      IterateFenced(g, r);
      hide Inv, Iterate, Past;
    }
  }

  lemma PumpFenced(g: Gate, r: Reader, i: nat, o: Outcome)
    requires g.Valid() && FencedReader(g, r) && i < |r.pumps| && Inv(PumpOutcome(r, g, i, o))
    requires o.Again? ==> ReadSound(g, r.past.catchups, o.read)
    requires o.Accepted? ==> Proper(g, r, o)
    ensures FencedReader(g, PumpOutcome(r, g, i, o))
    ensures Advances(g, r, PumpOutcome(r, g, i, o))
  {
    assert |r.pumps| == 1;
    hide PumpAccepts, PumpLoop, Inv;
    if o.Accepted? && !r.closed {
      PumpAcceptsFenced(g, r, r.pumps[i].catchingUp, o);
      PumpLoopFenced(g, PumpAccepts(r, g, r.pumps[i].catchingUp, o));
    }
  }

  lemma ReaderFenced(g: Gate, r: Reader, e: Event)
    requires g.Valid() && FencedReader(g, r) && Enabled(g, e)
    ensures FencedReader(g, ReaderNext(r, g, e))
    ensures Advances(g, r, ReaderNext(r, g, e))
  {
    if e.LeaseReady? || e.LeaseRefused? || e.InitialRuns? {
      InitialMovesFenced(g, r, e);
    } else {
      OtherMovesFenced(g, r, e);
    }
    hide FencedReader, Advances, ReaderNext;
  }

  /** The first read begins, goes on, or is refused. */
  lemma InitialMovesFenced(g: Gate, r: Reader, e: Event)
    requires g.Valid() && FencedReader(g, r) && Enabled(g, e) && (e.LeaseReady? || e.LeaseRefused? || e.InitialRuns?)
    ensures FencedReader(g, ReaderNext(r, g, e))
    ensures Advances(g, r, ReaderNext(r, g, e))
  {
    assert r.initial.InitialRead? || r.initial.AwaitLease? ==> !r.hasValue;
    ReaderKeeps(r, g, e);
    hide Inv, InitialOutcome, Resume, Past, ReadTop;
    match e
    case LeaseReady =>
      if r.initial.AwaitLease? {
        ReadTopFenced(g, r);
        InitialFenced(g, r, ReadTop(r, g));
      }
    case LeaseRefused => if r.initial.AwaitLease? { InitialRefused(g, r); }
    case InitialRuns(result) =>
      if r.initial.InitialRead? {
        ResumeFenced(g, r, r.initial.read, result);
        var o := Resume(r, g, r.initial.read, result);
        if o.Some? { InitialFenced(g, r, o.value); }
      }
  }

  lemma ReadTopFenced(g: Gate, r: Reader)
    requires g.Valid() && r.fenced
    ensures !ReadTop(r, g).Accepted? && (ReadTop(r, g).Again? ==> ReadSound(g, r.past.catchups, ReadTop(r, g).read))
  {
  }

  /** A pump starts or goes on, or the session closes. */
  lemma OtherMovesFenced(g: Gate, r: Reader, e: Event)
    requires g.Valid() && FencedReader(g, r) && Enabled(g, e) && !(e.LeaseReady? || e.LeaseRefused? || e.InitialRuns?)
    ensures FencedReader(g, ReaderNext(r, g, e))
    ensures Advances(g, r, ReaderNext(r, g, e))
  {
    ReaderKeeps(r, g, e);
    hide Inv, PumpOutcome, PumpStart, Resume, Past;
    match e
    case Closed => EndFenced(g, r, false);
    case ImmediateRuns =>
      if 0 < r.immediates && !r.closed { PumpStartFenced(g, r.(scheduled := false, immediates := r.immediates - 1)); }
    case PumpRuns(i, result) =>
      if i < |r.pumps| {
        ResumeFenced(g, r, r.pumps[i].read, result);
        var o := Resume(r, g, r.pumps[i].read, result);
        if o.Some? { PumpFenced(g, r, i, o.value); }
      }
    case _ =>
  }

  lemma InitialRefused(g: Gate, r: Reader)
    requires g.Valid() && FencedReader(g, r) && r.initial.AwaitLease? && Inv(InitialOutcome(r, g, Threw))
    ensures FencedReader(g, InitialOutcome(r, g, Threw))
    ensures Advances(g, r, InitialOutcome(r, g, Threw))
  {
    hide Inv;
  }

  // ---- the callers ------------------------------------------------------------------------------

  ghost predicate Kept(g: Gate, s: Session, s': Session) {
    Callers(g, s') && FencedReader(g, s'.reader) && (s.reader.closed ==> s'.reader.closed)
  }

  lemma AllWaitOn(g: Gate, r: Reader, r': Reader, callers: map<nat, Caller>, fewer: map<nat, Caller>)
    requires AllWait(g, r, callers) && Advances(g, r, r')
    requires r.origin.Some? ==> r.origin.value.generation <= g.restored
    requires forall id :: id in fewer ==> id in callers && fewer[id] == callers[id]
    ensures AllWait(g, r', fewer)
  {
  }

  lemma FirstEmissionFenced(g: Gate, r: Reader)
    requires g.Valid() && FencedReader(g, r) && Inv(FirstEmission(r))
    ensures var r' := FirstEmission(r); FencedReader(g, r') && Advances(g, r, r')
  {
    hide Inv;
  }

  /** An answer is given only from a snapshot at least as recent as the readiness that admitted its caller. */
  lemma CallerFinishFenced(g: Gate, s: Session, r: Reader, id: nat, generation: nat)
    requires g.Valid() && Callers(g, s) && id in s.callers && FencedReader(g, r) && Advances(g, s.reader, r)
    requires s.reader.origin.Some? ==> s.reader.origin.value.generation <= g.restored
    requires r.closed || (r.origin.Some? && generation <= r.origin.value.generation)
    requires s.callers[id].kind.Adopter? && !r.closed ==> Inv(FirstEmission(r))
    ensures var s' := CallerFinish(s, r, id, generation); Kept(g, s, s')
  {
    AllWaitOn(g, s.reader, r, s.callers, s.callers - {id});
    if s.callers[id].kind.Adopter? && !r.closed {
      FirstEmissionFenced(g, r);
      AllWaitOn(g, r, FirstEmission(r), s.callers - {id}, s.callers - {id});
    }
    assert s.reader.closed ==> r.closed;
    hide Inv, FirstEmission, Reads, Past, AllWait, Advances;
  }

  lemma CallerWaitsFenced(g: Gate, s: Session, r: Reader, id: nat, pc: CallerPc)
    requires Callers(g, s) && id in s.callers && Advances(g, s.reader, r)
    requires s.reader.origin.Some? ==> s.reader.origin.value.generation <= g.restored
    requires Waits(g, r, s.callers[id].(pc := pc))
    ensures AllWait(g, r, s.callers[id := s.callers[id].(pc := pc)])
  {
    AllWaitOn(g, s.reader, r, s.callers, s.callers);
    hide Waits, Advances;
  }

  /** A reader that owes nothing holds a snapshot of the last available generation. */
  lemma OwesNothing(g: Gate, r: Reader)
    requires FencedReader(g, r) && r.hasValue && !r.closed && r.catchupFinished.None?
    ensures r.origin.Some? && r.origin.value.generation == g.restored
  {
  }

  lemma AdmittedReader(g: Gate, r: Reader)
    requires g.Valid() && FencedReader(g, r)
    ensures var r' := if MustRead(r) then PumpStart(r, g) else r;
            FencedReader(g, r') && Advances(g, r, r') && r'.hasValue == r.hasValue && r'.subscriber == r.subscriber
  {
    PumpStartKeeps(r, g);
    PumpStartSettles(r, g);
    if MustRead(r) { PumpStartFenced(g, r); }
    hide Inv, PumpStart, Reads, Past;
  }

  lemma CallerAdmittedFenced(g: Gate, s: Session, id: nat, generation: nat)
    requires g.Valid() && Valid(s) && FencedReader(g, s.reader) && Callers(g, s) && id in s.callers
    requires s.reader.hasValue && generation <= g.restored
    ensures var s' := CallerAdmitted(s, g, id, generation); Kept(g, s, s')
  {
    var r := if MustRead(s.reader) then PumpStart(s.reader, g) else s.reader;
    AdmittedReader(g, s.reader);
    assert s.callers[id].kind.Adopter? ==> s.reader.subscriber;
    if s.callers[id].kind.Adopter? && !r.closed { FirstEmissionKeeps(r); }
    if !r.closed && r.catchupFinished.None? { OwesNothing(g, r); }
    assert !r.closed ==> r.origin.Some?;
    assert s.reader.closed ==> r.closed;
    assert !MustRead(s.reader) && !r.closed ==> r.catchupFinished.None?;
    hide Inv, PumpStart, Reads, Past, AllWait, Advances, CallerFinish, FirstEmission, Held, Asked, MustRead;
    if MustRead(s.reader) && WaiterOf(r).Some? {
      CallerWaitsFenced(g, s, r, id, AwaitWaiter(generation, WaiterOf(r).value));
    } else {
      CallerFinishFenced(g, s, r, id, generation);
    }
  }

  lemma CallerFailsFenced(g: Gate, s: Session, id: nat)
    requires g.Valid() && FencedReader(g, s.reader) && Callers(g, s) && id in s.callers
    ensures var s' := CallerFails(s, id); Kept(g, s, s')
  {
    EndFenced(g, s.reader, false);
    var e := End(s.reader, false);
    AllWaitOn(g, s.reader, s.reader, s.callers, s.callers - {id});
    AllWaitOn(g, s.reader, e, s.callers, Cancel(s.callers) - {id});
    AllWaitOn(g, s.reader, e, s.callers, s.callers - {id});
    hide Inv, Reads, Past, AllWait, Advances, Cancel;
  }

  lemma CallerStepFenced(g: Gate, s: Session, id: nat)
    requires g.Valid() && Valid(s) && FencedReader(g, s.reader) && Callers(g, s)
    ensures var s' := CallerStep(s, g, id); Kept(g, s, s')
  {
    if id in s.callers {
      var r := s.reader;
      assert Waits(g, r, s.callers[id]);
      assert r.initial.Settled? ==> r.hasValue;
      assert !s.callers[id].pc.AwaitInitial? ==> r.hasValue;
      assert s.callers[id].kind.Adopter? ==> r.subscriber;
      assert r.fenced;
      if s.callers[id].kind.Adopter? && !r.closed && r.hasValue { FirstEmissionKeeps(r); }
      hide Inv, Reads, Past, AllWait, Advances, Asked, CallerAdmitted, CallerFinish, CallerFails, Held, FirstEmission;
      match s.callers[id].pc
      case AwaitInitial =>
        if r.initial.Broken? || (r.initial.Settled? && g.Refuses()) {
          CallerFailsFenced(g, s, id);
        } else if r.initial.Settled? {
          AdvancesNowhere(g, r);
          CallerWaitsFenced(g, s, r, id, AwaitReady(|g.promises| - 1));
        }
      case AwaitReady(i) =>
        if g.promises[i].Resolved? {
          CallerAdmittedFenced(g, s, id, g.promises[i].generation);
        } else if g.promises[i].Rejected? {
          CallerFailsFenced(g, s, id);
        }
      case AwaitWaiter(generation, waiter) =>
        if !Outstanding(r, waiter) {
          AdvancesNowhere(g, r);
          CallerFinishFenced(g, s, r, id, generation);
        }
    }
  }

  lemma AdvancesClosed(g: Gate, r: Reader, r': Reader)
    requires Advances(g, r, r')
    ensures r.closed ==> r'.closed
  {
  }

  lemma AdvancesNowhere(g: Gate, r: Reader)
    ensures Advances(g, r, r)
  {
  }

  lemma JoinFenced(g: Gate, s: Session, id: nat)
    requires g.Valid() && FencedReader(g, s.reader) && Callers(g, s) && Valid(Adopt(s, id))
    ensures var s' := Adopt(s, id); Kept(g, s, s')
    ensures var s' := Current(s, id); Kept(g, s, s')
  {
    AllWaitOn(g, s.reader, s.reader.(subscriber := true), s.callers, s.callers);
    hide Inv, Past;
  }

  lemma SessionKeeps(o: Observation, e: Event)
    requires Fenced(o)
    ensures Fenced(Apply(o, SessionMoves(e)))
  {
    if Enabled(o.gate, e) {
      var g, s := o.gate, o.session;
      NextKeeps(s, g, e);
      hide Valid, FencedReader, Callers, Adopt, Current, CallerStep, Put, ReaderNext;
      SessionFenced(g, s, e);
    }
  }

  lemma SessionFenced(g: Gate, s: Session, e: Event)
    requires Fenced(Observation(g, s)) && Enabled(g, e) && Valid(Next(s, g, e))
    ensures var s' := Next(s, g, e); Kept(g, s, s')
  {
    match e
    case Adopts(id) => JoinFenced(g, s, id);
    case Asks(id) => JoinFenced(g, s, id);
    case CallerRuns(id) => CallerStepFenced(g, s, id);
    case _ =>
      hide Inv, Reads, Past, Held, AllWait, Advances, Asked, ReaderNext, Cancel;
      var r := ReaderNext(s.reader, g, e);
      ReaderFenced(g, s.reader, e);
      AdvancesClosed(g, s.reader, r);
      AllWaitOn(g, s.reader, r, s.callers, s.callers);
      CancelShrinks(s.callers);
      AllWaitOn(g, s.reader, r, s.callers, Cancel(s.callers));
  }

  lemma CancelShrinks(callers: map<nat, Caller>)
    ensures forall id :: id in Cancel(callers) ==> id in callers && Cancel(callers)[id] == callers[id]
  {
  }

  // ---- what every run keeps ---------------------------------------------------------------------

  /** An entry that has just been created has one pending promise, and nothing to read under. */
  function Fresh(): Gate {
    Gate(false, false, false, 0, [Pending], false, false, 0, 0)
  }

  lemma ApplyKeeps(o: Observation, m: Step)
    requires Fenced(o)
    ensures Fenced(Apply(o, m))
  {
    if m.EntryMoves? { EntryKeeps(o, m); } else { SessionKeeps(o, m.event); }
  }

  lemma {:induction false} RunKeeps(gate: Gate, trace: seq<Step>)
    requires gate.Valid() && !gate.released
    ensures Fenced(Run(Observation(gate, Open(true)), trace))
  {
    if trace != [] {
      var last := |trace| - 1;
      RunKeeps(gate, trace[..last]);
      hide Fenced, Apply;
      ApplyKeeps(Run(Observation(gate, Open(true)), trace[..last]), trace[last]);
    }
  }

  /**
   * Generation fencing: whatever the entry, its connections and the callers do, every value a session ever accepted was
   * read wholly inside one listener generation, live from before the read began until it was accepted, with no loss in
   * between.
   */
  lemma EveryAcceptedReadIsUnbroken(gate: Gate, trace: seq<Step>, i: nat)
    requires gate.Valid() && !gate.released
    requires i < |Run(Observation(gate, Open(true)), trace).session.reader.past.accepted|
    ensures Unbroken(Run(Observation(gate, Open(true)), trace).session.reader.past.accepted[i])
  {
    RunKeeps(gate, trace);
    hide Run;
  }

  /** A catch-up waiter is released only by a read that began after every catch-up asked for before its release. */
  lemma EveryCatchupIsServed(gate: Gate, trace: seq<Step>, i: nat)
    requires gate.Valid() && !gate.released
    requires i < |Run(Observation(gate, Open(true)), trace).session.reader.past.retired|
    ensures Served(Run(Observation(gate, Open(true)), trace).session.reader.past.retired[i])
  {
    RunKeeps(gate, trace);
    hide Run;
  }

  /**
   * Whoever is handed a snapshot, by `current()` or as an adopter's first emission, gets one read under the generation
   * whose readiness admitted it, or a later one: nobody is answered from before the loss they waited out.
   */
  lemma NobodyIsAnsweredFromBeforeTheirWait(gate: Gate, trace: seq<Step>, i: nat)
    requires gate.Valid() && !gate.released
    requires i < |Run(Observation(gate, Open(true)), trace).session.answers|
    ensures var answer := Run(Observation(gate, Open(true)), trace).session.answers[i]; answer.admitted <= answer.generation
  {
    RunKeeps(gate, trace);
    hide Run;
  }

  /**
   * A session at rest over an available entry holds, and has shown, a snapshot of the entry's current generation whose
   * read began after the last change: every recovery is followed by a fresh read.
   */
  lemma RestingObservationIsCurrent(gate: Gate, trace: seq<Step>)
    requires gate.Valid() && !gate.released
    requires var o := Run(Observation(gate, Open(true)), trace);
             o.session.reader.emitted && !o.session.reader.closed && Quiescent(o.session.reader) && o.gate.available && !o.gate.dead
    ensures var o := Run(Observation(gate, Open(true)), trace);
            && o.session.reader.origin.Some?
            && o.session.reader.origin.value.generation == o.gate.generation
            && o.session.reader.origin.value.start.changes == o.session.reader.past.changes
            && o.session.reader.past.emissions != []
            && o.session.reader.past.emissions[|o.session.reader.past.emissions| - 1] == o.session.reader.origin.value.value
  {
    RunKeeps(gate, trace);
    hide Run;
  }
}
