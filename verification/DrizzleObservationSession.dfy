/**
 * The single-flight convergent reader behind every live Drizzle query
 * (Source/Drizzle/DrizzleObservationSession.ts), as a state machine. A step is the code between two awaits;
 * a coroutine that is suspended at an await is a value in `initial`, `pumps` or `callers`.
 */
module DrizzleObservationSession {
  import opened Options
  import opened ObservationGate

  /** The content of one snapshot; only its identity matters here. */
  type Snapshot = nat

  /** When a read began: how many changes, catch-up requests and losses preceded it, and whether its listener was live. */
  datatype Stamp = Stamp(changes: nat, catchups: nat, losses: nat, live: bool)

  /** What a reader awaits before it calls `read`: nothing, a readiness promise, or a refusal. */
  datatype Wait = Tick | Readiness(index: nat) | Refused

  /** A suspended `readSnapshot`. */
  datatype Read = AwaitGate(wait: Wait) | Reading(generation: nat, since: Stamp)

  /** The first read, started by the constructor once the lease is ready. */
  datatype Initial = AwaitLease | InitialRead(read: Read) | Settled | Broken

  /** A suspended `pump`; `floor` is history: the change count when this iteration cleared `dirty`. */
  datatype Pump = Pump(catchingUp: bool, floor: nat, read: Read)

  /** Who asked for the snapshot: a `current()` call, or the adopting subscriber. */
  datatype Kind = Asker | Adopter
  datatype CallerPc = AwaitInitial | AwaitReady(index: nat) | AwaitWaiter(generation: nat, waiter: nat)
  datatype Caller = Caller(kind: Kind, pc: CallerPc)

  /** History: a snapshot that was accepted, with the moments its read began and ended. */
  datatype Acceptance = Acceptance(value: Snapshot, generation: nat, start: Stamp, finish: Stamp)
  /** History: a catch-up waiter released by an accepted read that began at `start`. */
  datatype Retirement = Retirement(start: Stamp, finish: Stamp)
  /** History: a value handed to a caller that had been admitted under `admitted`. */
  datatype Answer = Answer(kind: Kind, admitted: nat, value: Snapshot, generation: nat)

  /** History of the reader: none of it is stored by the code. */
  datatype History = History(changes: nat, catchups: nat, accepted: seq<Acceptance>, retired: seq<Retirement>,
                             emissions: seq<Snapshot>)

  /** The session's private fields, its suspended readers and its queued `setImmediate` callbacks. */
  datatype Reader = Reader(
    fenced: bool,
    subscriber: bool, dirty: bool, catchup: bool, running: bool, closed: bool, hasValue: bool, scheduled: bool,
    released: bool, failed: bool, emitted: bool, snapshot: Snapshot, pumpPromise: bool,
    readFinished: Option<nat>, catchupFinished: Option<nat>, tickets: nat,
    immediates: nat, initial: Initial, pumps: seq<Pump>,
    origin: Option<Acceptance>, past: History)

  /** A reader and everyone waiting for its snapshot. */
  datatype Session = Session(reader: Reader, callers: map<nat, Caller>, answers: seq<Answer>)

  function Now(s: Reader, g: Gate, generation: nat): Stamp {
    Stamp(s.past.changes, s.past.catchups, g.losses, g.IsCurrent(generation))
  }

  // ---- callbacks, scheduling and closing --------------------------------------------------------

  function Schedule(s: Reader): Reader {
    if s.scheduled || s.running || s.closed then s else s.(scheduled := true, immediates := s.immediates + 1)
  }

  function Dirtied(s: Reader): Reader {
    s.(dirty := true, past := s.past.(changes := s.past.changes + 1))
  }

  /** A catch-up is owed; its promise is created unless one is pending. */
  function CatchupAsked(s: Reader): Reader {
    s.(catchup := true, past := s.past.(catchups := s.past.catchups + 1),
    catchupFinished := if s.catchupFinished.None? then Some(s.tickets) else s.catchupFinished,
    tickets := s.tickets + 1)
  }

  /** The `changed` callback handed to the change source. */
  function Changed(s: Reader, catchup: bool): Reader {
    if s.closed then s
    else if catchup then Schedule(CatchupAsked(Dirtied(s)))
    else if s.subscriber then Schedule(Dirtied(s))
    else Dirtied(s)
  }

  /** `close`, and `fail` when there is an error: resolve catch-up waiters and release the lease. */
  function End(s: Reader, failed: bool): Reader {
    if s.closed then s else
      s.(closed := true, failed := failed, catchup := false, catchupFinished := None, released := true)
  }

  // ---- readSnapshot -----------------------------------------------------------------------------

  datatype Outcome = Again(read: Read) | Accepted(value: Snapshot, generation: nat, since: Stamp) | Threw

  /** `whenReady`, when the lease has one. */
  function WhenReady(s: Reader, g: Gate): Wait {
    if !s.fenced then Tick else if g.Refuses() then Refused else Readiness(|g.promises| - 1)
  }

  /** The head of the read loop. */
  function ReadTop(s: Reader, g: Gate): Outcome {
    if s.closed then Threw else Again(AwaitGate(WhenReady(s, g)))
  }

  /** Whether the awaited readiness has settled. */
  predicate CanPass(g: Gate, wait: Wait) {
    wait.Readiness? ==> wait.index < |g.promises| && !g.promises[wait.index].Pending?
  }

  function GatePassed(s: Reader, g: Gate, wait: Wait): Outcome
    requires CanPass(g, wait)
  {
    if s.closed then Threw
    else match wait
      case Refused => Threw
      case Tick => Again(Reading(0, Now(s, g, 0)))
      case Readiness(i) =>
        if g.promises[i].Rejected? then Threw
        else Again(Reading(g.promises[i].generation, Now(s, g, g.promises[i].generation)))
  }

  /** `read` returned a value, or threw when there is none. */
  function ReadEnds(s: Reader, g: Gate, generation: nat, since: Stamp, result: Option<Snapshot>): Outcome {
    match result
    case Some(value) =>
      if s.closed then Threw
      else if !s.fenced || g.IsCurrent(generation) then Accepted(value, generation, since)
      else ReadTop(s, g)
    case None =>
      if s.fenced && !g.IsCurrent(generation) then ReadTop(s, g) else Threw
  }

  /** Resume a suspended read: past its gate when that has settled, or at the end of `read`. */
  function Resume(s: Reader, g: Gate, read: Read, result: Option<Snapshot>): Option<Outcome> {
    match read
    case AwaitGate(wait) => if CanPass(g, wait) then Some(GatePassed(s, g, wait)) else None
    case Reading(generation, since) => Some(ReadEnds(s, g, generation, since, result))
  }

  function Accept(s: Reader, g: Gate, o: Outcome): Reader
    requires o.Accepted?
  {
    var a := Acceptance(o.value, o.generation, o.since, Now(s, g, o.generation));
    s.(snapshot := o.value, origin := Some(a), past := s.past.(accepted := s.past.accepted + [a]))
  }

  // ---- the first read ---------------------------------------------------------------------------

  function InitialOutcome(s: Reader, g: Gate, o: Outcome): Reader {
    match o
    case Again(read) => s.(initial := InitialRead(read))
    case Accepted(_, _, _) =>
      if s.closed then s.(initial := Broken) else
        var s1 := Accept(s, g, o).(hasValue := true, initial := Settled);
        if s1.dirty && (s1.subscriber || s1.catchup) then Schedule(s1) else s1
    case Threw => End(s, true).(initial := Broken)
  }

  // ---- pump -------------------------------------------------------------------------------------

  /** One turn of the pump's loop, up to its first await. */
  function Iterate(s: Reader, g: Gate): (Reader, Pump) {
    (s.(dirty := false, readFinished := Some(s.tickets), tickets := s.tickets + 1),
     Pump(s.catchup, s.past.changes, AwaitGate(WhenReady(s, g))))
  }

  function PumpStart(s: Reader, g: Gate): Reader {
    if s.pumpPromise || s.closed || !s.hasValue || !s.dirty then s else
      var (s1, pump) := Iterate(s.(running := true, pumpPromise := true), g);
      s1.(pumps := s1.pumps + [pump])
  }

  function Without(pumps: seq<Pump>, i: nat): seq<Pump>
    requires i < |pumps|
  {
    pumps[..i] + pumps[i + 1..]
  }

  function PumpStops(s: Reader, i: nat): Reader
    requires i < |s.pumps|
  {
    s.(readFinished := None, running := false, pumpPromise := false, pumps := Without(s.pumps, i))
  }

  /** The end of a turn: start the next one, or leave the loop. */
  function PumpLoop(s: Reader, g: Gate, i: nat): Reader
    requires i < |s.pumps|
  {
    if s.dirty && !s.closed then
      var (s1, pump) := Iterate(s, g);
      s1.(pumps := s.pumps[i := pump])
    else PumpStops(s, i)
  }

  /** A turn that set out to catch up releases the waiters. */
  function Serve(s: Reader, catchingUp: bool, start: Stamp, finish: Stamp): Reader {
    if !catchingUp then s else
      s.(catchup := false, catchupFinished := None,
      past := s.past.(retired := s.past.retired + [Retirement(start, finish)]))
  }

  function Emit(s: Reader): Reader {
    s.(past := s.past.(emissions := s.past.emissions + [s.snapshot]))
  }

  function Show(s: Reader): Reader {
    if s.emitted then Emit(s) else s
  }

  /** A turn's read was accepted: keep it, release a served catch-up, show it. */
  function PumpAccepts(s: Reader, g: Gate, catchingUp: bool, o: Outcome): (r: Reader)
    requires o.Accepted?
    ensures r.pumps == s.pumps && r.snapshot == o.value && r.dirty == s.dirty && r.closed == s.closed
    ensures r.subscriber == s.subscriber && r.hasValue == s.hasValue && r.emitted == s.emitted
  {
    Show(Serve(Accept(s, g, o), catchingUp, o.since, Now(s, g, o.generation)))
  }

  function PumpOutcome(s: Reader, g: Gate, i: nat, o: Outcome): Reader
    requires i < |s.pumps|
  {
    match o
    case Again(read) => s.(pumps := s.pumps[i := s.pumps[i].(read := read)])
    case Accepted(_, _, _) =>
      if s.closed then PumpStops(s, i)
      else PumpLoop(PumpAccepts(s, g, s.pumps[i].catchingUp, o), g, i)
    case Threw => PumpStops(End(s, true), i)
  }

  /** The `setImmediate` callback. */
  function Immediate(s: Reader, g: Gate): Reader {
    if s.immediates == 0 then s else
      var s1 := s.(scheduled := false, immediates := s.immediates - 1);
      if s1.closed then s1 else PumpStart(s1, g)
  }

  /** The adopter's first emission; changes that arrived meanwhile are read next. */
  function FirstEmission(s: Reader): Reader {
    var s1 := Emit(s.(emitted := true));
    if s1.dirty then Schedule(s1) else s1
  }

  /** A waiter promise is unresolved exactly while one of the two fields still holds it. */
  predicate Outstanding(s: Reader, waiter: nat) {
    s.readFinished == Some(waiter) || s.catchupFinished == Some(waiter)
  }

  // ---- the reader's machine ---------------------------------------------------------------------

  datatype Event =
    | SourceChanged(catchup: bool)
    | SourceFailed
    | Closed
    | LeaseReady
    | LeaseRefused
    | InitialRuns(result: Option<Snapshot>)
    | PumpRuns(pump: nat, result: Option<Snapshot>)
    | ImmediateRuns
    | Adopts(id: nat)
    | Asks(id: nat)
    | CallerRuns(id: nat)

  /** One step of the reader; an event that is not enabled changes nothing. */
  function ReaderNext(s: Reader, g: Gate, e: Event): Reader {
    match e
    case SourceChanged(catchup) => Changed(s, catchup)
    case SourceFailed => End(s, true)
    case Closed => End(s, false)
    case LeaseReady => if s.initial.AwaitLease? then InitialOutcome(s, g, ReadTop(s, g)) else s
    case LeaseRefused => if s.initial.AwaitLease? then InitialOutcome(s, g, Threw) else s
    case InitialRuns(result) =>
      if !s.initial.InitialRead? then s else
        var o := Resume(s, g, s.initial.read, result);
        if o.Some? then InitialOutcome(s, g, o.value) else s
    case PumpRuns(i, result) =>
      if |s.pumps| <= i then s else
        var o := Resume(s, g, s.pumps[i].read, result);
        if o.Some? then PumpOutcome(s, g, i, o.value) else s
    case ImmediateRuns => Immediate(s, g)
    case _ => s
  }

  // ---- current() and adopt() --------------------------------------------------------------------

  /** Closing rejects every waiting `current()`; an adopter is told through its subscriber. */
  function Cancel(callers: map<nat, Caller>): map<nat, Caller> {
    map id | id in callers && callers[id].kind.Adopter? :: callers[id]
  }

  function Put(s: Session, r: Reader): Session {
    s.(reader := r, callers := if r.closed && !s.reader.closed then Cancel(s.callers) else s.callers)
  }

  function Gone(s: Session, id: nat): Session {
    s.(callers := s.callers - {id})
  }

  function Adopt(s: Session, id: nat): Session {
    if s.reader.closed || s.reader.subscriber || id in s.callers then s
    else s.(reader := s.reader.(subscriber := true), callers := s.callers[id := Caller(Adopter, AwaitInitial)])
  }

  function Current(s: Session, id: nat): Session {
    if s.reader.closed || id in s.callers then s else s.(callers := s.callers[id := Caller(Asker, AwaitInitial)])
  }

  /** A rejected wait: an adopter errors its subscriber and closes, a `current()` call just rejects. */
  function CallerFails(s: Session, id: nat): Session
    requires id in s.callers
  {
    Gone(if s.callers[id].kind.Adopter? then Put(s, End(s.reader, false)) else s, id)
  }

  /** Hand out the snapshot, recording which generation it was read under. */
  function CallerFinish(s: Session, r: Reader, id: nat, generation: nat): Session
    requires id in s.callers
  {
    var kind := s.callers[id].kind;
    if r.closed then Gone(s.(reader := r), id) else
      var from := if r.origin.Some? then r.origin.value.generation else 0;
      Session(if kind.Adopter? then FirstEmission(r) else r, s.callers - {id},
              s.answers + [Answer(kind, generation, r.snapshot, from)])
  }

  /** Before answering, a session that owes a catch-up, or is behind its source, starts to read. */
  predicate MustRead(r: Reader) {
    r.catchup || (r.fenced && (r.running || r.dirty))
  }

  /** Which read a caller then waits for: the pending catch-up, else the one in flight. */
  function WaiterOf(r: Reader): Option<nat> {
    if r.catchupFinished.Some? then r.catchupFinished else r.readFinished
  }

  function CallerAdmitted(s: Session, g: Gate, id: nat, generation: nat): Session
    requires id in s.callers
  {
    var r := if MustRead(s.reader) then PumpStart(s.reader, g) else s.reader;
    if MustRead(s.reader) && WaiterOf(r).Some?
    then s.(reader := r, callers := s.callers[id := s.callers[id].(pc := AwaitWaiter(generation, WaiterOf(r).value))])
    else CallerFinish(s, r, id, generation)
  }

  function CallerStep(s: Session, g: Gate, id: nat): Session {
    if id !in s.callers then s else
      match s.callers[id].pc
      case AwaitInitial =>
        if s.reader.initial.Broken? then CallerFails(s, id)
        else if !s.reader.initial.Settled? then s
        else if !s.reader.fenced then CallerAdmitted(s, g, id, 0)
        else if g.Refuses() then CallerFails(s, id)
        else s.(callers := s.callers[id := s.callers[id].(pc := AwaitReady(|g.promises| - 1))])
      case AwaitReady(i) =>
        if !(i < |g.promises|) || g.promises[i].Pending? then s
        else if g.promises[i].Rejected? then CallerFails(s, id)
        else CallerAdmitted(s, g, id, g.promises[i].generation)
      case AwaitWaiter(generation, waiter) =>
        if Outstanding(s.reader, waiter) then s else CallerFinish(s, s.reader, id, generation)
  }

  // ---- the session's machine --------------------------------------------------------------------

  function Next(s: Session, g: Gate, e: Event): Session {
    match e
    case Adopts(id) => Adopt(s, id)
    case Asks(id) => Current(s, id)
    case CallerRuns(id) => CallerStep(s, g, id)
    case _ => Put(s, ReaderNext(s.reader, g, e))
  }

  /** A session over a fenced lease waits for it; one over an in-process source starts its first read at once. */
  function Open(fenced: bool): Session {
    Session(Reader(fenced, false, false, false, false, false, false, false, false, false, false, 0, false,
                   None, None, 0, 0, if fenced then AwaitLease else InitialRead(Reading(0, Stamp(0, 0, 0, false))), [],
                   None, History(0, 0, [], [], [])),
            map[], [])
  }

  function Run(s: Session, trace: seq<(Gate, Event)>): Session {
    if trace == [] then s else
      var last := |trace| - 1;
      Next(Run(s, trace[..last]), trace[last].0, trace[last].1)
  }

  // ---- the reader's invariant -------------------------------------------------------------------

  /** The flags agree with the coroutines that are really suspended: never more than one reader. */
  ghost predicate SingleFlight(s: Reader) {
    && |s.pumps| <= 1
    && s.running == s.pumpPromise == (|s.pumps| == 1)
    && s.immediates == (if s.scheduled then 1 else 0)
    && (s.hasValue <==> s.initial.Settled?)
    && (s.pumps != [] ==> s.hasValue)
    && (s.pumps != [] <==> s.readFinished.Some?)
    && (s.readFinished.Some? ==> s.readFinished.value < s.tickets)
    && (s.catchupFinished.Some? ==> s.catchupFinished.value < s.tickets)
  }

  /** What `Driven` asks of the flags, whether or not a read is on its way. */
  ghost predicate Owing(s: Reader) {
    && (s.catchup <==> s.catchupFinished.Some?)
    && (s.closed ==> !s.catchup && s.released)
    && (s.catchup ==> s.dirty || (s.pumps != [] && s.pumps[0].catchingUp))
    && (s.emitted ==> s.subscriber && s.hasValue)
  }

  /** Work that is owed is on its way: no open session is left dirty or behind a catch-up with nobody to read. */
  ghost predicate Driven(s: Reader) {
    && Owing(s)
    && (!s.closed && s.hasValue && s.dirty && (s.emitted || s.catchup) ==> s.scheduled || s.running)
  }

  /** A session that is not dirty has read, or is reading, after the last change. */
  ghost predicate Fresh(s: Reader) {
    && (s.hasValue <==> s.origin.Some?)
    && (s.origin.Some? ==> s.origin.value.value == s.snapshot)
    && (!s.closed && !s.hasValue ==> (s.dirty <==> 0 < s.past.changes))
    && (!s.closed && s.hasValue && !s.dirty && s.pumps == [] ==> s.origin.value.start.changes == s.past.changes)
    && (!s.closed && s.pumps != [] && !s.dirty ==> s.pumps[0].floor == s.past.changes)
    && (s.pumps != [] ==> s.pumps[0].floor <= s.past.changes)
    && (s.pumps != [] && s.pumps[0].read.Reading? ==> s.pumps[0].floor <= s.pumps[0].read.since.changes <= s.past.changes)
    && (s.initial.InitialRead? && s.initial.read.Reading? ==> s.initial.read.since.changes <= s.past.changes)
  }

  ghost predicate Shown(s: Reader) {
    s.emitted ==> s.past.emissions != [] && s.past.emissions[|s.past.emissions| - 1] == s.snapshot
  }

  ghost predicate Inv(s: Reader) {
    SingleFlight(s) && Driven(s) && Fresh(s) && Shown(s)
  }

  /** Before there is a subscriber a change is only noted. */
  lemma NotedKeeps(s: Reader)
    requires Inv(s) && !s.closed && !s.subscriber
    ensures Inv(Dirtied(s))
  {
  }

  lemma DirtiedKeeps(s: Reader)
    requires Inv(s) && !s.closed && s.subscriber
    ensures Inv(Schedule(Dirtied(s)))
  {
  }

  lemma CatchupAskedKeeps(s: Reader)
    requires Inv(s) && !s.closed
    ensures Inv(Schedule(CatchupAsked(Dirtied(s))))
  {
  }

  lemma ChangedKeeps(s: Reader, catchup: bool)
    requires Inv(s)
    ensures Inv(Changed(s, catchup))
  {
    if !s.closed {
      if catchup { CatchupAskedKeeps(s); } else if s.subscriber { DirtiedKeeps(s); } else { NotedKeeps(s); }
    }
    hide Inv, Dirtied, CatchupAsked, Schedule;
  }

  lemma EndKeeps(s: Reader, failed: bool)
    requires Inv(s)
    ensures Inv(End(s, failed))
  {
  }

  lemma PumpStartKeeps(s: Reader, g: Gate)
    requires SingleFlight(s) && Owing(s) && Fresh(s) && Shown(s)
    ensures Inv(PumpStart(s, g))
  {
  }

  lemma InitialKeeps(s: Reader, g: Gate, o: Outcome)
    requires Inv(s) && !s.hasValue
    requires o.Again? && o.read.Reading? ==> o.read.since.changes <= s.past.changes
    requires o.Accepted? ==> o.since.changes <= s.past.changes
    ensures Inv(InitialOutcome(s, g, o))
  {
  }

  lemma PumpStopsKeeps(s: Reader, i: nat)
    requires Inv(s) && s.closed && i < |s.pumps|
    ensures Inv(PumpStops(s, i))
  {
  }

  /** The state after a turn, before the loop decides: everything but the reader's own bookkeeping is in order. */
  ghost predicate TurnDone(s: Reader) {
    && SingleFlight(s) && Shown(s) && s.pumps != [] && !s.closed
    && (s.catchup <==> s.catchupFinished.Some?) && (s.catchup ==> s.dirty)
    && (s.emitted ==> s.subscriber)
    && s.origin.Some? && s.origin.value.value == s.snapshot && s.hasValue
    && (!s.dirty ==> s.origin.value.start.changes == s.past.changes)
  }

  lemma PumpAcceptsKeeps(s: Reader, g: Gate, o: Outcome)
    requires Inv(s) && s.pumps != [] && !s.closed && o.Accepted?
    requires s.pumps[0].floor <= o.since.changes <= s.past.changes
    ensures TurnDone(PumpAccepts(s, g, s.pumps[0].catchingUp, o))
  {
  }

  lemma PumpLoopKeeps(s: Reader, g: Gate)
    requires TurnDone(s)
    ensures Inv(PumpLoop(s, g, 0))
  {
  }

  lemma PumpKeeps(s: Reader, g: Gate, i: nat, o: Outcome)
    requires Inv(s) && i < |s.pumps|
    requires o.Again? && o.read.Reading? ==> s.pumps[i].floor <= o.read.since.changes <= s.past.changes
    requires o.Accepted? ==> s.pumps[i].floor <= o.since.changes <= s.past.changes
    ensures Inv(PumpOutcome(s, g, i, o))
  {
    hide PumpStops, PumpLoop, PumpAccepts;
    match o
    case Again(read) =>
    case Accepted(_, _, _) =>
      if s.closed {
        PumpStopsKeeps(s, i);
      } else {
        PumpAcceptsKeeps(s, g, o);
        PumpLoopKeeps(PumpAccepts(s, g, s.pumps[i].catchingUp, o), g);
      }
    case Threw =>
      EndKeeps(s, true);
      PumpStopsKeeps(End(s, true), i);
  }

  lemma FirstEmissionKeeps(s: Reader)
    requires Inv(s) && s.hasValue && s.subscriber && !s.closed
    ensures Inv(FirstEmission(s))
  {
  }

  /** A resumed read began no earlier than its turn cleared `dirty`, and no later than now. */
  lemma ResumeIsTimely(s: Reader, g: Gate, read: Read, result: Option<Snapshot>, floor: nat)
    requires floor <= s.past.changes
    requires read.Reading? ==> floor <= read.since.changes <= s.past.changes
    ensures var o := Resume(s, g, read, result);
            && (o.Some? && o.value.Again? && o.value.read.Reading? ==>
                  floor <= o.value.read.since.changes <= s.past.changes)
            && (o.Some? && o.value.Accepted? ==> floor <= o.value.since.changes <= s.past.changes)
  {
  }

  lemma ReaderKeeps(s: Reader, g: Gate, e: Event)
    requires Inv(s)
    ensures Inv(ReaderNext(s, g, e))
  {
    hide Changed, InitialOutcome, PumpOutcome, PumpStart, Resume;
    match e
    case SourceChanged(catchup) => ChangedKeeps(s, catchup);
    case SourceFailed => EndKeeps(s, true);
    case Closed => EndKeeps(s, false);
    case ImmediateRuns =>
      if 0 < s.immediates && !s.closed { PumpStartKeeps(s.(scheduled := false, immediates := s.immediates - 1), g); }
    case LeaseReady => if s.initial.AwaitLease? { InitialKeeps(s, g, ReadTop(s, g)); }
    case LeaseRefused => if s.initial.AwaitLease? { InitialKeeps(s, g, Threw); }
    case InitialRuns(result) =>
      if s.initial.InitialRead? {
        ResumeIsTimely(s, g, s.initial.read, result, 0);
        var o := Resume(s, g, s.initial.read, result);
        if o.Some? { InitialKeeps(s, g, o.value); }
      }
    case PumpRuns(i, result) =>
      if i < |s.pumps| {
        ResumeIsTimely(s, g, s.pumps[i].read, result, s.pumps[i].floor);
        var o := Resume(s, g, s.pumps[i].read, result);
        if o.Some? { PumpKeeps(s, g, i, o.value); }
      }
    case _ =>
  }

  // ---- who is waiting ---------------------------------------------------------------------------

  /** A waiting adopter has a subscriber, and nobody is past the first wait before there is a value. */
  ghost predicate Asked(callers: map<nat, Caller>, r: Reader) {
    forall id :: id in callers ==>
      && (callers[id].kind.Adopter? ==> r.subscriber)
      && (!callers[id].pc.AwaitInitial? ==> r.hasValue)
  }

  ghost predicate Valid(s: Session) {
    Inv(s.reader) && Asked(s.callers, s.reader)
  }

  lemma ScheduleSettles(s: Reader)
    ensures Schedule(s).subscriber == s.subscriber && Schedule(s).emitted == s.emitted
    ensures Schedule(s).hasValue == s.hasValue
  {
  }

  lemma EndSettles(s: Reader, failed: bool)
    ensures End(s, failed).subscriber == s.subscriber && End(s, failed).emitted == s.emitted
    ensures End(s, failed).hasValue == s.hasValue
  {
  }

  lemma ChangedSettles(s: Reader, catchup: bool)
    ensures Changed(s, catchup).subscriber == s.subscriber && Changed(s, catchup).emitted == s.emitted
    ensures Changed(s, catchup).hasValue == s.hasValue
  {
    var d, c := Dirtied(s), CatchupAsked(Dirtied(s));
    assert d.subscriber == s.subscriber && d.hasValue == s.hasValue && d.emitted == s.emitted;
    assert c.subscriber == s.subscriber && c.hasValue == s.hasValue && c.emitted == s.emitted;
    hide Dirtied, CatchupAsked, Schedule;
    ScheduleSettles(d);
    ScheduleSettles(c);
  }

  lemma InitialSettles(s: Reader, g: Gate, o: Outcome)
    ensures InitialOutcome(s, g, o).subscriber == s.subscriber && InitialOutcome(s, g, o).emitted == s.emitted
    ensures s.hasValue ==> InitialOutcome(s, g, o).hasValue
  {
    hide Schedule;
    if o.Accepted? && !s.closed {
      ScheduleSettles(Accept(s, g, o).(hasValue := true, initial := Settled));
    }
  }

  lemma PumpLoopSettles(s: Reader, g: Gate, i: nat)
    requires i < |s.pumps|
    ensures PumpLoop(s, g, i).subscriber == s.subscriber && PumpLoop(s, g, i).emitted == s.emitted
    ensures PumpLoop(s, g, i).hasValue == s.hasValue
  {
    IterateSettles(s, g);
    PumpStopsSettles(s, i);
    hide Iterate, PumpStops;
  }

  lemma IterateSettles(s: Reader, g: Gate)
    ensures Iterate(s, g).0.subscriber == s.subscriber && Iterate(s, g).0.hasValue == s.hasValue
    ensures Iterate(s, g).0.emitted == s.emitted
  {
  }

  lemma PumpStopsSettles(s: Reader, i: nat)
    requires i < |s.pumps|
    ensures PumpStops(s, i).subscriber == s.subscriber && PumpStops(s, i).hasValue == s.hasValue
    ensures PumpStops(s, i).emitted == s.emitted
  {
    hide Without;
  }

  lemma PumpSettles(s: Reader, g: Gate, i: nat, o: Outcome)
    requires i < |s.pumps|
    ensures PumpOutcome(s, g, i, o).subscriber == s.subscriber && PumpOutcome(s, g, i, o).emitted == s.emitted
    ensures PumpOutcome(s, g, i, o).hasValue == s.hasValue
  {
    hide PumpAccepts, PumpLoop;
    if o.Accepted? && !s.closed { PumpLoopSettles(PumpAccepts(s, g, s.pumps[i].catchingUp, o), g, i); }
  }

  lemma PumpStartSettles(r: Reader, g: Gate)
    ensures PumpStart(r, g).subscriber == r.subscriber && PumpStart(r, g).emitted == r.emitted
    ensures PumpStart(r, g).hasValue == r.hasValue
  {
  }

  lemma FirstEmissionSettles(r: Reader)
    ensures FirstEmission(r).subscriber == r.subscriber
    ensures FirstEmission(r).hasValue == r.hasValue
  {
  }

  lemma ImmediateSettles(s: Reader, g: Gate)
    ensures Immediate(s, g).subscriber == s.subscriber && Immediate(s, g).emitted == s.emitted
    ensures Immediate(s, g).hasValue == s.hasValue
  {
    hide PumpStart;
    if 0 < s.immediates { PumpStartSettles(s.(scheduled := false, immediates := s.immediates - 1), g); }
  }

  /** The reader never gives up its subscriber or its first value; the first emission is its adopter's. */
  lemma ReaderSettles(s: Reader, g: Gate, e: Event)
    ensures ReaderNext(s, g, e).subscriber == s.subscriber && ReaderNext(s, g, e).emitted == s.emitted
    ensures s.hasValue ==> ReaderNext(s, g, e).hasValue
  {
    hide InitialOutcome, PumpOutcome, Immediate, Changed, Resume, End;
    match e
    case SourceChanged(catchup) => ChangedSettles(s, catchup);
    case ImmediateRuns => ImmediateSettles(s, g);
    case LeaseReady => InitialSettles(s, g, ReadTop(s, g));
    case LeaseRefused => InitialSettles(s, g, Threw);
    case InitialRuns(result) =>
      if s.initial.InitialRead? {
        var o := Resume(s, g, s.initial.read, result);
        if o.Some? { InitialSettles(s, g, o.value); }
      }
    case PumpRuns(i, result) =>
      if i < |s.pumps| {
        var o := Resume(s, g, s.pumps[i].read, result);
        if o.Some? { PumpSettles(s, g, i, o.value); }
      }
    case SourceFailed => EndSettles(s, true);
    case Closed => EndSettles(s, false);
    case _ =>
  }

  lemma PutKeeps(s: Session, r: Reader)
    requires Valid(s) && Inv(r)
    requires (s.reader.subscriber ==> r.subscriber) && (s.reader.hasValue ==> r.hasValue)
    ensures Valid(Put(s, r))
  {
    hide Inv;
  }

  lemma CallerFinishKeeps(s: Session, r: Reader, id: nat, generation: nat)
    requires Valid(s) && id in s.callers && Inv(r)
    requires r.hasValue && r.subscriber == s.reader.subscriber
    ensures Valid(CallerFinish(s, r, id, generation))
  {
    assert s.callers[id].kind.Adopter? ==> r.subscriber;
    hide Inv, FirstEmission;
    if s.callers[id].kind.Adopter? && !r.closed {
      FirstEmissionKeeps(r);
      FirstEmissionSettles(r);
    }
  }

  lemma CallerWaitsKeeps(s: Session, r: Reader, id: nat, pc: CallerPc)
    requires Valid(s) && id in s.callers && Inv(r)
    requires r.hasValue && r.subscriber == s.reader.subscriber
    ensures Valid(s.(reader := r, callers := s.callers[id := s.callers[id].(pc := pc)]))
  {
    hide Inv;
  }

  lemma CallerAdmittedKeeps(s: Session, g: Gate, id: nat, generation: nat)
    requires Valid(s) && id in s.callers && s.reader.hasValue
    ensures Valid(CallerAdmitted(s, g, id, generation))
  {
    PumpStartKeeps(s.reader, g);
    PumpStartSettles(s.reader, g);
    hide Inv, Asked, PumpStart, CallerFinish;
    var r := if MustRead(s.reader) then PumpStart(s.reader, g) else s.reader;
    if MustRead(s.reader) && WaiterOf(r).Some? {
      CallerWaitsKeeps(s, r, id, AwaitWaiter(generation, WaiterOf(r).value));
    } else {
      CallerFinishKeeps(s, r, id, generation);
    }
  }

  lemma CallerFailsKeeps(s: Session, id: nat)
    requires Valid(s) && id in s.callers
    ensures Valid(CallerFails(s, id))
  {
    EndKeeps(s.reader, false);
    hide Inv;
  }

  lemma CallerStepKeeps(s: Session, g: Gate, id: nat)
    requires Valid(s)
    ensures Valid(CallerStep(s, g, id))
  {
    assert s.reader.initial.Settled? ==> s.reader.hasValue;
    assert id in s.callers && !s.callers[id].pc.AwaitInitial? ==> s.reader.hasValue;
    hide Inv, Asked, CallerAdmitted, CallerFinish, CallerFails;
    if id in s.callers {
      match s.callers[id].pc
      case AwaitInitial =>
        if s.reader.initial.Broken? {
          CallerFailsKeeps(s, id);
        } else if s.reader.initial.Settled? && !s.reader.fenced {
          CallerAdmittedKeeps(s, g, id, 0);
        } else if g.Refuses() {
          CallerFailsKeeps(s, id);
        } else if s.reader.initial.Settled? {
          CallerWaitsKeeps(s, s.reader, id, AwaitReady(|g.promises| - 1));
        }
      case AwaitReady(i) =>
        if i < |g.promises| && g.promises[i].Resolved? {
          CallerAdmittedKeeps(s, g, id, g.promises[i].generation);
        } else if i < |g.promises| && g.promises[i].Rejected? {
          CallerFailsKeeps(s, id);
        }
      case AwaitWaiter(generation, waiter) =>
        CallerFinishKeeps(s, s.reader, id, generation);
    }
  }

  lemma JoinKeeps(s: Session, id: nat)
    requires Valid(s)
    ensures Valid(Adopt(s, id))
    ensures Valid(Current(s, id))
  {
    assert Inv(s.reader.(subscriber := true));
    hide Inv;
  }

  lemma NextKeeps(s: Session, g: Gate, e: Event)
    requires Valid(s)
    ensures Valid(Next(s, g, e))
  {
    hide Inv, Asked, ReaderNext, CallerStep, Adopt, Current, Put;
    match e
    case Adopts(id) => JoinKeeps(s, id);
    case Asks(id) => JoinKeeps(s, id);
    case CallerRuns(id) => CallerStepKeeps(s, g, id);
    case _ =>
      ReaderKeeps(s.reader, g, e);
      ReaderSettles(s.reader, g, e);
      PutKeeps(s, ReaderNext(s.reader, g, e));
  }

  // ---- what every run keeps ---------------------------------------------------------------------

  lemma {:induction false} RunKeeps(fenced: bool, trace: seq<(Gate, Event)>)
    ensures Valid(Run(Open(fenced), trace))
  {
    if trace != [] {
      var last := |trace| - 1;
      RunKeeps(fenced, trace[..last]);
      hide Valid, Next;
      NextKeeps(Run(Open(fenced), trace[..last]), trace[last].0, trace[last].1);
    }
  }

  function PumpsReading(pumps: seq<Pump>): nat {
    if pumps == [] then 0 else (if pumps[0].read.Reading? then 1 else 0) + PumpsReading(pumps[1..])
  }

  /** Calls of `read` that have begun and not ended. */
  function ReadsInFlight(r: Reader): nat {
    (if r.initial.InitialRead? && r.initial.read.Reading? then 1 else 0) + PumpsReading(r.pumps)
  }

  /** No two reads of a session ever overlap, whatever its source, its callers and the event loop do. */
  lemma ReadsNeverOverlap(fenced: bool, trace: seq<(Gate, Event)>)
    ensures ReadsInFlight(Run(Open(fenced), trace).reader) <= 1
  {
    RunKeeps(fenced, trace);
    hide Run;
    var r := Run(Open(fenced), trace).reader;
    assert r.pumps != [] ==> PumpsReading(r.pumps[1..]) == 0;
  }

  /** Nothing of the reader is left to run. */
  predicate Quiescent(r: Reader) {
    r.immediates == 0 && r.pumps == []
  }

  /**
   * A session that has shown something and come to rest shows the last snapshot it holds, that snapshot's read began
   * after the last change, and nothing is owed.
   */
  lemma RestingSessionHasConverged(fenced: bool, trace: seq<(Gate, Event)>)
    requires var r := Run(Open(fenced), trace).reader; r.emitted && !r.closed && Quiescent(r)
    ensures var r := Run(Open(fenced), trace).reader;
            && !r.dirty && !r.catchup && r.catchupFinished.None?
            && r.past.emissions != [] && r.past.emissions[|r.past.emissions| - 1] == r.snapshot
            && r.origin.Some? && r.origin.value.value == r.snapshot && r.origin.value.start.changes == r.past.changes
  {
    RunKeeps(fenced, trace);
    hide Run;
  }
}
