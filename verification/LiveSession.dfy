/**
 * The session as the object it is: private fields that its callbacks and resumed coroutines update in place, and promise
 * objects that whoever waits for a read or a catch-up shares with the field that holds them. The machine of
 * DrizzleObservationSession knows promises by number only, and calls one unresolved while a field still holds it; `Coupled`
 * says why that is the same as the state of the shared object. Every method moves the object as the machine moves its value.
 */
module LiveSession {
  import opened Options
  import opened ObservationGate
  import opened Machine = DrizzleObservationSession

  /** A promise and its resolver; `ticket` tells promises apart. */
  class Deferred {
    const ticket: nat
    var settled: bool

    constructor (ticket: nat)
      ensures this.ticket == ticket && !settled
    {
      this.ticket, settled := ticket, false;
    }
  }

  function TicketOf(d: Deferred?): Option<nat> {
    if d == null then None else Some(d.ticket)
  }

  /** Where a `current()` call or an adopter is suspended. */
  datatype Position = Initially | ForReadiness(index: nat) | ForRead(generation: nat, waiter: Deferred)
  datatype Waiting = Waiting(kind: Kind, position: Position)

  function CallerOf(w: Waiting): Caller {
    match w.position
    case Initially => Caller(w.kind, AwaitInitial)
    case ForReadiness(i) => Caller(w.kind, AwaitReady(i))
    case ForRead(generation, waiter) => Caller(w.kind, AwaitWaiter(generation, waiter.ticket))
  }

  class DrizzleObservationSession {
    const fenced: bool
    var subscriber: bool
    var dirty: bool
    var catchup: bool
    var running: bool
    var closed: bool
    var hasValue: bool
    var scheduled: bool
    var released: bool
    var failed: bool
    var emitted: bool
    var snapshot: Snapshot
    var pumpPromise: bool
    var readFinished: Deferred?
    var catchupFinished: Deferred?
    var immediates: nat
    var initial: Initial
    var pumps: seq<Pump>
    var callers: map<nat, Waiting>
    /** Every promise made so far. */
    ghost var promises: set<Deferred>
    // History, which the program does not store.
    var tickets: nat
    var origin: Option<Acceptance>
    var past: History
    var answers: seq<Answer>

    function Fields(): Reader
      reads this
    {
      Reader(fenced, subscriber, dirty, catchup, running, closed, hasValue, scheduled, released, failed, emitted, snapshot,
             pumpPromise, TicketOf(readFinished), TicketOf(catchupFinished), tickets, immediates, initial, pumps, origin, past)
    }

    function Callers(): map<nat, Caller>
      reads this`callers
    {
      map id | id in callers :: CallerOf(callers[id])
    }

    ghost function State(): Session
      reads this
    {
      Session(Fields(), Callers(), answers)
    }

    /** Still to be settled: a field holds it. */
    ghost predicate Pending(d: Deferred)
      reads this`readFinished, this`catchupFinished
    {
      d == readFinished || d == catchupFinished
    }

    /** A promise is unsettled exactly while a field holds it, and its ticket is its own. */
    ghost predicate Coupled()
      reads this`readFinished, this`catchupFinished, this`callers, this`tickets, this`promises, promises
    {
      && (forall d :: d in promises ==> d.ticket < tickets && (d.settled <==> !Pending(d)))
      && (forall d, p :: d in promises && p in promises && d.ticket == p.ticket ==> d == p)
      && (readFinished != null ==> readFinished in promises)
      && (catchupFinished != null ==> catchupFinished in promises && catchupFinished != readFinished)
      && (forall id :: id in callers && callers[id].position.ForRead? ==> callers[id].position.waiter in promises)
    }

    /** So whoever waits can see from the promise itself what the machine sees from the fields. */
    lemma SettledIsNotOutstanding(id: nat)
      requires Coupled() && id in callers && callers[id].position.ForRead?
      ensures callers[id].position.waiter.settled <==> !Outstanding(Fields(), callers[id].position.waiter.ticket)
    {
    }

    ghost predicate Valid()
      reads this, promises
    {
      Machine.Valid(State()) && Coupled()
    }

    /** At most new promises were made. */
    twostate predicate Grown()
      reads this
    {
      old(promises) <= promises && fresh(promises - old(promises))
    }

    constructor (fenced: bool)
      ensures State() == Open(fenced) && Valid()
    {
      this.fenced := fenced;
      subscriber, dirty, catchup, running, closed, hasValue := false, false, false, false, false, false;
      scheduled, released, failed, emitted, snapshot, pumpPromise := false, false, false, false, 0, false;
      readFinished, catchupFinished, tickets, immediates, pumps, callers := null, null, 0, 0, [], map[];
      initial := if fenced then AwaitLease else InitialRead(Reading(0, Stamp(0, 0, 0, false)));
      origin, past, answers, promises := None, History(0, 0, [], [], []), [], {};
    }

    method Schedule()
      modifies this`scheduled, this`immediates
      ensures Fields() == Machine.Schedule(old(Fields()))
    {
      if scheduled || running || closed { return; }
      scheduled := true;
      immediates := immediates + 1;
    }

    /** A catch-up is owed; its promise is created unless one is pending. */
    method AskToCatchUp()
      requires Coupled()
      modifies this`catchup, this`past, this`catchupFinished, this`tickets, this`promises
      ensures Coupled() && Grown() && Fields() == CatchupAsked(old(Fields()))
    {
      hide Coupled;
      catchup := true;
      past := past.(catchups := past.catchups + 1);
      NewCatchupPromise();
    }

    method NewCatchupPromise()
      requires Coupled()
      modifies this`catchupFinished, this`tickets, this`promises
      ensures Coupled() && Grown()
      ensures var s := old(Fields());
              Fields() == s.(catchupFinished := if s.catchupFinished.None? then Some(s.tickets) else s.catchupFinished,
                             tickets := s.tickets + 1)
    {
      if catchupFinished == null {
        catchupFinished := new Deferred(tickets);
        promises := promises + {catchupFinished};
      }
      tickets := tickets + 1;
    }

    method ResolveCatchup()
      requires Coupled()
      modifies this`catchup, this`catchupFinished, promises
      ensures Coupled() && promises == old(promises)
      ensures Fields() == old(Fields()).(catchup := false, catchupFinished := None)
    {
      catchup := false;
      if catchupFinished != null { catchupFinished.settled := true; }
      catchupFinished := null;
    }

    method Release()
      modifies this`released
      ensures Fields() == old(Fields()).(released := true)
    {
      if released { return; }
      released := true;
    }

    method Changed(catchingUp: bool)
      requires Coupled()
      modifies this`dirty, this`catchup, this`past, this`catchupFinished, this`tickets, this`promises, this`scheduled, this`immediates
      ensures Coupled() && Grown() && Fields() == Machine.Changed(old(Fields()), catchingUp)
    {
      hide Dirtied, CatchupAsked, Machine.Schedule, Coupled;
      if closed { return; }
      NoteChange();
      if catchingUp {
        AskToCatchUp();
        Schedule();
      } else if subscriber {
        Schedule();
      }
    }

    method NoteChange()
      modifies this`dirty, this`past
      ensures Fields() == Dirtied(old(Fields())) && subscriber == old(subscriber)
    {
      dirty := true;
      past := past.(changes := past.changes + 1);
    }

    method Fail(error: bool)
      modifies this`failed, this`closed
      ensures Fields() == old(Fields()).(closed := true, failed := error)
    {
      failed := error;
      closed := true;
    }

    /** What the end does to the session's own fields. */
    method Finish(error: bool)
      requires Coupled() && !closed
      modifies this`failed, this`closed, this`catchup, this`catchupFinished, this`released, promises
      ensures Coupled() && promises == old(promises) && Fields() == Machine.End(old(Fields()), error)
    {
      hide Coupled;
      Fail(error);
      ResolveCatchup();
      Release();
    }

    /** `fail` and `close`: whoever waits in `current()` is rejected, once. */
    method End(error: bool)
      requires Coupled()
      modifies this`failed, this`closed, this`catchup, this`catchupFinished, this`released, this`callers, promises
      ensures Coupled() && promises == old(promises)
      ensures State() == Put(old(State()), Machine.End(old(Fields()), error))
    {
      Ends(Fields(), error);
      hide Coupled, Machine.End, Cancel;
      if closed { return; }
      Finish(error);
      CancelAll();
    }

    /** Every waiting `current()` call is rejected; an adopter is told through its subscriber. */
    method CancelAll()
      requires Coupled()
      modifies this`callers
      ensures Coupled() && Callers() == Cancel(old(Callers()))
    {
      callers := map id | id in callers && callers[id].kind.Adopter? :: callers[id];
    }

    /** Keep a value that was read under a generation that is still current. */
    method Accept(g: Gate, o: Outcome)
      requires o.Accepted?
      modifies this`snapshot, this`origin, this`past
      ensures Fields() == Machine.Accept(old(Fields()), g, o)
    {
      var a := Acceptance(o.value, o.generation, o.since,
                          Stamp(past.changes, past.catchups, g.losses, g.IsCurrent(o.generation)));
      snapshot := o.value;
      origin := Some(a);
      past := past.(accepted := past.accepted + [a]);
    }

    method KeepFirst(g: Gate, o: Outcome)
      requires o.Accepted?
      modifies this`snapshot, this`origin, this`past, this`hasValue, this`initial
      ensures Fields() == Machine.Accept(old(Fields()), g, o).(hasValue := true, initial := Settled)
    {
      hasValue := true;
      Accept(g, o);
      initial := Settled;
    }

    method FirstValue(g: Gate, o: Outcome)
      requires o.Accepted? && !closed
      modifies this`snapshot, this`origin, this`past, this`hasValue, this`initial, this`scheduled, this`immediates
      ensures Fields() == InitialOutcome(old(Fields()), g, o)
    {
      hide Machine.Accept, Machine.Schedule, InitialOutcome;
      FirstIsKept(Fields(), g, o);
      KeepFirst(g, o);
      if dirty && (subscriber || catchup) { Schedule(); }
    }

    method FirstIsLate(g: Gate, o: Outcome)
      requires o.Accepted? && closed
      modifies this`initial
      ensures Fields() == InitialOutcome(old(Fields()), g, o)
    {
      initial := Broken;
      hide Machine.Accept, Machine.Schedule;
    }

    method FirstFails()
      requires Coupled()
      modifies this, promises
      ensures Coupled() && promises == old(promises)
      ensures State() == Put(old(State()), Machine.End(old(Fields()), true).(initial := Broken))
    {
      hide Cancel, Coupled;
      End(true);
      initial := Broken;
    }

    method FirstSettles(g: Gate, o: Outcome)
      requires o.Accepted?
      modifies this`snapshot, this`origin, this`past, this`hasValue, this`initial, this`scheduled, this`immediates
      ensures Fields() == InitialOutcome(old(Fields()), g, o)
    {
      hide InitialOutcome;
      if closed { FirstIsLate(g, o); } else { FirstValue(g, o); }
    }

    method InitialResumes(g: Gate, o: Outcome)
      requires Coupled()
      modifies this, promises
      ensures Coupled() && promises == old(promises)
      ensures State() == Put(old(State()), InitialOutcome(old(Fields()), g, o))
    {
      hide Machine.End, Cancel, Machine.Accept, Machine.Schedule, Coupled;
      match o
      case Again(read) => initial := InitialRead(read);
      case Accepted(_, _, _) => FirstSettles(g, o);
      case Threw => FirstFails();
    }

    /** A promise of its own, which nobody waits for yet. */
    method NewDeferred() returns (d: Deferred)
      modifies this`tickets, this`promises
      ensures fresh(d) && d.ticket == old(tickets) && !d.settled
      ensures promises == old(promises) + {d} && tickets == old(tickets) + 1
    {
      d := new Deferred(tickets);
      promises := promises + {d};
      tickets := tickets + 1;
    }

    method NewReadPromise()
      requires Coupled() && readFinished == null
      modifies this`readFinished, this`tickets, this`promises
      ensures Coupled() && Grown()
      ensures var s := old(Fields()); Fields() == s.(readFinished := Some(s.tickets), tickets := s.tickets + 1)
    {
      hide Coupled;
      var d := NewDeferred();
      readFinished := d;
      ReadPromiseIsCoupled(d);
    }

    twostate lemma ReadPromiseIsCoupled(new d: Deferred)
      requires old(Coupled()) && old(readFinished) == null && readFinished == d && catchupFinished == old(catchupFinished)
      requires fresh(d) && !d.settled && d.ticket == old(tickets) && tickets == old(tickets) + 1
      requires promises == old(promises) + {d} && callers == old(callers)
      requires forall p :: p in old(promises) ==> p.settled == old(p.settled)
      ensures Coupled()
    {
    }

    /** The head of the pump's loop, up to the await in `readSnapshot`. */
    method BeginTurn(g: Gate) returns (pump: Pump)
      requires Coupled() && readFinished == null
      modifies this`dirty, this`readFinished, this`tickets, this`promises
      ensures Coupled() && Grown() && (Fields(), pump) == Iterate(old(Fields()), g)
    {
      pump := Pump(catchup, past.changes, AwaitGate(WhenReady(Fields(), g)));
      hide Coupled;
      dirty := false;
      NewReadPromise();
    }

    method StartPump(g: Gate)
      requires Coupled() && (!pumpPromise ==> readFinished == null)
      modifies this`dirty, this`readFinished, this`tickets, this`promises, this`running, this`pumpPromise, this`pumps
      ensures Coupled() && Grown() && Fields() == PumpStart(old(Fields()), g)
    {
      hide Coupled;
      if pumpPromise || closed || !hasValue || !dirty { return; }
      ghost var s := Fields();
      running := true;
      pumpPromise := true;
      assert Fields() == s.(running := true, pumpPromise := true);
      hide Iterate;
      var pump := BeginTurn(g);
      pumps := pumps + [pump];
    }

    method FinishRead()
      requires Coupled()
      modifies this`readFinished, promises
      ensures Coupled() && readFinished == null
      ensures Fields() == old(Fields()).(readFinished := None)
    {
      if readFinished != null { readFinished.settled := true; }
      readFinished := null;
    }

    method StopPump(i: nat)
      requires i < |pumps| && Coupled()
      modifies this`readFinished, this`running, this`pumpPromise, this`pumps, promises
      ensures Coupled() && promises == old(promises)
      ensures Fields() == PumpStops(old(Fields()), i)
    {
      hide Coupled;
      FinishRead();
      running := false;
      pumpPromise := false;
      pumps := pumps[..i] + pumps[i + 1..];
    }

    method CaughtUp(start: Stamp, finish: Stamp)
      requires Coupled()
      modifies this`past, this`catchup, this`catchupFinished, promises
      ensures Coupled() && promises == old(promises)
      ensures Fields() == Serve(old(Fields()), true, start, finish)
    {
      hide Coupled;
      ResolveCatchup();
      past := past.(retired := past.retired + [Retirement(start, finish)]);
    }

    /** A turn that set out to catch up releases the waiters. */
    method ServeTurn(catchingUp: bool, start: Stamp, finish: Stamp)
      requires Coupled()
      modifies this`past, this`catchup, this`catchupFinished, promises
      ensures Coupled() && promises == old(promises)
      ensures Fields() == Serve(old(Fields()), catchingUp, start, finish)
    {
      hide Coupled;
      if catchingUp { CaughtUp(start, finish); }
    }

    method ShowSnapshot()
      modifies this`past
      ensures Fields() == Show(old(Fields()))
    {
      if emitted { past := past.(emissions := past.emissions + [snapshot]); }
    }

    method TakeTurn(g: Gate, i: nat, o: Outcome)
      requires i < |pumps| && o.Accepted? && !closed && Coupled()
      modifies this`snapshot, this`origin, this`past, this`catchup, this`catchupFinished, promises
      ensures Coupled() && promises == old(promises)
      ensures Fields() == PumpAccepts(old(Fields()), g, old(pumps)[i].catchingUp, o)
    {
      hide Coupled, Machine.Accept, Serve, Show, Now;
      var finish, catchingUp := Now(Fields(), g, o.generation), pumps[i].catchingUp;
      Accept(g, o);
      ServeTurn(catchingUp, o.since, finish);
      ShowSnapshot();
    }

    /** The read of a turn has ended, and another turn begins. */
    method NextTurn(g: Gate, i: nat)
      requires i < |pumps| && Coupled()
      modifies this`dirty, this`readFinished, this`tickets, this`promises, this`pumps, promises
      ensures Coupled() && Grown()
      ensures Fields() == var s := old(Fields()); Iterate(s, g).0.(pumps := s.pumps[i := Iterate(s, g).1])
    {
      IterateForgets(Fields(), g);
      hide Coupled, Iterate;
      FinishRead();
      var pump := BeginTurn(g);
      pumps := pumps[i := pump];
    }

    method TurnEnds(g: Gate, i: nat)
      requires i < |pumps| && Coupled()
      modifies this`dirty, this`readFinished, this`tickets, this`promises, this`running, this`pumpPromise, this`pumps, promises
      ensures Coupled() && Grown() && Fields() == PumpLoop(old(Fields()), g, i)
    {
      hide Coupled, Iterate, PumpStops;
      if dirty && !closed { NextTurn(g, i); } else { StopPump(i); }
    }

    method TurnAccepted(g: Gate, i: nat, o: Outcome)
      requires i < |pumps| && o.Accepted? && Coupled()
      modifies this`snapshot, this`origin, this`past, this`catchup, this`catchupFinished, promises
      modifies this`dirty, this`readFinished, this`tickets, this`promises, this`running, this`pumpPromise, this`pumps
      ensures Coupled() && Grown()
      ensures Fields() == PumpOutcome(old(Fields()), g, i, o)
    {
      hide PumpAccepts, PumpLoop, PumpStops, Coupled;
      if closed {
        StopPump(i);
      } else {
        TakeTurn(g, i, o);
        TurnEnds(g, i);
      }
    }

    method PumpResumes(g: Gate, i: nat, o: Outcome)
      requires i < |pumps| && Coupled()
      modifies this, promises
      ensures Coupled() && Grown()
      ensures State() == Put(old(State()), PumpOutcome(old(Fields()), g, i, o))
    {
      hide PumpAccepts, PumpLoop, PumpStops, Machine.End, Cancel, Coupled;
      match o
      case Again(read) => pumps := pumps[i := pumps[i].(read := read)];
      case Accepted(_, _, _) =>
        TurnAccepted(g, i, o);
      case Threw =>
        End(true);
        StopPump(i);
    }

    method ImmediateRuns(g: Gate)
      requires Coupled() && (!pumpPromise ==> readFinished == null)
      modifies this`scheduled, this`immediates, this`dirty, this`readFinished, this`tickets, this`promises, this`running, this`pumpPromise, this`pumps
      ensures Coupled() && Grown() && Fields() == Immediate(old(Fields()), g)
    {
      hide Coupled;
      if immediates == 0 { return; }
      scheduled := false;
      immediates := immediates - 1;
      if !closed { StartPump(g); }
    }

    method Adopt(id: nat)
      requires Coupled()
      modifies this`subscriber, this`callers
      ensures Coupled()
      ensures State() == Machine.Adopt(old(State()), id)
    {
      hide Coupled;
      if closed || subscriber || id in callers { return; }
      subscriber := true;
      Enter(id, Waiting(Adopter, Initially));
    }

    /** A caller starts to wait, or waits for something else. */
    method Enter(id: nat, w: Waiting)
      requires Coupled() && (w.position.ForRead? ==> w.position.waiter in promises)
      modifies this`callers
      ensures Coupled() && Callers() == old(Callers())[id := CallerOf(w)] && callers == old(callers)[id := w]
    {
      callers := callers[id := w];
    }

    method Leave(id: nat)
      requires Coupled()
      modifies this`callers
      ensures Coupled() && Callers() == old(Callers()) - {id}
    {
      callers := callers - {id};
    }

    method Current(id: nat)
      requires Coupled()
      modifies this`callers
      ensures Coupled()
      ensures State() == Machine.Current(old(State()), id)
    {
      hide Coupled;
      if closed || id in callers { return; }
      Enter(id, Waiting(Asker, Initially));
    }

    method Reject(id: nat)
      requires id in callers && Coupled()
      modifies this, promises
      ensures Coupled() && promises == old(promises)
      ensures State() == CallerFails(old(State()), id)
    {
      hide Coupled;
      if callers[id].kind.Adopter? { End(false); }
      Leave(id);
    }

    method FirstShow()
      modifies this`emitted, this`past, this`scheduled, this`immediates
      ensures Fields() == FirstEmission(old(Fields()))
    {
      emitted := true;
      ShowSnapshot();
      if dirty { Schedule(); }
    }

    method Answer(id: nat, generation: nat)
      requires id in callers && Coupled()
      modifies this`callers, this`answers, this`emitted, this`past, this`scheduled, this`immediates
      ensures Coupled()
      ensures State() == CallerFinish(old(State()), old(Fields()), id, generation)
    {
      hide Coupled, FirstEmission;
      var kind := callers[id].kind;
      Leave(id);
      if closed { return; }
      answers := answers + [Machine.Answer(kind, generation, snapshot, if origin.Some? then origin.value.generation else 0)];
      if kind.Adopter? {
        FirstShow();
      }
    }

    /** A session that owes a read starts it; which promise a caller then waits for. */
    method Join(g: Gate) returns (waiter: Deferred?)
      requires Coupled() && (!pumpPromise ==> readFinished == null)
      modifies this`dirty, this`readFinished, this`tickets, this`promises, this`running, this`pumpPromise, this`pumps
      ensures Coupled() && Grown() && (waiter != null ==> waiter in promises)
      ensures var s := old(Fields());
              && Fields() == (if MustRead(s) then PumpStart(s, g) else s)
              && TicketOf(waiter) == (if MustRead(s) then WaiterOf(Fields()) else None)
    {
      if catchup || (fenced && (running || dirty)) {
        StartPump(g);
        waiter := if catchupFinished != null then catchupFinished else readFinished;
      } else {
        waiter := null;
      }
      hide PumpStart;
    }

    /** Before it is answered, a caller waits for the pending catch-up, or else the read in flight. */
    method Admit(g: Gate, id: nat, generation: nat)
      requires id in callers && Coupled() && (!pumpPromise ==> readFinished == null)
      modifies this
      ensures Coupled() && Grown()
      ensures State() == CallerAdmitted(old(State()), g, id, generation)
    {
      hide Coupled, PumpStart, CallerFinish, MustRead, WaiterOf;
      assert id in Callers() && Callers()[id] == CallerOf(callers[id]);
      ghost var s := State();
      var waiter := Join(g);
      if waiter != null {
        Enter(id, callers[id].(position := ForRead(generation, waiter)));
      } else {
        FinishesAlike(s, Fields(), id, generation);
        Answer(id, generation);
      }
    }

    method CallerRuns(g: Gate, id: nat)
      requires Coupled() && (!pumpPromise ==> readFinished == null)
      modifies this, promises
      ensures Coupled() && Grown()
      ensures State() == CallerStep(old(State()), g, id)
    {
      hide Coupled;
      if id !in callers { return; }
      if callers[id].position.ForRead? { SettledIsNotOutstanding(id); }
      match callers[id].position
      case Initially =>
        if initial.Broken? { Reject(id); }
        else if initial.Settled? {
          if !fenced { Admit(g, id, 0); }
          else if g.Refuses() { Reject(id); }
          else { Enter(id, callers[id].(position := ForReadiness(|g.promises| - 1))); }
        }
      case ForReadiness(i) =>
        if i < |g.promises| && !g.promises[i].Pending? {
          if g.promises[i].Rejected? { Reject(id); } else { Admit(g, id, g.promises[i].generation); }
        }
      case ForRead(generation, waiter) =>
        if waiter.settled { Answer(id, generation); }
    }

    /** A suspended reader goes on. */
    method ReadMoves(g: Gate, e: Event)
      requires Coupled() && (e.LeaseReady? || e.LeaseRefused? || e.InitialRuns? || e.PumpRuns?)
      modifies this, promises
      ensures Coupled() && Grown() && State() == Put(old(State()), ReaderNext(old(Fields()), g, e))
    {
      hide Coupled, InitialOutcome, PumpOutcome, Resume, Cancel;
      match e
      case LeaseReady => if initial.AwaitLease? { InitialResumes(g, ReadTop(Fields(), g)); }
      case LeaseRefused => if initial.AwaitLease? { InitialResumes(g, Threw); }
      case InitialRuns(result) =>
        if initial.InitialRead? {
          var o := Resume(Fields(), g, initial.read, result);
          if o.Some? { InitialResumes(g, o.value); }
        }
      case PumpRuns(i, result) =>
        if i < |pumps| {
          var o := Resume(Fields(), g, pumps[i].read, result);
          if o.Some? { PumpResumes(g, i, o.value); }
        }
    }

    /** A change arrives, or the event loop runs a queued callback: neither closes the session. */
    method ReaderHears(g: Gate, e: Event)
      requires Coupled() && (e.SourceChanged? || e.ImmediateRuns?) && (!pumpPromise ==> readFinished == null)
      modifies this, promises
      ensures Coupled() && Grown() && State() == Put(old(State()), ReaderNext(old(Fields()), g, e))
    {
      hide Coupled, Immediate, Machine.Changed, Cancel;
      if e.SourceChanged? { Changed(e.catchup); } else { ImmediateRuns(g); }
    }

    lemma OnlyPumpsRead()
      requires Valid()
      ensures !pumpPromise ==> readFinished == null
    {
      hide Coupled;
      assert SingleFlight(Fields());
    }

    /** One event of the session, whatever its order: the object follows the machine, and keeps its invariant. */
    method Handle(g: Gate, e: Event)
      requires Valid()
      modifies this, promises
      ensures State() == Next(old(State()), g, e) && Valid() && Grown()
    {
      OnlyPumpsRead();
      hide Machine.Valid, Coupled, CallerStep, Machine.Adopt, Machine.Current, Machine.End, Put, State, Fields;
      hide Resume, InitialOutcome, PumpOutcome, Immediate, Machine.Changed, ReadTop;
      NextKeeps(State(), g, e);
      match e
      case Adopts(id) => Adopt(id);
      case Asks(id) => Current(id);
      case CallerRuns(id) => CallerRuns(g, id);
      case LeaseReady => ReadMoves(g, e);
      case LeaseRefused => ReadMoves(g, e);
      case InitialRuns(_) => ReadMoves(g, e);
      case PumpRuns(_, _) => ReadMoves(g, e);
      case SourceFailed => End(true);
      case Closed => End(false);
      case _ => ReaderHears(g, e);
    }
  }

  lemma Ends(s: Reader, error: bool)
    ensures Machine.End(s, error).closed && (s.closed ==> Machine.End(s, error) == s)
  {
  }

  lemma IterateForgets(s: Reader, g: Gate)
    ensures Iterate(s.(readFinished := None), g) == Iterate(s, g)
  {
    assert WhenReady(s.(readFinished := None), g) == WhenReady(s, g);
    hide WhenReady;
  }

  lemma FirstIsKept(s: Reader, g: Gate, o: Outcome)
    requires o.Accepted? && !s.closed
    ensures var s1 := Machine.Accept(s, g, o).(hasValue := true, initial := Settled);
            && s1.dirty == s.dirty && s1.subscriber == s.subscriber && s1.catchup == s.catchup
            && InitialOutcome(s, g, o) == if s.dirty && (s.subscriber || s.catchup) then Machine.Schedule(s1) else s1
  {
    hide Machine.Schedule;
  }

  lemma FinishesAlike(s: Session, r: Reader, id: nat, generation: nat)
    requires id in s.callers
    ensures CallerFinish(s.(reader := r), r, id, generation) == CallerFinish(s, r, id, generation)
  {
    hide FirstEmission;
  }
}
