/**
 * Leases on activated artifacts and the shutdown that waits for them (Source/Chronicle/chronicleArtifactActivator.ts):
 * a state machine of the steps between awaits, and the object whose closures take those steps.
 */
module ChronicleArtifactActivator {
  import opened Options

  type LeaseId = nat

  /** The activation behind a lease: its artifact is being built, was handed out, or could not be built. */
  datatype Phase = Constructing | HandedOut | Abandoned

  /** The shared `cleanup` promise of a lease: not begun, disposing its scope, or settled. */
  datatype Cleanup = NotBegun | Disposing | Settled(ok: bool)

  /** `scoped` says that a scope was created; `disposals` counts the calls of its `dispose`. */
  datatype Lease = Lease(phase: Phase, scoped: bool, completed: bool, cleanup: Cleanup, settled: bool, disposals: nat)

  /** `drain` runs until the set of active leases is empty; `on` is the set it took a snapshot of. */
  datatype Drain = Idle | Waiting(on: set<LeaseId>) | Returned

  datatype Activator = Activator(stopped: bool, active: set<LeaseId>, leases: map<LeaseId, Lease>, drain: Drain)

  datatype Event =
    | Activates(id: LeaseId, accepted: bool, scoped: bool)
    | Constructs(id: LeaseId, ok: bool)
    | Completes(id: LeaseId)
    | Disposes(id: LeaseId)
    | ScopeDisposed(id: LeaseId, ok: bool)
    | Leaves(id: LeaseId)
    | Stops
    | Drains
    | DrainWakes

  function Open(): Activator {
    Activator(false, {}, map[], Idle)
  }

  /** `release`: begin the cleanup unless it has begun. */
  function ReleaseOf(l: Lease): Lease {
    if l.cleanup.NotBegun? then l.(cleanup := Disposing, disposals := l.disposals + 1) else l
  }

  function Set(a: Activator, id: LeaseId, l: Lease): Activator {
    a.(leases := a.leases[id := l])
  }

  /**
   * Admission: nothing after `stop`, nothing for another store (`accepted` is false). The lifetime joins the active set
   * before the scope is created, and settles at once when that fails.
   */
  function Activate(a: Activator, id: LeaseId, accepted: bool, scoped: bool): Activator {
    if a.stopped || !accepted || id in a.leases then a
    else Set(a, id, Lease(if scoped then Constructing else Abandoned, scoped, false, NotBegun, !scoped, 0)).(active := a.active + {id})
  }

  /** The artifact is built, or cannot be: then the activation releases its scope and throws. */
  function Construct(l: Lease, ok: bool): Lease {
    if !l.phase.Constructing? then l
    else if ok then l.(phase := HandedOut)
    else ReleaseOf(l).(phase := Abandoned)
  }

  function CompleteOf(l: Lease): Lease {
    if l.phase.HandedOut? then ReleaseOf(l).(completed := true) else l
  }

  function DisposeOf(l: Lease): Lease {
    if l.phase.HandedOut? && !l.completed then ReleaseOf(l) else l
  }

  /** The scope's `dispose` settles, either way: so does the lifetime. */
  function Finish(l: Lease, ok: bool): Lease {
    if l.cleanup.Disposing? then l.(cleanup := Settled(ok), settled := true) else l
  }

  function DrainTop(a: Activator): Activator {
    a.(drain := if a.active == {} then Returned else Waiting(a.active))
  }

  /** A lifetime leaves the active set, before whoever waited for it resumes. */
  predicate Woken(a: Activator) {
    a.drain.Waiting? && forall id :: id in a.drain.on ==> id in a.leases && a.leases[id].settled && id !in a.active
  }

  function Next(a: Activator, e: Event): Activator {
    match e
    case Activates(id, accepted, scoped) => Activate(a, id, accepted, scoped)
    case Constructs(id, ok) => if id in a.leases then Set(a, id, Construct(a.leases[id], ok)) else a
    case Completes(id) => if id in a.leases then Set(a, id, CompleteOf(a.leases[id])) else a
    case Disposes(id) => if id in a.leases then Set(a, id, DisposeOf(a.leases[id])) else a
    case ScopeDisposed(id, ok) => if id in a.leases then Set(a, id, Finish(a.leases[id], ok)) else a
    case Leaves(id) => if id in a.leases && a.leases[id].settled then a.(active := a.active - {id}) else a
    case Stops => a.(stopped := true)
    case Drains => if a.drain.Waiting? then a else DrainTop(a)
    case DrainWakes => if Woken(a) then DrainTop(a) else a
  }

  function Run(trace: seq<Event>): Activator {
    if trace == [] then Open() else Next(Run(trace[..|trace| - 1]), trace[|trace| - 1])
  }

  // ---- what every run keeps ---------------------------------------------------------------------

  /** A scope is disposed once its cleanup has begun, and not before; a lifetime settles when that is over. */
  ghost predicate Orderly(l: Lease) {
    && l.disposals == (if l.cleanup.NotBegun? then 0 else 1)
    && (l.settled <==> !l.scoped || l.cleanup.Settled?)
    && (!l.scoped ==> l.cleanup.NotBegun? && l.phase.Abandoned?)
    && (l.phase.Constructing? ==> l.cleanup.NotBegun?)
    && (l.scoped && l.phase.Abandoned? ==> !l.cleanup.NotBegun?)
    && (l.completed ==> l.phase.HandedOut? && !l.cleanup.NotBegun?)
  }

  ghost predicate Inv(a: Activator) {
    && (forall id :: id in a.leases ==> Orderly(a.leases[id]))
    && (forall id :: id in a.leases && !a.leases[id].settled ==> id in a.active)
    && (forall id :: id in a.active ==> id in a.leases)
    && (a.drain.Waiting? ==> forall id :: id in a.drain.on ==> id in a.leases)
  }

  lemma StepsAreOrderly(l: Lease, ok: bool)
    requires Orderly(l)
    ensures Orderly(Construct(l, ok)) && Orderly(CompleteOf(l)) && Orderly(DisposeOf(l)) && Orderly(Finish(l, ok))
    ensures l.settled ==> Construct(l, ok).settled && CompleteOf(l).settled && DisposeOf(l).settled && Finish(l, ok).settled
    ensures !l.settled ==> !Construct(l, ok).settled && !CompleteOf(l).settled && !DisposeOf(l).settled
  {
  }

  lemma NextKeeps(a: Activator, e: Event)
    requires Inv(a)
    ensures Inv(Next(a, e))
  {
    forall id, ok | id in a.leases
      ensures Orderly(Construct(a.leases[id], ok)) && Orderly(CompleteOf(a.leases[id])) && Orderly(DisposeOf(a.leases[id]))
              && Orderly(Finish(a.leases[id], ok))
    {
      StepsAreOrderly(a.leases[id], ok);
    }
  }

  lemma {:induction false} RunKeeps(trace: seq<Event>)
    ensures Inv(Run(trace))
  {
    if trace != [] {
      RunKeeps(trace[..|trace| - 1]);
      hide Inv, Next;
      NextKeeps(Run(trace[..|trace| - 1]), trace[|trace| - 1]);
    }
  }

  // ---- what clients and shutdown can rely on ----------------------------------------------------

  /**
   * Under any mix and order of completion, disposal, construction failure and shutdown, no scope is disposed twice; one
   * is disposed as soon as its artifact could not be built or was completed; and a lease has settled exactly when its
   * scope could not be created or has been disposed.
   */
  lemma ScopesAreDisposedOnce(trace: seq<Event>, id: LeaseId)
    requires id in Run(trace).leases
    ensures var l := Run(trace).leases[id];
            && l.disposals <= 1
            && (l.completed || (l.scoped && l.phase.Abandoned?) ==> l.disposals == 1)
            && (l.phase.Constructing? ==> l.disposals == 0)
            && (l.settled <==> !l.scoped || l.cleanup.Settled?)
  {
    RunKeeps(trace);
  }

  lemma RunOn(trace: seq<Event>, e: Event)
    ensures Run(trace + [e]) == Next(Run(trace), e)
  {
    assert (trace + [e])[..|trace|] == trace;
  }

  lemma CleanupOnlyProceeds(a: Activator, e: Event, id: LeaseId)
    requires Inv(a) && id in a.leases && !a.leases[id].cleanup.NotBegun?
    ensures id in Next(a, e).leases && !Next(a, e).leases[id].cleanup.NotBegun?
    ensures a.leases[id].cleanup.Settled? ==> Next(a, e).leases[id].cleanup == a.leases[id].cleanup
  {
    assert Orderly(a.leases[id]);
  }

  /** Cleanup happens once: nothing that is called on a released lease starts it again or changes how it ended. */
  lemma {:induction false} CleanupIsFinal(before: seq<Event>, after: seq<Event>, id: LeaseId)
    requires id in Run(before).leases && !Run(before).leases[id].cleanup.NotBegun?
    ensures id in Run(before + after).leases && Run(before + after).leases[id].disposals == 1
    ensures !Run(before + after).leases[id].cleanup.NotBegun?
    ensures Run(before).leases[id].cleanup.Settled? ==>
              Run(before + after).leases[id].cleanup == Run(before).leases[id].cleanup
    decreases |after|
  {
    hide Run, Next;
    RunKeeps(before + after);
    if after == [] {
      assert before + after == before;
    } else {
      var n := |after| - 1;
      CleanupIsFinal(before, after[..n], id);
      RunKeeps(before + after[..n]);
      CleanupOnlyProceeds(Run(before + after[..n]), after[n], id);
      RunOn(before + after[..n], after[n]);
      assert before + after == before + after[..n] + [after[n]];
    }
    assert Orderly(Run(before + after).leases[id]);
  }

  /** `stop` ends admission: no lease is ever added afterwards. */
  lemma {:induction false} NothingIsAdmittedAfterStop(before: seq<Event>, after: seq<Event>)
    requires Run(before).stopped
    ensures Run(before + after).stopped && Run(before + after).leases.Keys == Run(before).leases.Keys
    ensures Run(before + after).active <= Run(before).active
    decreases |after|
  {
    if after == [] {
      assert before + after == before;
    } else {
      var n := |after| - 1;
      var trace := before + after;
      assert trace[..|trace| - 1] == before + after[..n];
      NothingIsAdmittedAfterStop(before, after[..n]);
    }
  }

  predicate AllSettled(a: Activator) {
    forall id :: id in a.leases ==> a.leases[id].settled
  }

  /** `drain` returns only when every admitted lease has settled. */
  lemma DrainWaitsForAll(trace: seq<Event>, e: Event)
    requires !Run(trace).drain.Returned? && Run(trace + [e]).drain.Returned?
    ensures AllSettled(Run(trace + [e])) && Run(trace + [e]).active == {}
  {
    assert (trace + [e])[..|trace|] == trace;
    RunKeeps(trace);
    hide Orderly, Run;
  }

  /** After `stop`, once every lease has settled, that remains so: services can be disposed. */
  lemma {:induction false} SettledForGood(before: seq<Event>, after: seq<Event>)
    requires Run(before).stopped && AllSettled(Run(before))
    ensures Run(before + after).stopped && AllSettled(Run(before + after))
    decreases |after|
  {
    if after == [] {
      assert before + after == before;
    } else {
      var n := |after| - 1;
      var trace := before + after;
      assert trace[..|trace| - 1] == before + after[..n];
      SettledForGood(before, after[..n]);
    }
  }

  // ---- drain terminates -------------------------------------------------------------------------

  /** A step that only the promises `drain` waits for take, and that changes something. */
  predicate Effective(a: Activator, e: Event) {
    (e.Leaves? || e.DrainWakes?) && Next(a, e) != a
  }

  /** What is left for a waiting `drain` to see: leases, its return, and one more look when leases joined after the first. */
  function Rank(a: Activator): nat {
    if !a.drain.Waiting? then 0 else |a.active| + (if a.active <= a.drain.on then 1 else 2)
  }

  lemma Shrinks(s: set<LeaseId>, id: LeaseId)
    requires id in s
    ensures |s - {id}| == |s| - 1
  {
    assert s == s - {id} + {id};
  }

  lemma LeavesCounts(a: Activator, id: LeaseId)
    requires Inv(a) && a.stopped && a.drain.Waiting?
    ensures Rank(Next(a, Leaves(id))) + (if Effective(a, Leaves(id)) then 1 else 0) <= Rank(a)
  {
    if id in a.active { Shrinks(a.active, id); } else { assert a.active - {id} == a.active; }
  }

  /** An effective step brings a waiting `drain` nearer, and nothing else takes it back. */
  lemma StepCounts(a: Activator, e: Event)
    requires Inv(a) && a.stopped && a.drain.Waiting?
    ensures Rank(Next(a, e)) + (if Effective(a, e) then 1 else 0) <= Rank(a)
  {
    match e
    case Leaves(id) => LeavesCounts(a, id);
    case DrainWakes =>
      if Woken(a) && a.active != {} {
        var id :| id in a.active;
        assert id !in a.drain.on;
      }
    case _ =>
  }

  /** Once every lease has settled, a waiting `drain` can always be brought nearer. */
  lemma DrainIsNeverStuck(a: Activator) returns (e: Event)
    requires Inv(a) && a.stopped && AllSettled(a) && a.drain.Waiting?
    ensures Effective(a, e) && Rank(Next(a, e)) < Rank(a)
  {
    if id :| id in a.active {
      e := Leaves(id);
    } else {
      e := DrainWakes;
      assert Woken(a);
    }
    StepCounts(a, e);
  }

  function Resume(a: Activator, trace: seq<Event>): Activator {
    if trace == [] then a else Next(Resume(a, trace[..|trace| - 1]), trace[|trace| - 1])
  }

  /** How many effective steps a run takes. */
  function Work(a: Activator, trace: seq<Event>): nat {
    if trace == [] then 0
    else
      var last := |trace| - 1;
      Work(a, trace[..last]) + if Effective(Resume(a, trace[..last]), trace[last]) then 1 else 0
  }

  /** What a stopped activator whose leases have settled keeps. */
  ghost predicate Ending(a: Activator) {
    && Inv(a) && a.stopped && AllSettled(a)
    && (a.drain.Waiting? || (a.drain.Returned? && a.active == {}))
  }

  lemma EndingStays(a: Activator, e: Event)
    requires Ending(a)
    ensures Ending(Next(a, e))
  {
    NextKeeps(a, e);
    hide Orderly;
  }

  /**
   * So it returns: once every lease has settled, whatever else is called in between, `drain` has returned by the time as
   * many effective steps have been taken as its rank counts, and until then another one can be taken.
   */
  lemma {:induction false} DrainReturns(a: Activator, trace: seq<Event>)
    requires Ending(a)
    ensures Ending(Resume(a, trace))
    ensures Resume(a, trace).drain.Waiting? ==> a.drain.Waiting? && Work(a, trace) + Rank(Resume(a, trace)) <= Rank(a)
    ensures Work(a, trace) >= Rank(a) ==> Resume(a, trace).drain.Returned?
  {
    if trace != [] {
      var b, e := Resume(a, trace[..|trace| - 1]), trace[|trace| - 1];
      DrainReturns(a, trace[..|trace| - 1]);
      EndingStays(b, e);
      if b.drain.Waiting? { StepCounts(b, e); }
      assert b.drain.Returned? ==> Next(b, e).drain.Returned?;
      hide Effective, Rank, Inv, AllSettled;
    }
    assert Resume(a, trace).drain.Waiting? ==> 0 < Rank(Resume(a, trace));
  }

  // ---- the objects ------------------------------------------------------------------------------

  /** The variables a lease's closures share. */
  class ArtifactLease {
    var phase: Phase
    var scoped: bool
    var completed: bool
    var cleanup: Cleanup
    var settled: bool
    var disposals: nat

    ghost function Value(): Lease
      reads this
    {
      Lease(phase, scoped, completed, cleanup, settled, disposals)
    }

    ghost predicate Valid()
      reads this
    {
      Orderly(Value())
    }

    constructor (scoped: bool)
      ensures Valid() && Value() == Lease(if scoped then Constructing else Abandoned, scoped, false, NotBegun, !scoped, 0)
    {
      phase := if scoped then Constructing else Abandoned;
      this.scoped, completed, cleanup, settled, disposals := scoped, false, NotBegun, !scoped, 0;
    }

    method Release()
      modifies this`cleanup, this`disposals
      ensures Value() == ReleaseOf(old(Value()))
    {
      if cleanup.NotBegun? {
        cleanup := Disposing;
        disposals := disposals + 1;
      }
    }

    method Constructed(ok: bool)
      requires Valid()
      modifies this
      ensures Valid() && Value() == Construct(old(Value()), ok)
    {
      StepsAreOrderly(Value(), ok);
      if !phase.Constructing? { return; }
      if ok { phase := HandedOut; return; }
      Release();
      phase := Abandoned;
    }

    method Complete()
      requires Valid()
      modifies this
      ensures Valid() && Value() == CompleteOf(old(Value()))
    {
      StepsAreOrderly(Value(), true);
      if !phase.HandedOut? { return; }
      completed := true;
      Release();
    }

    method Dispose()
      requires Valid()
      modifies this
      ensures Valid() && Value() == DisposeOf(old(Value()))
    {
      StepsAreOrderly(Value(), true);
      if !phase.HandedOut? || completed { return; }
      Release();
    }

    method ScopeDisposed(ok: bool)
      requires Valid()
      modifies this
      ensures Valid() && Value() == Finish(old(Value()), ok)
    {
      StepsAreOrderly(Value(), ok);
      if !cleanup.Disposing? { return; }
      cleanup := Settled(ok);
      settled := true;
    }
  }
}
