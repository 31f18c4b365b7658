/**
 * What each call means for the lease of an activated artifact (Source/Chronicle/chronicleArtifactActivator.ts:39-108),
 * said of the calls of a run: which of them begin the cleanup, and that whoever has a lease can always have it settled.
 */
module ChronicleActivationEvents {
  import opened Options
  import opened ChronicleArtifactActivator

  // ---- admission --------------------------------------------------------------------------------

  /**
   * An accepted activation before `stop` is active at once; without a scope it is over at once as well. Any other changes
   * nothing.
   */
  lemma ActivationsAreAdmitted(a: Activator, id: LeaseId, accepted: bool, scoped: bool)
    requires id !in a.leases
    ensures var b := Next(a, Activates(id, accepted, scoped));
            if a.stopped || !accepted then b == a
            else
              && id in b.leases && id in b.active && b.leases[id].scoped == scoped && b.leases[id].settled == !scoped
              && b.leases[id].cleanup.NotBegun? && !b.leases[id].completed && b.leases[id].phase.Constructing? == scoped
              && b.active == a.active + {id} && b.leases.Keys == a.leases.Keys + {id} && b.stopped == a.stopped && b.drain == a.drain
  {
  }

  /** The artifact of a lease under construction is handed out exactly when it could be built, and only then. */
  lemma {:induction false} BuiltArtifactsAreHandedOut(trace: seq<Event>, id: LeaseId)
    requires id in Run(trace).leases
    ensures Run(trace).leases[id].phase.HandedOut? <==> exists i :: 0 <= i < |trace| && Builds(trace, i, id)
  {
    var last := |trace| - 1;
    var was := Run(trace[..last]);
    if id in was.leases {
      BuiltArtifactsAreHandedOut(trace[..last], id);
      BuildsBefore(trace, id);
    } else {
      NotYet(trace, last, id);
    }
    assert Builds(trace, last, id) <==> trace[last] == Constructs(id, true) && id in was.leases && was.leases[id].phase.Constructing?;
  }

  /** The event at this place tells that the artifact of a lease was built. */
  ghost predicate Builds(trace: seq<Event>, i: nat, id: LeaseId)
    requires i < |trace|
  {
    trace[i] == Constructs(id, true) && id in Run(trace[..i]).leases && Run(trace[..i]).leases[id].phase.Constructing?
  }

  lemma BuildsBefore(trace: seq<Event>, id: LeaseId)
    requires trace != []
    ensures var last := |trace| - 1;
            (exists i :: 0 <= i < last && Builds(trace[..last], i, id)) <==> (exists i :: 0 <= i < last && Builds(trace, i, id))
  {
    hide Run;
    var last := |trace| - 1;
    forall i | 0 <= i < last ensures Builds(trace[..last], i, id) <==> Builds(trace, i, id) {
      assert trace[..last][..i] == trace[..i];
    }
  }

  lemma {:induction false} LeasesStay(trace: seq<Event>, i: nat, id: LeaseId)
    requires i <= |trace|
    ensures id in Run(trace[..i]).leases ==> id in Run(trace).leases
  {
    if i == |trace| {
      assert trace[..i] == trace;
    } else {
      var last := |trace| - 1;
      assert trace[..last][..i] == trace[..i];
      LeasesStay(trace[..last], i, id);
    }
  }

  /** What is not a lease yet was none before. */
  lemma NotYet(trace: seq<Event>, n: nat, id: LeaseId)
    requires n <= |trace| && id !in Run(trace[..n]).leases
    ensures forall i :: 0 <= i < n ==> id !in Run(trace[..i]).leases
  {
    hide Run;
    forall i | 0 <= i < n ensures id !in Run(trace[..i]).leases {
      assert trace[..n][..i] == trace[..i];
      LeasesStay(trace[..n], i, id);
    }
  }

  // ---- cleanup ----------------------------------------------------------------------------------

  /** An artifact that cannot be built, or a handed-out lease that is completed or disposed. */
  predicate Releases(a: Activator, e: Event, id: LeaseId) {
    && id in a.leases
    && ((e == Constructs(id, false) && a.leases[id].phase.Constructing?)
        || ((e == Completes(id) || e == ChronicleArtifactActivator.Disposes(id)) && a.leases[id].phase.HandedOut?))
  }

  lemma ReleasesBegin(a: Activator, e: Event, id: LeaseId)
    requires Inv(a) && id in a.leases
    ensures id in Next(a, e).leases
    ensures var l, l' := a.leases[id], Next(a, e).leases[id];
            (!l'.cleanup.NotBegun? <==> !l.cleanup.NotBegun? || Releases(a, e, id)) && (l.cleanup.NotBegun? ==> !l'.cleanup.Settled?)
  {
    assert Orderly(a.leases[id]);
  }

  ghost predicate ReleasesAt(trace: seq<Event>, i: nat, id: LeaseId)
    requires i < |trace|
  {
    Releases(Run(trace[..i]), trace[i], id)
  }

  lemma ReleasesBefore(trace: seq<Event>, id: LeaseId)
    requires trace != []
    ensures var last := |trace| - 1;
            (exists i :: 0 <= i < last && ReleasesAt(trace[..last], i, id)) <==> (exists i :: 0 <= i < last && ReleasesAt(trace, i, id))
  {
    hide Run, Releases;
    var last := |trace| - 1;
    forall i | 0 <= i < last ensures ReleasesAt(trace[..last], i, id) <==> ReleasesAt(trace, i, id) {
      assert trace[..last][..i] == trace[..i];
    }
  }

  /**
   * In every run the scope of a lease has been disposed, and once, exactly when its artifact could not be built or the
   * handed-out lease was completed or disposed; and the lease settles when that disposal does.
   */
  lemma {:induction false} CleanupBeginsExactly(trace: seq<Event>, id: LeaseId)
    requires id in Run(trace).leases
    ensures var l := Run(trace).leases[id];
            l.disposals == if exists i :: 0 <= i < |trace| && ReleasesAt(trace, i, id) then 1 else 0
    ensures !Run(trace).leases[id].cleanup.NotBegun? <==> exists i :: 0 <= i < |trace| && ReleasesAt(trace, i, id)
  {
    var last := |trace| - 1;
    var was := Run(trace[..last]);
    RunKeeps(trace[..last]);
    RunKeeps(trace);
    assert Orderly(Run(trace).leases[id]);
    if id in was.leases {
      CleanupBeginsExactly(trace[..last], id);
      ReleasesBefore(trace, id);
      ReleasesBegin(was, trace[last], id);
    } else {
      NotYet(trace, last, id);
      hide Inv, Orderly;
    }
    assert ReleasesAt(trace, last, id) <==> Releases(was, trace[last], id);
  }

  /** Disposing a handed-out lease begins its cleanup, completed or not; only `complete` marks it completed. */
  lemma ReleasesDispose(trace: seq<Event>, e: Event, id: LeaseId)
    requires Releases(Run(trace), e, id)
    ensures Run(trace + [e]).stopped == Run(trace).stopped && Run(trace + [e]).active == Run(trace).active
    ensures id in Run(trace + [e]).leases && Run(trace + [e]).leases[id].disposals == 1
    ensures var l, l' := Run(trace).leases[id], Run(trace + [e]).leases[id];
            && l'.cleanup == (if l.cleanup.NotBegun? then Disposing else l.cleanup)
            && l'.completed == (l.completed || e.Completes?) && l'.settled == l.settled
            && l'.phase == if e.Constructs? then Abandoned else HandedOut
  {
    RunKeeps(trace);
    RunOn(trace, e);
    assert Orderly(Run(trace).leases[id]);
    hide Run;
  }

  /** The cleanup of a lease is over, either way, when the disposal of its scope is; then it has settled. */
  lemma DisposedScopesSettle(a: Activator, id: LeaseId, ok: bool)
    requires id in a.leases && a.leases[id].cleanup.Disposing?
    ensures var b := Next(a, ScopeDisposed(id, ok));
            id in b.leases && b.leases[id] == a.leases[id].(cleanup := Settled(ok), settled := true) && b.active == a.active
  {
  }

  // ---- shutdown ---------------------------------------------------------------------------------

  /** What the holder of a lease and its scope do to let it settle. */
  function Ending(l: Lease, id: LeaseId): seq<Event> {
    if l.settled then []
    else if l.cleanup.Disposing? then [ScopeDisposed(id, true)]
    else [if l.phase.Constructing? then Constructs(id, false) else ChronicleArtifactActivator.Disposes(id), ScopeDisposed(id, true)]
  }

  /** Whatever state a lease is in, it can be settled, leaving the others as they are. */
  lemma EveryLeaseCanSettle(a: Activator, id: LeaseId)
    requires Inv(a) && id in a.leases
    ensures var b := Resume(a, Ending(a.leases[id], id));
            id in b.leases && b.leases[id].settled && forall other :: other in a.leases && other != id ==> other in b.leases && b.leases[other] == a.leases[other]
  {
    var l := a.leases[id];
    assert Orderly(l);
    if !l.settled {
      var events := Ending(l, id);
      var e := events[0];
      assert events[..0] == [];
      if !l.cleanup.Disposing? {
        ResumeTwo(a, e, events[1]);
        assert events == [e, events[1]];
      }
    }
  }

  lemma ResumeTwo(a: Activator, e: Event, f: Event)
    ensures Resume(a, [e, f]) == Next(Next(a, e), f)
  {
    hide Next;
    assert [e, f][..1] == [e];
    assert [e][..0] == [];
    assert Resume(a, [e]) == Next(Resume(a, []), e);
  }

  /** A settled lease leaves the active set, whoever else is in it. */
  lemma SettledLeasesLeave(a: Activator, id: LeaseId)
    requires id in a.leases && a.leases[id].settled
    ensures Next(a, Leaves(id)) == a.(active := a.active - {id})
  {
  }

  /** Shutdown: `stop` stops admission, and `drain` waits for what is active now, or returns. */
  lemma DrainsLook(a: Activator)
    ensures Next(a, Stops) == a.(stopped := true)
    ensures !a.drain.Waiting? ==> Next(a, Drains) == a.(drain := if a.active == {} then Returned else Waiting(a.active))
    ensures Woken(a) ==> Next(a, DrainWakes) == a.(drain := if a.active == {} then Returned else Waiting(a.active))
    ensures a.drain.Waiting? && !Woken(a) ==> Next(a, DrainWakes) == a && Next(a, Drains) == a
  {
  }
}
