/** Marking a read model and everything it holds as released (Source/Chronicle/kernelReleasedReadModels.ts). */
module KernelReleasedReadModels {
  import opened Graphs

  type Object = nat

  /** A property value: nothing to mark, or an object. */
  datatype Value = Plain | Ref(target: Object)

  /** An object of the heap: a view on binary data, or something with own enumerable properties (or array elements). */
  datatype Content = View | Properties(values: seq<Value>)
  type Heap = map<Object, Content>

  /** Every reference leads to an object of the heap. */
  predicate Closed(h: Heap) {
    forall o, i :: o in h && h[o].Properties? && 0 <= i < |h[o].values| && h[o].values[i].Ref? ==> h[o].values[i].target in h
  }

  /** The objects a value may mark. */
  predicate Marks(h: Heap, v: Value) {
    v.Ref? && v.target in h && h[v.target].Properties?
  }

  function Children(h: Heap, o: Object): set<Object>
    requires o in h && h[o].Properties?
  {
    set i | 0 <= i < |h[o].values| && Marks(h, h[o].values[i]) :: h[o].values[i].target
  }

  /** The child relation between objects that can be marked. */
  function ChildGraph(h: Heap): Graph {
    map o | o in h && h[o].Properties? :: Children(h, o)
  }

  /** The same, without going through objects that were marked before. */
  function Unmarked(h: Heap, before: set<Object>): Graph {
    map o | o in h && h[o].Properties? && o !in before :: Children(h, o)
  }

  /** A child is what a property value or an array element refers to, if that has properties or elements of its own. */
  lemma HeldObjectsAreChildren(h: Heap, before: set<Object>, a: Object, b: Object)
    ensures Edge(ChildGraph(h), a, b) <==>
            a in h && h[a].Properties? && Ref(b) in h[a].values && b in h && h[b].Properties?
    ensures Edge(Unmarked(h, before), a, b) <==> Edge(ChildGraph(h), a, b) && a !in before
  {
  }

  class ReleasedReadModels {
    var released: set<Object>

    /** `markKernelReleased`: a worklist that marks what it pops, and pushes what that holds. */
    method MarkKernelReleased(h: Heap, model: Value)
      requires Closed(h) && (model.Ref? ==> model.target in h)
      modifies this
      ensures forall o :: o in released <==>
                          o in old(released) || (Marks(h, model) && o in h && Reachable(Unmarked(h, old(released)), model.target, o))
    {
      ghost var before := released;
      ghost var g := Unmarked(h, before);
      var pending := [model];
      if model.Ref? { ReachesItself(g, model.target); }
      while pending != []
        invariant before <= released
        invariant forall v :: v in pending && v.Ref? ==> v.target in h
        invariant forall v :: v in pending && Marks(h, v) ==> Marks(h, model) && Reachable(g, model.target, v.target)
        invariant forall o :: o in released - before ==> o in h && Marks(h, model) && Reachable(g, model.target, o)
        invariant forall a, b :: a in released - before && Edge(g, a, b) ==> b in released || Ref(b) in pending
        invariant Marks(h, model) ==> model.target in released || model in pending
        decreases h.Keys - released, |pending|
      {
        var value := pending[|pending| - 1];
        ghost var waiting := pending;
        pending := pending[..|pending| - 1];
        assert forall v :: v in waiting <==> v in pending || v == value;
        if value.Ref? && value.target !in released && h[value.target].Properties? {
          released := released + {value.target};
          var properties := h[value.target].values;
          assert Marks(h, value);
          PushedAreReachable(h, before, model, value.target);
          for i := 0 to |properties|
            invariant pending == waiting[..|waiting| - 1] + properties[..i]
          {
            pending := pending + [properties[i]];
          }
        }
      }
      forall o | o in h && Marks(h, model) && Reachable(g, model.target, o) ensures o in released {
        ReachedIsMarked(h, before, released, model.target, o);
      }
    }
  }

  lemma PushedAreReachable(h: Heap, before: set<Object>, model: Value, o: Object)
    requires Closed(h) && Marks(h, model) && o in h && h[o].Properties? && o !in before
    requires Reachable(Unmarked(h, before), model.target, o)
    ensures forall v :: v in h[o].values && Marks(h, v) ==> Reachable(Unmarked(h, before), model.target, v.target)
  {
    forall v | v in h[o].values && Marks(h, v) ensures Reachable(Unmarked(h, before), model.target, v.target) {
      ReachesOn(Unmarked(h, before), model.target, o, v.target);
    }
  }

  lemma ReachedIsMarked(h: Heap, before: set<Object>, after: set<Object>, start: Object, o: Object)
    requires start in after && Reachable(Unmarked(h, before), start, o)
    requires forall a, b :: a in after - before && Edge(Unmarked(h, before), a, b) ==> b in after
    ensures o in after
  {
    assert Leads(Unmarked(h, before), after, after);
    ClosedHolds(Unmarked(h, before), after, start, o);
  }

  /** What `MarkKernelReleased` makes of the set. */
  ghost predicate Marked(h: Heap, before: set<Object>, after: set<Object>, model: Object) {
    forall o :: o in after <==> o in before || (o in h && Reachable(Unmarked(h, before), model, o))
  }

  lemma {:induction false} UnmarkedIsChild(h: Heap, before: set<Object>, start: Object, o: Object)
    requires Reachable(Unmarked(h, before), start, o)
    ensures Reachable(ChildGraph(h), start, o)
  {
    var p :| Path(Unmarked(h, before), p) && p[0] == start && p[|p| - 1] == o;
    forall i | 0 <= i < |p| - 1 ensures Edge(ChildGraph(h), p[i], p[i + 1]) {
      assert Edge(Unmarked(h, before), p[i], p[i + 1]);
    }
    assert Path(ChildGraph(h), p);
  }

  lemma {:induction false} ReachesObjects(h: Heap, start: Object, o: Object)
    requires start in h && Reachable(ChildGraph(h), start, o)
    ensures o in h
  {
    assert Leads(ChildGraph(h), h.Keys, h.Keys);
    ClosedHolds(ChildGraph(h), h.Keys, start, o);
  }

  /**
   * What a marked object that the model reaches still holds is marked, too, or reached on a way that avoids marked
   * objects: a caller can check it before the call.
   */
  ghost predicate Covered(h: Heap, before: set<Object>, model: Object) {
    forall a, b :: a in before && Reachable(ChildGraph(h), model, a) && Edge(ChildGraph(h), a, b) ==>
      b in before || Reachable(Unmarked(h, before), model, b)
  }

  /** Along any path from the model, everything is marked already or reached on a way of its own. */
  lemma {:induction false} CoveredPathOrMarked(h: Heap, before: set<Object>, start: Object, o: Object)
    requires Covered(h, before, start) && Reachable(ChildGraph(h), start, o)
    ensures o in before || Reachable(Unmarked(h, before), start, o)
  {
    var g := ChildGraph(h);
    var p :| Path(g, p) && p[0] == start && p[|p| - 1] == o;
    ReachesItself(Unmarked(h, before), start);
    ReachesItself(g, start);
    for i := 0 to |p| - 1
      invariant Reachable(g, start, p[i])
      invariant p[i] in before || Reachable(Unmarked(h, before), start, p[i])
    {
      assert Edge(g, p[i], p[i + 1]);
      ReachesOn(g, start, p[i], p[i + 1]);
      if p[i] !in before { ReachesOn(Unmarked(h, before), start, p[i], p[i + 1]); }
    }
  }

  /**
   * Marking skips what is marked, and so it releases everything the model reaches exactly when the objects that were
   * marked before hide nothing. A closed set, which only marking unchanging objects leaves, hides nothing.
   */
  lemma MarkingReachesEverythingExactly(h: Heap, before: set<Object>, after: set<Object>, model: Object)
    requires model in h && Marked(h, before, after, model)
    ensures (forall o :: Reachable(ChildGraph(h), model, o) ==> o in after) <==> Covered(h, before, model)
    ensures Leads(ChildGraph(h), before, before) ==> Covered(h, before, model)
  {
    if Covered(h, before, model) {
      forall o | Reachable(ChildGraph(h), model, o) ensures o in after {
        CoveredPathOrMarked(h, before, model, o);
        ReachesObjects(h, model, o);
      }
    }
    if forall o :: Reachable(ChildGraph(h), model, o) ==> o in after {
      forall a, b | a in before && Reachable(ChildGraph(h), model, a) && Edge(ChildGraph(h), a, b)
        ensures b in before || Reachable(Unmarked(h, before), model, b)
      {
        ReachesOn(ChildGraph(h), model, a, b);
      }
    }
  }

  /**
   * When the released set is closed under the child relation, marking a model keeps it closed, releases everything that
   * can be reached from the model, and adds nothing else.
   */
  lemma MarkingCloses(h: Heap, before: set<Object>, after: set<Object>, model: Object)
    requires model in h && Marked(h, before, after, model)
    requires Leads(ChildGraph(h), before, before)
    ensures Leads(ChildGraph(h), after, after)
    ensures forall o :: Reachable(ChildGraph(h), model, o) ==> o in after
    ensures forall o :: o in after - before ==> Reachable(ChildGraph(h), model, o)
  {
    MarkingReachesEverythingExactly(h, before, after, model);
    forall o | o in after - before ensures Reachable(ChildGraph(h), model, o) {
      UnmarkedIsChild(h, before, model, o);
    }
    forall a, b | a in after && Edge(ChildGraph(h), a, b) ensures b in after {
      if a !in before { ReachesOn(ChildGraph(h), model, a, b); }
    }
  }

  /** A model that holds an object which holds nothing yet, and the same once that object was given a child. */
  function Early(): Heap {
    map[0 := Properties([Ref(1)]), 1 := Properties([]), 2 := Properties([])]
  }

  function Grown(): Heap {
    Early()[1 := Properties([Ref(2)])]
  }

  /** An object that is given a child after it was marked hides that child from the next marking. */
  lemma GrownObjectsHideTheirChildren(first: set<Object>, second: set<Object>)
    requires Marked(Early(), {}, first, 1) && Marked(Grown(), first, second, 0)
    ensures Reachable(ChildGraph(Grown()), 0, 2) && 2 !in second
  {
    var e, h := Early(), Grown();
    forall o | Reachable(Unmarked(e, {}), 1, o) ensures o == 1 {
      assert Leads(Unmarked(e, {}), {1}, {1});
      ClosedHolds(Unmarked(e, {}), {1}, 1, o);
    }
    ReachesItself(Unmarked(e, {}), 1);
    assert first == {1};
    assert Marks(h, h[0].values[0]) && Marks(h, h[1].values[0]);
    assert Edge(ChildGraph(h), 0, 1) && Edge(ChildGraph(h), 1, 2);
    assert Path(ChildGraph(h), [0, 1, 2]) && [0, 1, 2][2] == 2;
    var g := Unmarked(h, {1});
    assert Leads(g, {0, 1}, {0, 1}) by {
      forall a, b | a in {0, 1} && Edge(g, a, b) ensures b in {0, 1} { assert a == 0; }
    }
    if Reachable(g, 0, 2) { ClosedHolds(g, {0, 1}, 0, 2); }
  }
}
