/** The routing index agrees with the lease set: what every operation on leases, identities and routes keeps. */
module ObservationRouting {
  import opened Options
  import opened PostgreSQLObservationManager

  /** `leases` records every lease ever taken; `members` is the entry's live set. */
  ghost predicate Membership(x: Index) {
    && Distinct(x.members)
    && forall l :: l in x.members <==> l in x.leases && !x.leases[l].released
  }

  ghost predicate Distinct(s: seq<LeaseId>) {
    forall i, j :: 0 <= i < j < |s| ==> s[i] != s[j]
  }

  lemma {:induction false} RemoveIsDistinct(s: seq<LeaseId>, l: LeaseId)
    requires Distinct(s)
    ensures Distinct(Remove(s, l))
  {
    if s != [] {
      RemoveIsDistinct(s[1..], l);
      assert s[0] !in s[1..];
    }
  }

  /** No route is empty, and every routed lease is held and was validated for exactly that key. */
  ghost predicate Routes(x: Index) {
    forall k :: k in x.routing ==>
      x.routing[k] != {} && forall l :: l in x.routing[k] ==> l in x.members && l in x.leases && x.leases[l].key == Some(k)
  }

  /** Every held lease that was validated is routed under its key, which is the key of its table's identity. */
  ghost predicate Filed(x: Index) {
    forall l :: l in x.members && l in x.leases && x.leases[l].key.Some? ==>
      var k := x.leases[l].key.value;
      && k in x.routing && l in x.routing[k]
      && x.leases[l].table in x.identities && x.identities[x.leases[l].table].key == k
  }

  /** An identity is kept only for a table some live lease reads. */
  ghost predicate Needed(x: Index) {
    forall table :: table in x.identities ==>
      exists l :: l in x.members && l in x.leases && x.leases[l].table == table
  }

  ghost predicate Valid(x: Index) {
    Membership(x) && Routes(x) && Filed(x) && Needed(x)
  }

  /** A lease leaves no trace: it is in no route, every other one is where it was, and its table goes with its last lease. */
  lemma DropKeeps(x: Index, l: LeaseId)
    requires Valid(x) && l in x.leases
    ensures Valid(Drop(x, l))
    ensures var y := Drop(x, l);
            && l !in y.members && (forall k :: k in y.routing ==> l !in y.routing[k])
            && (forall o :: o != l ==>
                  (o in y.members <==> o in x.members)
                  && forall k :: k in x.routing && o in x.routing[k] <==> k in y.routing && o in y.routing[k])
            && (forall table :: table in y.identities <==>
                  table in x.identities && exists o :: o in y.members && o in x.leases && x.leases[o].table == table)
  {
    RemoveIsDistinct(x.members, l);
    var y := Drop(x, l);
    var lease := x.leases[l];
    assert Membership(y);
    if lease.key.Some? { UnrouteKeeps(x, l); }
    assert Routes(y);
    DropFiles(x, l);
    forall table | table in y.identities
      ensures exists o :: o in y.members && o in y.leases && y.leases[o].table == table
    {
      var o :| o in x.members && o in x.leases && x.leases[o].table == table;
      if o == l {
        var other :| other in y.members && other in x.leases && x.leases[other].table == table;
        assert other in y.leases && y.leases[other].table == table;
      } else {
        assert o in y.members && o in y.leases && y.leases[o].table == table;
      }
    }
  }

  lemma UnrouteKeeps(x: Index, l: LeaseId)
    requires Valid(x) && l in x.leases && x.leases[l].key.Some?
    ensures var r := Unroute(x.routing, x.leases[l].key.value, l);
            forall k :: k in r ==> k in x.routing && r[k] != {} && r[k] == x.routing[k] - {l}
    ensures var r := Unroute(x.routing, x.leases[l].key.value, l);
            forall k :: k in x.routing && x.routing[k] - {l} != {} ==> k in r
  {
    hide Distinct;
    var key := x.leases[l].key.value;
    forall k | k in x.routing && k != key ensures x.routing[k] - {l} == x.routing[k] {
      assert l !in x.routing[k];
    }
  }

  lemma DropFiles(x: Index, l: LeaseId)
    requires Valid(x) && l in x.leases
    ensures Filed(Drop(x, l))
  {
    hide Distinct;
    var y := Drop(x, l);
    if x.leases[l].key.Some? { UnrouteKeeps(x, l); }
    forall o | o in y.members && o in y.leases && y.leases[o].key.Some?
      ensures var k := y.leases[o].key.value;
              && k in y.routing && o in y.routing[k]
              && y.leases[o].table in y.identities && y.identities[y.leases[o].table].key == k
    {
      assert o != l && o in x.members && x.leases[o] == y.leases[o];
      var k := x.leases[o].key.value;
      assert o in x.routing[k] - {l};
    }
  }

  lemma RouteNeeds(x: Index, l: LeaseId, identity: Identity)
    requires Valid(x) && l in x.members && l in x.leases
    ensures Needed(Route(x, l, identity))
  {
    hide Membership, Routes, Filed;
    var y := Route(x, l, identity);
    assert l in y.leases && y.leases[l].table == x.leases[l].table;
    forall other | other in x.identities
      ensures exists o :: o in y.members && o in y.leases && y.leases[o].table == other
    {
      var o :| o in x.members && o in x.leases && x.leases[o].table == other;
      assert o in y.members && o in y.leases && y.leases[o].table == other;
    }
  }

  lemma RouteFiles(x: Index, l: LeaseId, identity: Identity)
    requires Filed(x) && l in x.members && l in x.leases && !Conflicts(x, l, identity)
    ensures Filed(Route(x, l, identity))
  {
    var y := Route(x, l, identity);
    forall o | o in y.members && o in y.leases && y.leases[o].key.Some?
      ensures var k := y.leases[o].key.value;
              && k in y.routing && o in y.routing[k]
              && y.leases[o].table in y.identities && y.identities[y.leases[o].table].key == k
    {
      if o != l { assert x.leases[o] == y.leases[o]; }
    }
  }

  /** The first validation of a held lease, against an identity no other lease of its table contradicts. */
  lemma RouteKeeps(x: Index, l: LeaseId, identity: Identity)
    requires Valid(x) && l in x.members && l in x.leases && x.leases[l].key.None?
    requires !Conflicts(x, l, identity)
    ensures Valid(Route(x, l, identity))
    ensures identity.key in Route(x, l, identity).routing && l in Route(x, l, identity).routing[identity.key]
  {
    hide Distinct, Needed, Filed, Routes, Membership, Conflicts;
    RouteNeeds(x, l, identity);
    RouteFiles(x, l, identity);
    RouteRoutes(x, l, identity);
  }

  lemma RouteRoutes(x: Index, l: LeaseId, identity: Identity)
    requires Membership(x) && Routes(x) && l in x.members && l in x.leases && x.leases[l].key.None?
    ensures Membership(Route(x, l, identity)) && Routes(Route(x, l, identity))
    ensures identity.key in Route(x, l, identity).routing && l in Route(x, l, identity).routing[identity.key]
  {
    hide Distinct;
  }

  /** A revalidated lease refreshes its table's identity under the same key. */
  lemma RefreshKeeps(x: Index, l: LeaseId, identity: Identity)
    requires Valid(x) && l in x.members && l in x.leases && x.leases[l].key == Some(identity.key)
    ensures Valid(x.(identities := x.identities[x.leases[l].table := identity]))
  {
    hide Distinct;
  }

  /** Nothing is held or routed any more, whoever was held was released, and nobody else was touched. */
  lemma ReleaseAllKeeps(x: Index)
    requires Valid(x)
    ensures Valid(ReleaseAll(x))
    ensures var y := ReleaseAll(x);
            && y.members == [] && y.routing == map[] && y.identities == map[] && y.leases.Keys == x.leases.Keys
            && (forall l :: l in x.leases ==> y.leases[l].released && (x.leases[l].released ==> y.leases[l] == x.leases[l]))
  {
  }

  lemma AcquireKeeps(x: Index, l: LeaseId, table: Table)
    requires Valid(x) && l !in x.leases
    ensures Valid(x.(leases := x.leases[l := Lease(table, None, false)], members := x.members + [l]))
  {
    var y := x.(leases := x.leases[l := Lease(table, None, false)], members := x.members + [l]);
    forall t | t in y.identities ensures exists o :: o in y.members && o in y.leases && y.leases[o].table == t {
      var o :| o in x.members && o in x.leases && x.leases[o].table == t;
      assert o in y.members && o in y.leases && y.leases[o].table == t;
    }
    assert Routes(y);
    forall o | o in y.members && o in y.leases && y.leases[o].key.Some?
      ensures var k := y.leases[o].key.value;
              && k in y.routing && o in y.routing[k]
              && y.leases[o].table in y.identities && y.identities[y.leases[o].table].key == k
    {
      assert o != l && o in x.members && x.leases[o] == y.leases[o];
    }
  }

  /** A notification for a key reaches exactly the held leases that were validated for it. */
  lemma ReachesExactly(x: Index, key: Key, l: LeaseId)
    requires Valid(x) && key in x.routing
    ensures l in Reached(x.members, x.routing[key]) <==> l in x.leases && !x.leases[l].released && x.leases[l].key == Some(key)
  {
  }
}
