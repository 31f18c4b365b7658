/**
 * The leases of an entry as the objects they are: one lease is referred to by the entry's set, by the routes under its
 * key, and by the closures and coroutines of whoever took it, and a release seen through one of them is seen by all.
 */
module LiveLeases {
  import opened Options
  import opened Machine = PostgreSQLObservationManager
  import Maps
  import Routing = ObservationRouting

  /** `heard` is what the session that took the lease was told through its callbacks. */
  class Lease {
    const id: LeaseId
    const table: Table
    var key: Option<Key>
    var released: bool
    var heard: seq<Kind>

    function Value(): Machine.Lease
      reads this`key, this`released
    {
      Machine.Lease(table, key, released)
    }

    constructor (id: LeaseId, table: Table)
      ensures this.id == id && Value() == Machine.Lease(table, None, false) && heard == []
    {
      this.id, this.table, key, released, heard := id, table, None, false, [];
    }
  }

  function Ids(s: seq<Lease>): (r: seq<LeaseId>)
    ensures |r| == |s| && forall i :: 0 <= i < |s| ==> r[i] == s[i].id
  {
    seq(|s|, i requires 0 <= i < |s| => s[i].id)
  }

  function IdsOf(s: set<Lease>): set<LeaseId> {
    set x | x in s :: x.id
  }

  ghost predicate Names(ids: seq<LeaseId>, xs: set<Lease>) {
    forall l :: l in ids <==> l in IdsOf(xs)
  }

  /** What one lease is told by a sequence of callbacks. */
  function Kinds(signals: seq<Signal>, l: LeaseId): seq<Kind> {
    if signals == [] then []
    else
      var last := |signals| - 1;
      Kinds(signals[..last], l) + if l in signals[last].leases then [signals[last].kind] else []
  }

  lemma KindsOn(signals: seq<Signal>, s: Signal, l: LeaseId)
    ensures Kinds(signals + [s], l) == Kinds(signals, l) + if l in s.leases then [s.kind] else []
  {
    assert (signals + [s])[..|signals|] == signals;
  }

  function Delete(s: seq<Lease>, x: Lease): (r: seq<Lease>)
    ensures forall i :: 0 <= i < |r| ==> r[i] in s && r[i] != x
  {
    if s == [] then [] else if s[0] == x then Delete(s[1..], x) else [s[0]] + Delete(s[1..], x)
  }

  /** The loop over a set of leases that calls one callback of each. */
  method TellEach(kind: Kind, xs: set<Lease>)
    modifies xs
    ensures forall x :: x in xs ==> x.heard == old(x.heard) + [kind] && x.key == old(x.key) && x.released == old(x.released)
  {
    var rest := xs;
    while rest != {}
      invariant rest <= xs
      invariant forall x :: x in xs ==> x.key == old(x.key) && x.released == old(x.released)
      invariant forall x :: x in xs ==> x.heard == if x in rest then old(x.heard) else old(x.heard) + [kind]
      decreases rest
    {
      var x :| x in rest;
      x.heard := x.heard + [kind];
      rest := rest - {x};
    }
  }

  class Leases {
    /** Every lease ever taken: whoever took it keeps it. */
    var taken: map<LeaseId, Lease>
    /** The entry's set, in the order of insertion. */
    var live: seq<Lease>
    var routing: map<Key, set<Lease>>
    var identities: map<Table, Identity>
    /** Every callback made so far. */
    ghost var history: seq<Signal>

    predicate Mine(x: Lease)
      reads this`taken
    {
      x.id in taken && taken[x.id] == x
    }

    /** Whatever refers to a lease refers to the one object that was taken under its id. */
    ghost predicate Shared()
      reads this`taken, this`live, this`routing
    {
      && (forall l :: l in taken ==> taken[l].id == l)
      && (forall i :: 0 <= i < |live| ==> Mine(live[i]))
      && (forall k, x :: k in routing && x in routing[k] ==> Mine(x))
    }

    /** Every lease heard what the history tells of it. */
    ghost predicate Told()
      reads this`taken, this`history, taken.Values`heard
    {
      && (forall l :: l in taken ==> taken[l].heard == Kinds(history, l))
      && (forall l :: l !in taken ==> Kinds(history, l) == [])
    }

    /** The set holds whoever was not released, once. */
    ghost predicate Current()
      reads this`taken, this`live, taken.Values`released
    {
      && (forall l :: l in taken ==> (taken[l] in live <==> !taken[l].released))
      && (forall i, j :: 0 <= i < j < |live| ==> live[i] != live[j])
    }

    ghost predicate Valid()
      reads this`taken, this`live, this`routing, this`history, taken.Values
    {
      Shared() && Told() && Current()
    }

    function Values(): map<LeaseId, Machine.Lease>
      reads this`taken, taken.Values`key, taken.Values`released
    {
      map l | l in taken :: taken[l].Value()
    }

    function Routes(): map<Key, set<LeaseId>>
      reads this`routing
    {
      map k | k in routing :: IdsOf(routing[k])
    }

    function Contents(): Index
      reads this, taken.Values
    {
      Index(Values(), Ids(live), identities, Routes())
    }

    constructor ()
      ensures Valid() && Contents() == Index(map[], [], map[], map[]) && history == [] && taken == map[]
    {
      taken, live, routing, identities, history := map[], [], map[], map[], [];
    }

    lemma IdsAreNames(x: Lease, s: set<Lease>)
      requires Shared() && Mine(x) && forall y :: y in s ==> Mine(y)
      ensures x.id in IdsOf(s) <==> x in s
      ensures IdsOf(s - {x}) == IdsOf(s) - {x.id}
    {
    }

    lemma {:induction false} DeleteRemoves(s: seq<Lease>, x: Lease)
      requires Shared() && Mine(x) && forall i :: 0 <= i < |s| ==> Mine(s[i])
      ensures Ids(Delete(s, x)) == Remove(Ids(s), x.id)
    {
      hide Shared;
      if s != [] {
        DeleteRemoves(s[1..], x);
        assert Ids(s)[1..] == Ids(s[1..]);
        assert Mine(s[0]);
        if s[0] != x { assert Ids(Delete(s, x)) == [s[0].id] + Ids(Delete(s[1..], x)); }
      }
    }

    lemma {:induction false} DeletesOnly(s: seq<Lease>, x: Lease)
      ensures forall i :: 0 <= i < |s| && s[i] != x ==> s[i] in Delete(s, x)
      ensures (forall i, j :: 0 <= i < j < |s| ==> s[i] != s[j]) ==>
                var r := Delete(s, x); forall i, j :: 0 <= i < j < |r| ==> r[i] != r[j]
    {
      if s != [] {
        DeletesOnly(s[1..], x);
        forall i | 0 <= i < |s| && s[i] != x ensures s[i] in Delete(s, x) {
          if i != 0 { assert s[i] == s[1..][i - 1]; }
        }
        assert s[0] in s[1..] || s[0] !in Delete(s[1..], x);
      }
    }

    /** `acquire`: a lease is a new object. */
    method Take(l: LeaseId, table: Table)
      requires Valid() && l !in taken
      modifies this`taken, this`live
      ensures Valid() && old(taken.Values) <= taken.Values && fresh(taken.Values - old(taken.Values))
      ensures Values() == old(Values())[l := Machine.Lease(table, None, false)]
      ensures Ids(live) == old(Ids(live)) + [l]
    {
      hide Kinds;
      var lease := new Lease(l, table);
      taken := taken[l := lease];
      live := live + [lease];
      Maps.ValuesAdded(old(taken), l, lease);
      TakenIsValid(lease);
      hide Valid;
    }

    twostate lemma TakenIsValid(new lease: Lease)
      requires old(Valid()) && lease.id !in old(taken) && fresh(lease) && lease.Value() == Machine.Lease(lease.table, None, false)
      requires lease.heard == [] && taken == old(taken)[lease.id := lease] && live == old(live) + [lease]
      requires routing == old(routing) && history == old(history) && forall l :: l in old(taken) ==> unchanged(old(taken)[l])
      ensures Valid()
    {
      hide Kinds;
      assert Shared() by {
        hide Told, Current;
        forall k, x | k in routing && x in routing[k] ensures Mine(x) { assert old(Mine(x)); }
        forall i | 0 <= i < |live| ensures Mine(live[i]) { assert i < |old(live)| ==> old(Mine(live[i])); }
      }
      assert Current() by {
        hide Told;
        forall m | m in taken ensures taken[m] in live <==> !taken[m].released {
          assert lease == live[|live| - 1];
          assert m != lease.id ==> (taken[m] in live <==> taken[m] in old(live));
        }
      }
    }

    method Admit(l: LeaseId, table: Table)
      requires Valid() && l !in taken
      modifies this`taken, this`live
      ensures Valid() && old(taken.Values) <= taken.Values && fresh(taken.Values - old(taken.Values))
      ensures var x := old(Contents());
              Contents() == x.(leases := x.leases[l := Machine.Lease(table, None, false)], members := x.members + [l])
    {
      hide Valid, Values, Ids;
      Take(l, table);
      hide Routes;
    }

    /** One lease changes; all others keep what they are. */
    twostate lemma OnlyOne(x: Lease)
      requires old(Valid()) && taken == old(taken) && Mine(x) && history == old(history)
      requires forall l :: l in taken && taken[l] != x ==> taken[l].key == old(taken[l].key) && taken[l].released == old(taken[l].released)
      ensures Values() == old(Values())[x.id := x.Value()]
    {
    }

    /** `routed?.delete(lease)`, and the route with it when it is empty. */
    method Unroute(x: Lease)
      requires Valid() && Mine(x)
      modifies this`routing
      ensures Valid() && Routes() == if x.key.None? then old(Routes()) else Machine.Unroute(old(Routes()), x.key.value, x.id)
    {
      if x.key.None? { return; }
      var key := x.key.value;
      if key in routing {
        IdsAreNames(x, routing[key]);
        var routed := routing[key] - {x};
        routing := if routed == {} then routing - {key} else routing[key := routed];
        assert routed == {} <==> IdsOf(routed) == {} by { if y :| y in routed { assert y.id in IdsOf(routed); } }
      }
    }

    /** Whether another lease still reads the table. */
    predicate Read(table: Table)
      reads this`live
    {
      exists i :: 0 <= i < |live| && live[i].table == table
    }

    lemma ReadExactly(table: Table)
      requires Valid()
      ensures Read(table) <==> exists o :: o in Ids(live) && o in Values() && Values()[o].table == table
    {
      if Read(table) {
        var i :| 0 <= i < |live| && live[i].table == table;
        assert Mine(live[i]) && Ids(live)[i] in Values() && Values()[Ids(live)[i]].table == table;
      }
      if o :| o in Ids(live) && o in Values() && Values()[o].table == table {
        var i :| 0 <= i < |live| && Ids(live)[i] == o;
        assert Mine(live[i]) && live[i].table == table;
      }
    }

    /** `lease.released = true`. */
    method Mark(x: Lease)
      requires Valid() && Mine(x)
      modifies x`released
      ensures Shared() && Told() && x.released
      ensures forall l :: l in taken && taken[l] != x ==> taken[l].released == old(taken[l].released)
      ensures Values() == old(Values())[x.id := Machine.Lease(x.table, x.key, true)]
    {
      x.released := true;
      OnlyOne(x);
    }

    /** `lease.released = true`, and out of the set. */
    method Leave(x: Lease)
      requires Valid() && Mine(x)
      modifies x`released, this`live
      ensures Valid() && x.key == old(x.key)
      ensures Values() == old(Values())[x.id := Machine.Lease(x.table, x.key, true)]
      ensures Ids(live) == Remove(old(Ids(live)), x.id)
    {
      hide Values, Kinds, Remove, Ids, Told;
      DeleteRemoves(live, x);
      DeletesOnly(live, x);
      Mark(x);
      ghost var was := live;
      live := Delete(live, x);
      assert Current() by {
        hide Shared;
        forall l | l in taken ensures taken[l] in live <==> !taken[l].released {
          assert taken[l] in live <==> taken[l] in was && taken[l] != x;
        }
      }
      hide Current;
    }

    /** A table nobody reads any more is forgotten. */
    method Forget(table: Table)
      requires Valid()
      modifies this`identities
      ensures identities == if exists o :: o in Ids(live) && o in Values() && Values()[o].table == table
                            then old(identities) else old(identities) - {table}
    {
      ReadExactly(table);
      if !Read(table) { identities := identities - {table}; }
    }

    /** Out of the set, out of the route under its key; the sets and maps, one by one. */
    method LeaveAll(x: Lease)
      requires Valid() && Mine(x)
      modifies x`released, this`live, this`routing, this`identities
      ensures Valid()
      ensures Values() == old(Values())[x.id := Machine.Lease(x.table, x.key, true)] && x.key == old(x.key)
      ensures Ids(live) == Remove(old(Ids(live)), x.id)
      ensures Routes() == if x.key.None? then old(Routes()) else Machine.Unroute(old(Routes()), x.key.value, x.id)
      ensures identities == if exists o :: o in Ids(live) && o in Values() && Values()[o].table == x.table
                            then old(identities) else old(identities) - {x.table}
    {
      hide Machine.Unroute, Remove, Values, Routes, Kinds, Ids, Mine, Valid;
      Leave(x);
      Unroute(x);
      Forget(x.table);
    }

    /** The release closure of a lease: all that refers to it sees it released, and the entry forgets it. */
    method Drop(x: Lease)
      requires Valid() && Mine(x)
      modifies x`released, this`live, this`routing, this`identities
      ensures Valid() && Contents() == Machine.Drop(old(Contents()), x.id)
    {
      ghost var was := Contents();
      assert x.id in was.leases && was.leases[x.id] == Machine.Lease(x.table, x.key, x.released);
      hide Machine.Unroute, Machine.Drop, Remove, Values, Routes, Valid, Kinds, Ids, Mine;
      LeaveAll(x);
      DroppedExactly(was, Contents(), x.id);
    }

    // ---- filing a validated lease ---------------------------------------------------------------

    method GiveKey(x: Lease, key: Key)
      requires Valid() && Mine(x)
      modifies x`key
      ensures Valid() && x.key == Some(key)
      ensures Values() == old(Values())[x.id := Machine.Lease(x.table, Some(key), x.released)]
    {
      x.key := Some(key);
      OnlyOne(x);
    }

    /** The route of a key is created with its first lease. */
    method Enter(x: Lease, key: Key)
      requires Valid() && Mine(x)
      modifies this`routing
      ensures Valid()
      ensures Routes() == var was := old(Routes()); was[key := (if key in was then was[key] else {}) + {x.id}]
    {
      ghost var was := Routes();
      var others := if key in routing then routing[key] else {};
      routing := routing[key := others + {x}];
      assert IdsOf(others) == if key in was then was[key] else {};
      assert Routes() == was[key := IdsOf(others + {x})];
      assert IdsOf(others + {x}) == IdsOf(others) + {x.id};
      assert Shared() by {
        forall k, y | k in routing && y in routing[k] ensures Mine(y) { assert y == x || old(Mine(y)); }
      }
      hide Kinds;
    }

    /** The key, the route and the identity, one by one. */
    method FileAll(x: Lease, identity: Identity)
      requires Valid() && Mine(x)
      modifies x`key, this`routing, this`identities
      ensures Valid() && identities == old(identities)[x.table := identity]
      ensures Values() == old(Values())[x.id := Machine.Lease(x.table, Some(identity.key), x.released)]
      ensures Routes() == var was := old(Routes()); was[identity.key := (if identity.key in was then was[identity.key] else {}) + {x.id}]
    {
      hide Values, Routes, Valid, Kinds, Ids, Mine;
      identities := identities[x.table := identity];
      KeepsValid();
      GiveKey(x, identity.key);
      Enter(x, identity.key);
    }

    /** A lease that passed its checks is filed under its table's key, and the table's identity is kept. */
    method File(x: Lease, identity: Identity)
      requires Valid() && Mine(x)
      modifies x`key, this`routing, this`identities
      ensures Valid() && Contents() == Machine.Route(old(Contents()), x.id, identity)
    {
      ghost var was := Contents();
      assert x.id in was.leases && was.leases[x.id] == Machine.Lease(x.table, x.key, x.released);
      hide Values, Routes, Valid, Kinds, Ids, Mine, Machine.Route;
      FileAll(x, identity);
      RoutedExactly(was, Contents(), x.id, identity);
    }

    /** What identities are kept is nobody else's business. */
    twostate lemma KeepsValid()
      requires old(Valid()) && taken == old(taken) && live == old(live) && routing == old(routing) && history == old(history)
      requires forall l :: l in taken ==> unchanged(taken[l])
      ensures Valid() && Values() == old(Values())
    {
    }

    /** `routing.clear(); identities.clear()`. */
    method Clear()
      requires Valid()
      modifies this`routing, this`identities
      ensures Valid() && Contents() == old(Contents()).(routing := map[], identities := map[])
    {
      routing, identities := map[], map[];
    }

    // ---- callbacks ------------------------------------------------------------------------------

    lemma NamesAll(ids: seq<LeaseId>, xs: set<Lease>)
      requires Names(ids, xs)
      ensures forall x :: x in xs ==> x.id in ids
    {
    }

    lemma NamesOnly(ids: seq<LeaseId>, xs: set<Lease>)
      requires Shared() && Names(ids, xs) && forall x :: x in xs ==> Mine(x)
      ensures forall l :: l in ids ==> l in taken && taken[l] in xs
    {
    }

    method Tell(kind: Kind, xs: set<Lease>)
      requires Valid()
      modifies xs
      ensures Shared() && Current() && Contents() == old(Contents())
      ensures forall l :: l in taken ==> taken[l].heard == old(taken[l].heard) + if taken[l] in xs then [kind] else []
    {
      hide Told, Kinds;
      TellEach(kind, xs);
    }

    method Record(kind: Kind, xs: set<Lease>, ghost told: seq<LeaseId>)
      requires Shared() && (forall x :: x in xs ==> Mine(x)) && Names(told, xs)
      requires forall l :: l in taken ==> taken[l].heard == Kinds(history, l) + if taken[l] in xs then [kind] else []
      requires forall l :: l !in taken ==> Kinds(history, l) == []
      modifies this`history
      ensures Told() && history == old(history) + [Signal(kind, told)]
    {
      hide Kinds, IdsOf, Current;
      NamesAll(told, xs);
      NamesOnly(told, xs);
      forall l ensures Kinds(history + [Signal(kind, told)], l) == Kinds(history, l) + if l in told then [kind] else [] {
        KindsOn(history, Signal(kind, told), l);
      }
      hide Names, Shared, Mine;
      history := history + [Signal(kind, told)];
    }

    /** One callback for each of these leases, in whatever order; the history tells of it once. */
    method Call(kind: Kind, xs: set<Lease>, ghost told: seq<LeaseId>)
      requires Valid() && (forall x :: x in xs ==> Mine(x)) && Names(told, xs)
      modifies xs, this`history
      ensures Valid() && history == old(history) + [Signal(kind, told)] && Contents() == old(Contents())
    {
      hide Kinds, Values, Routes, IdsOf, Ids, Names;
      Tell(kind, xs);
      Record(kind, xs, told);
    }

    /** `onNotification`: every lease filed under the key that was not released is told. */
    method Notify(key: Key)
      requires Valid() && key in routing && Routing.Routes(Contents())
      modifies taken.Values, this`history
      ensures Valid() && Contents() == old(Contents())
      ensures history == old(history) + [Signal(Invalidate, Reached(Contents().members, Contents().routing[key]))]
    {
      var xs := set x | x in routing[key] && !x.released;
      ghost var told := Reached(Contents().members, Contents().routing[key]);
      assert Names(told, xs) by { forall l ensures l in told <==> l in IdsOf(xs) { RoutedAreHeld(key, l); } }
      assert forall x :: x in xs ==> Mine(x) && x in taken.Values;
      Call(Invalidate, xs, told);
    }

    lemma RoutedAreHeld(key: Key, l: LeaseId)
      requires Valid() && key in routing && Routing.Routes(Contents())
      ensures l in Reached(Contents().members, Contents().routing[key]) <==> l in IdsOf(set x | x in routing[key] && !x.released)
    {
      hide Told, Kinds;
      if x :| x in routing[key] && x.id == l {
        assert Mine(x) && l in Contents().routing[key] && l in Contents().members;
        var i :| 0 <= i < |live| && Ids(live)[i] == l;
        assert Mine(live[i]) && live[i] == x;
      }
    }

    /** Every validated lease that is held is asked to catch up. */
    method CatchUp()
      requires Valid()
      modifies taken.Values, this`history
      ensures Valid() && Contents() == old(Contents())
      ensures history == old(history) + [Signal(Kind.CatchUp, Keyed(Contents(), Contents().members))]
    {
      var xs := set x | x in live && !x.released && x.key.Some?;
      ghost var told := Keyed(Contents(), Contents().members);
      assert Names(told, xs) by { forall l ensures l in told <==> l in IdsOf(xs) { KeyedAreAsked(l); } }
      assert forall x :: x in xs ==> Mine(x);
      Call(Kind.CatchUp, xs, told);
    }

    lemma KeyedAreAsked(l: LeaseId)
      requires Valid()
      ensures l in Keyed(Contents(), Contents().members) <==> l in IdsOf(set x | x in live && !x.released && x.key.Some?)
    {
      hide Told, Kinds;
      if l in Contents().members {
        var i :| 0 <= i < |live| && Ids(live)[i] == l;
        assert Mine(live[i]) && Contents().leases[l] == live[i].Value();
      }
    }

    lemma IdsAreDistinct()
      requires Valid()
      ensures Routing.Distinct(Ids(live))
    {
      hide Told, Kinds;
      forall i, j | 0 <= i < j < |live| ensures live[i].id != live[j].id { assert Mine(live[i]) && Mine(live[j]); }
    }

    /** Whoever was told of the end releases its lease. */
    method LeaveEverybody()
      requires Valid()
      modifies live, this`live
      ensures Valid() && live == [] && Values() == ReleasedAmong(old(Values()), old(Ids(live)))
    {
      var all := live;
      ghost var ids, was := Ids(live), Values();
      IdsAreDistinct();
      ReleasedNobody(was);
      assert ids[..0] == [] && ids[0..] == ids;
      for i := 0 to |all|
        invariant Valid() && Ids(live) == ids[i..] && Values() == ReleasedAmong(was, ids[..i])
      {
        hide Values, Kinds, Told, Current, ReleasedAmong;
        RemoveFirst(ids[i..]);
        assert Mine(all[i]);
        LeaveKnown(all[i], was, ids, i);
      }
      assert ids[..|all|] == ids;
      hide Values, ReleasedAmong;
    }

    method LeaveKnown(x: Lease, ghost was: map<LeaseId, Machine.Lease>, ghost ids: seq<LeaseId>, ghost i: nat)
      requires Valid() && Mine(x) && i < |ids| && ids[i] == x.id && Values() == ReleasedAmong(was, ids[..i])
      modifies x, this`live
      ensures Valid() && Ids(live) == Remove(old(Ids(live)), x.id) && Values() == ReleasedAmong(was, ids[..i + 1])
    {
      assert x.id in Values() && Values()[x.id] == x.Value();
      hide Values, Kinds, Told, Current, Ids, Remove, Valid;
      ReleasedNext(was, ids, i);
      hide ReleasedAmong;
      Leave(x);
    }

    /** The end: everybody who is held is told, and whoever was told releases its lease. */
    method EndAll(kind: Kind)
      requires Valid()
      modifies taken.Values, this`live, this`routing, this`identities, this`history
      ensures Valid() && Contents() == ReleaseAll(old(Contents()))
      ensures history == old(history) + [Signal(kind, old(Ids(live)))]
    {
      var everybody := set x | x in live;
      ghost var ids, was := Ids(live), Contents();
      assert Names(ids, everybody);
      assert forall x :: x in everybody ==> Mine(x);
      assert ReleaseAll(was) == Index(ReleasedAmong(was.leases, was.members), [], map[], map[]);
      hide Values, Kinds, Valid, ReleaseAll, ReleasedAmong, Names, IdsOf;
      Clear();
      Call(kind, everybody, ids);
      LeaveEverybody();
    }
  }

  function ReleasedAmong(leases: map<LeaseId, Machine.Lease>, ids: seq<LeaseId>): map<LeaseId, Machine.Lease> {
    map l | l in leases :: if l in ids then leases[l].(released := true) else leases[l]
  }

  lemma ReleasedNobody(leases: map<LeaseId, Machine.Lease>)
    ensures ReleasedAmong(leases, []) == leases
  {
  }

  lemma ReleasedNext(leases: map<LeaseId, Machine.Lease>, ids: seq<LeaseId>, i: nat)
    requires i < |ids| && ids[i] in leases
    ensures var before, after := ReleasedAmong(leases, ids[..i]), ReleasedAmong(leases, ids[..i + 1]);
            after == before[ids[i] := before[ids[i]].(released := true)]
  {
    assert ids[..i + 1] == ids[..i] + [ids[i]];
  }

  lemma {:induction false} RemoveAbsent(s: seq<LeaseId>, l: LeaseId)
    requires l !in s
    ensures Remove(s, l) == s
  {
    if s != [] { RemoveAbsent(s[1..], l); }
  }

  lemma RemoveFirst(s: seq<LeaseId>)
    requires s != [] && Routing.Distinct(s)
    ensures Remove(s, s[0]) == s[1..]
  {
    RemoveAbsent(s[1..], s[0]);
  }

  lemma RoutedExactly(x: Index, y: Index, l: LeaseId, identity: Identity)
    requires l in x.leases && y.leases == x.leases[l := x.leases[l].(key := Some(identity.key))] && y.members == x.members
    requires y.identities == x.identities[x.leases[l].table := identity]
    requires y.routing == x.routing[identity.key := (if identity.key in x.routing then x.routing[identity.key] else {}) + {l}]
    ensures y == Machine.Route(x, l, identity)
  {
  }

  lemma DroppedExactly(x: Index, y: Index, l: LeaseId)
    requires l in x.leases && y.leases == x.leases[l := x.leases[l].(released := true)]
    requires y.members == Remove(x.members, l)
    requires y.routing == if x.leases[l].key.None? then x.routing else Machine.Unroute(x.routing, x.leases[l].key.value, l)
    requires y.identities == if exists o :: o in y.members && o in y.leases && y.leases[o].table == x.leases[l].table
                             then x.identities else x.identities - {x.leases[l].table}
    ensures y == Machine.Drop(x, l)
  {
  }
}
