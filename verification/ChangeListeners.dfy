/**
 * The nested listener maps of the change bus (Source/Drizzle/DrizzleChangeNotifications.ts:49-68). Maps and sets are
 * objects: a release handle keeps the ones its listener was filed in, even after the bus has let go of them.
 */
module ChangeListeners {
  import opened Options

  /** A tenant's map of tables, and a table's set of listeners, are known by reference. */
  datatype Slot = Slot(tables: nat, table: nat)

  datatype Handle = Handle(tenant: nat, table: nat, listener: nat, tables: nat, listeners: nat)
  {
    function At(): Slot {
      Slot(tables, table)
    }
  }

  /**
   * `tenants` is the outer map, `entries` the contents of all inner maps, `sets` the contents of all sets, whether the
   * bus still holds them or only a handle does. `given` and `live` are history: every handle that was
   * ever handed out, and those that were not released yet.
   */
  datatype Index = Index(tenants: map<nat, nat>, entries: map<Slot, nat>, sets: map<nat, set<nat>>, refs: nat,
                         given: set<Handle>, live: set<Handle>)

  function Empty(): Index {
    Index(map[], map[], map[], 0, {}, {})
  }

  // ---- listen and release -----------------------------------------------------------------------

  /** The tenant's map of tables, created when it has none. */
  function WithTenant(x: Index, tenant: nat): (r: Index)
    ensures tenant in r.tenants
  {
    if tenant in x.tenants then x else x.(tenants := x.tenants[tenant := x.refs], refs := x.refs + 1)
  }

  /** The table's set of listeners, created when it has none. */
  function WithTable(x: Index, at: Slot): (r: Index)
    ensures at in r.entries && r.tenants == x.tenants
  {
    if at in x.entries then x else
      x.(entries := x.entries[at := x.refs], sets := x.sets[x.refs := {}], refs := x.refs + 1)
  }

  function Members(sets: map<nat, set<nat>>, s: nat): set<nat> {
    if s in sets then sets[s] else {}
  }

  /** File a listener in its set. */
  function File(x: Index, h: Handle): Index {
    x.(sets := x.sets[h.listeners := Members(x.sets, h.listeners) + {h.listener}],
    given := x.given + {h}, live := x.live + {h})
  }

  /** The maps and the set a listener will be filed in exist. */
  function Prepare(x: Index, tenant: nat, table: nat): Index {
    var x1 := WithTenant(x, tenant);
    WithTable(x1, Slot(x1.tenants[tenant], table))
  }

  /** The release handle of a listener, filed where `Prepare` says. */
  function HandleFor(x: Index, tenant: nat, table: nat, listener: nat): Handle {
    var x2 := Prepare(x, tenant, table);
    Handle(tenant, table, listener, x2.tenants[tenant], x2.entries[Slot(x2.tenants[tenant], table)])
  }

  function Listen(x: Index, tenant: nat, table: nat, listener: nat): Index {
    File(Prepare(x, tenant, table), HandleFor(x, tenant, table, listener))
  }

  predicate HoldsTables(entries: map<Slot, nat>, tables: nat) {
    exists at :: at in entries && at.tables == tables
  }

  /** The handle's closure: it works on the set and the map it was given, whatever the bus holds now. */
  function Withdraw(x: Index, h: Handle): Index {
    var sets := x.sets[h.listeners := Members(x.sets, h.listeners) - {h.listener}];
    var entries := if sets[h.listeners] == {} then x.entries - {h.At()} else x.entries;
    x.(sets := sets, entries := entries,
    tenants := if HoldsTables(entries, h.tables) then x.tenants else x.tenants - {h.tenant})
  }

  function Release(x: Index, h: Handle): Index {
    Withdraw(x, h).(live := x.live - {h})
  }

  /** Who hears of a table's changes. */
  function Registered(x: Index, tenant: nat, table: nat): set<nat> {
    if tenant in x.tenants && Slot(x.tenants[tenant], table) in x.entries
    then Members(x.sets, x.entries[Slot(x.tenants[tenant], table)]) else {}
  }

  // ---- the index and the live handles agree -----------------------------------------------------

  /** Every live handle leads, through the bus, to its listener. */
  ghost predicate Filed(x: Index) {
    x.live <= x.given &&
    forall h :: h in x.live ==>
      && h.tenant in x.tenants && x.tenants[h.tenant] == h.tables
      && h.At() in x.entries && x.entries[h.At()] == h.listeners
      && h.listener in Members(x.sets, h.listeners)
  }

  predicate HasTenant(live: set<Handle>, t: nat) {
    exists k :: k in live && k.tenant == t
  }

  predicate HasEntry(live: set<Handle>, a: Slot) {
    exists k :: k in live && k.At() == a
  }

  /** A listener in a set has a live handle. */
  ghost predicate Owned(live: set<Handle>, sets: map<nat, set<nat>>) {
    forall s, l :: l in Members(sets, s) ==> exists h :: h in live && h.listeners == s && h.listener == l
  }

  /** The bus holds nothing but what some live handle needs: no empty map, no empty set, no forgotten listener. */
  ghost predicate Needed(x: Index) {
    && (forall t :: t in x.tenants ==> HasTenant(x.live, t))
    && (forall a :: a in x.entries ==> HasEntry(x.live, a))
    && Owned(x.live, x.sets)
  }

  /** Tenants do not share maps, tables do not share sets, and listeners are distinct functions. */
  ghost predicate Apart(given: set<Handle>, refs: nat) {
    && (forall h :: h in given ==> h.tables < refs && h.listeners < refs)
    && (forall h, k :: h in given && k in given && h.tables == k.tables ==> h.tenant == k.tenant)
    && (forall h, k :: h in given && k in given && h.listeners == k.listeners ==> h.At() == k.At())
    && (forall h, k :: h in given && k in given && h.listener == k.listener ==> h == k)
  }

  ghost predicate Inv(x: Index) {
    Filed(x) && Needed(x) && Apart(x.given, x.refs)
  }

  /** The function is not in use yet. */
  predicate New(x: Index, listener: nat) {
    forall h :: h in x.given ==> h.listener != listener
  }

  // ---- listen -----------------------------------------------------------------------------------

  /** A map that is filed under a tenant belongs to that tenant only; a new one to nobody. */
  lemma TenantPrepared(x: Index, tenant: nat)
    requires Filed(x) && Apart(x.given, x.refs)
    requires tenant in x.tenants ==> HasTenant(x.live, tenant)
    ensures var y := WithTenant(x, tenant);
            && Filed(y) && Apart(y.given, y.refs) && y.live == x.live && y.given == x.given && y.sets == x.sets && y.entries == x.entries
            && (forall h :: h in x.given && h.tables == y.tenants[tenant] ==> h.tenant == tenant)
  {
  }

  lemma TablePrepared(x: Index, at: Slot)
    requires Filed(x) && Apart(x.given, x.refs)
    requires at in x.entries ==> HasEntry(x.live, at)
    ensures var y := WithTable(x, at);
            && Filed(y) && Apart(y.given, y.refs) && y.live == x.live && y.given == x.given && y.tenants == x.tenants
            && (forall h :: h in x.given && h.listeners == y.entries[at] ==> h.At() == at)
  {
  }

  lemma FileKeeps(x: Index, h: Handle)
    requires Filed(x) && Apart(x.given, x.refs) && New(x, h.listener)
    requires h.tenant in x.tenants && x.tenants[h.tenant] == h.tables && h.At() in x.entries && x.entries[h.At()] == h.listeners
    requires forall k :: k in x.given && k.tables == h.tables ==> k.tenant == h.tenant
    requires forall k :: k in x.given && k.listeners == h.listeners ==> k.At() == h.At()
    requires h.tables < x.refs && h.listeners < x.refs
    ensures Filed(File(x, h)) && Apart(File(x, h).given, x.refs)
  {
  }

  lemma ListenFiles(x: Index, tenant: nat, table: nat, listener: nat)
    requires Filed(x) && Apart(x.given, x.refs) && New(x, listener)
    requires forall t :: t in x.tenants ==> x.tenants[t] < x.refs && HasTenant(x.live, t)
    requires forall a :: a in x.entries ==> x.entries[a] < x.refs && HasEntry(x.live, a)
    ensures var y := Listen(x, tenant, table, listener); Filed(y) && Apart(y.given, y.refs)
  {
    hide Filed, Apart, HasTenant, HasEntry;
    var x1 := WithTenant(x, tenant);
    var at := Slot(x1.tenants[tenant], table);
    TenantPrepared(x, tenant);
    TablePrepared(x1, at);
    FileKeeps(WithTable(x1, at), HandleFor(x, tenant, table, listener));
  }

  /** Live handles bound every reference the bus holds. */
  lemma Bounded(x: Index)
    requires Inv(x)
    ensures forall t :: t in x.tenants ==> x.tenants[t] < x.refs && HasTenant(x.live, t)
    ensures forall a :: a in x.entries ==> x.entries[a] < x.refs && HasEntry(x.live, a)
  {
    forall t | t in x.tenants ensures x.tenants[t] < x.refs && HasTenant(x.live, t) {
      assert HasTenant(x.live, t);
    }
    forall a | a in x.entries ensures x.entries[a] < x.refs && HasEntry(x.live, a) {
      assert HasEntry(x.live, a);
    }
    hide Owned;
  }

  lemma ListenNeeds(x: Index, tenant: nat, table: nat, listener: nat)
    requires Needed(x)
    ensures Needed(Listen(x, tenant, table, listener))
  {
    var h, z := HandleFor(x, tenant, table, listener), Listen(x, tenant, table, listener);
    assert h in z.live;
    forall s, l | l in Members(z.sets, s) ensures exists k :: k in z.live && k.listeners == s && k.listener == l {
      assert l in Members(x.sets, s) || (s == h.listeners && l == listener);
    }
    assert forall t :: t in z.tenants ==> t in x.tenants || t == h.tenant;
    assert forall a :: a in z.entries ==> a in x.entries || a == h.At();
    hide Listen, Owned;
  }

  lemma ListenKeeps(x: Index, tenant: nat, table: nat, listener: nat)
    requires Inv(x) && New(x, listener)
    ensures Inv(Listen(x, tenant, table, listener))
  {
    Bounded(x);
    hide Filed, Needed, Apart, Listen, New;
    ListenFiles(x, tenant, table, listener);
    ListenNeeds(x, tenant, table, listener);
  }

  // ---- release ----------------------------------------------------------------------------------

  lemma ReleaseFiles(x: Index, h: Handle)
    requires Filed(x) && Apart(x.given, x.refs) && h in x.live
    ensures Filed(Release(x, h)) && Apart(Release(x, h).given, x.refs)
  {
    var z := Release(x, h);
    forall k | k in z.live
      ensures k.listener in Members(z.sets, k.listeners) && k.At() in z.entries && z.entries[k.At()] == k.listeners
      ensures k.tenant in z.tenants && z.tenants[k.tenant] == k.tables
    {
      assert k.listener in Members(x.sets, k.listeners) && k.listener != h.listener;
      assert k.listener in Members(z.sets, k.listeners);
      assert k.At() == h.At() ==> k.listeners == h.listeners;
      assert k.At() in z.entries;
    }
  }

  lemma ReleaseOwns(x: Index, h: Handle)
    requires Owned(x.live, x.sets)
    ensures Owned(Release(x, h).live, Release(x, h).sets)
  {
    var z := Release(x, h);
    forall s, l | l in Members(z.sets, s) ensures exists k :: k in z.live && k.listeners == s && k.listener == l {
      assert l in Members(x.sets, s);
      var k :| k in x.live && k.listeners == s && k.listener == l;
      assert k != h;
    }
  }

  /** What is left after a release is left for another live handle. */
  lemma EntryStaysNeeded(x: Index, h: Handle, a: Slot)
    requires Filed(x) && Apart(x.given, x.refs) && h in x.live && Owned(x.live, x.sets)
    requires HasEntry(x.live, a) && a in Release(x, h).entries
    ensures HasEntry(Release(x, h).live, a)
  {
    var z := Release(x, h);
    if a == h.At() {
      var l :| l in Members(z.sets, h.listeners);
      assert l in Members(x.sets, h.listeners) && l != h.listener;
      var k :| k in x.live && k.listeners == h.listeners && k.listener == l;
      assert k in z.live && k.At() == a;
    } else {
      var k :| k in x.live && k.At() == a;
      assert k in z.live;
    }
  }

  lemma ReleaseShrinks(x: Index, h: Handle)
    ensures forall t :: t in Release(x, h).tenants ==> t in x.tenants
    ensures forall a :: a in Release(x, h).entries ==> a in x.entries
    ensures h.tenant in Release(x, h).tenants ==> HoldsTables(Release(x, h).entries, h.tables)
    ensures Release(x, h).live == x.live - {h}
  {
  }

  lemma LiveIsGiven(x: Index)
    requires Filed(x)
    ensures x.live <= x.given
  {
  }

  lemma TenantStaysNeeded(x: Index, h: Handle, t: nat)
    requires Apart(x.given, x.refs) && x.live <= x.given && h in x.live && HasTenant(x.live, t) && t in Release(x, h).tenants
    requires forall a :: a in Release(x, h).entries ==> HasEntry(Release(x, h).live, a)
    ensures HasTenant(Release(x, h).live, t)
  {
    var z := Release(x, h);
    ReleaseShrinks(x, h);
    hide Release;
    var k :| k in x.live && k.tenant == t;
    if t == h.tenant {
      var a :| a in z.entries && a.tables == h.tables;
      var j :| j in z.live && j.At() == a;
      assert j in x.live && j.tables == h.tables;
    } else {
      assert k in z.live;
    }
  }

  lemma ReleaseNeeds(x: Index, h: Handle)
    requires Inv(x) && h in x.live
    ensures Needed(Release(x, h))
  {
    hide Filed, Apart, HasTenant, HasEntry, Owned, Release;
    var z := Release(x, h);
    ReleaseOwns(x, h);
    ReleaseShrinks(x, h);
    assert x.live <= x.given by { LiveIsGiven(x); }
    forall a | a in z.entries ensures HasEntry(z.live, a) { EntryStaysNeeded(x, h, a); }
    forall t | t in z.tenants ensures HasTenant(z.live, t) { TenantStaysNeeded(x, h, t); }
  }

  lemma ReleaseKeeps(x: Index, h: Handle)
    requires Inv(x) && h in x.live
    ensures Inv(Release(x, h))
  {
    ReleaseNeeds(x, h);
    hide Needed;
    ReleaseFiles(x, h);
    hide Filed, Apart;
  }

  // ---- runs -------------------------------------------------------------------------------------

  datatype Event = Listens(tenant: nat, table: nat, listener: nat) | Releases(handle: Handle)

  /** Every release is called once: on a handle that is live. */
  predicate Fair(x: Index, e: Event) {
    match e
    case Listens(_, _, listener) => New(x, listener)
    case Releases(h) => h in x.live
  }

  function Next(x: Index, e: Event): Index {
    match e
    case Listens(tenant, table, listener) => Listen(x, tenant, table, listener)
    case Releases(h) => Release(x, h)
  }

  function Run(trace: seq<Event>): Index {
    if trace == [] then Empty() else Next(Run(trace[..|trace| - 1]), trace[|trace| - 1])
  }

  predicate AllFair(trace: seq<Event>) {
    forall i :: 0 <= i < |trace| ==> Fair(Run(trace[..i]), trace[i])
  }

  lemma EmptyKeeps()
    ensures Inv(Empty())
  {
  }

  lemma NextKeeps(x: Index, e: Event)
    requires Inv(x) && Fair(x, e)
    ensures Inv(Next(x, e))
  {
    hide Inv, Listen, Release, New;
    match e
    case Listens(tenant, table, listener) => ListenKeeps(x, tenant, table, listener);
    case Releases(h) => ReleaseKeeps(x, h);
  }

  lemma {:induction false} RunKeeps(trace: seq<Event>)
    requires AllFair(trace)
    ensures Inv(Run(trace))
  {
    EmptyKeeps();
    hide Inv, Next, Fair, Empty;
    if trace != [] {
      var n := |trace| - 1;
      assert forall i :: 0 <= i < n ==> trace[..n][..i] == trace[..i];
      assert AllFair(trace[..n]);
      RunKeeps(trace[..n]);
      NextKeeps(Run(trace[..n]), trace[n]);
    }
  }

  /** The live handles of one table. */
  function HandlesOf(live: set<Handle>, tenant: nat, table: nat): set<nat> {
    set h | h in live && h.tenant == tenant && h.table == table :: h.listener
  }

  /**
   * After any run of subscriptions and releases, if every release is called once, a publication reaches exactly the
   * listeners whose handles are live for that tenant and table.
   */
  lemma PublicationReachesLiveHandles(trace: seq<Event>, tenant: nat, table: nat)
    requires AllFair(trace)
    ensures Registered(Run(trace), tenant, table) == HandlesOf(Run(trace).live, tenant, table)
  {
    RunKeeps(trace);
    hide Run;
    RegisteredIsLive(Run(trace), tenant, table);
  }

  lemma RegisteredIsLive(x: Index, tenant: nat, table: nat)
    requires Inv(x)
    ensures Registered(x, tenant, table) == HandlesOf(x.live, tenant, table)
  {
    forall l | l in Registered(x, tenant, table) ensures l in HandlesOf(x.live, tenant, table) {
      var at := Slot(x.tenants[tenant], table);
      var h :| h in x.live && h.listeners == x.entries[at] && h.listener == l;
      SetBelongs(x, h, tenant, at);
    }
    forall l | l in HandlesOf(x.live, tenant, table) ensures l in Registered(x, tenant, table) {
      var h :| h in x.live && h.tenant == tenant && h.table == table && h.listener == l;
    }
  }

  /** A set that is filed under a tenant and a table is the set of their handles. */
  lemma SetBelongs(x: Index, h: Handle, tenant: nat, at: Slot)
    requires Inv(x) && h in x.live && tenant in x.tenants && x.tenants[tenant] == at.tables
    requires at in x.entries && x.entries[at] == h.listeners
    ensures h.tenant == tenant && h.At() == at
  {
    assert HasEntry(x.live, at) && HasTenant(x.live, tenant);
    var j :| j in x.live && j.At() == at;
    var k :| k in x.live && k.tenant == tenant;
    hide Needed;
    assert j.listeners == h.listeners;
    assert k.tables == h.tables;
  }

  lemma NoTenantNoHandle(x: Index, tenant: nat)
    requires Inv(x) && tenant !in x.tenants
    ensures (set h | h in x.live && h.tenant == tenant) == {}
  {
    hide Needed;
  }

  /** A set counts the live handles of its table. */
  lemma SetIsItsHandles(x: Index, tenant: nat, at: Slot)
    requires Inv(x) && tenant in x.tenants && at in x.entries && x.tenants[tenant] == at.tables
    ensures |Members(x.sets, x.entries[at])| == |set h | h in x.live && h.At() == at|
    ensures forall h :: h in x.live && h.At() == at ==> h.tenant == tenant
  {
    var handles := set h | h in x.live && h.At() == at;
    forall h | h in x.live && h.At() == at ensures h.tenant == tenant { SetBelongs(x, h, tenant, at); }
    forall l | l in Members(x.sets, x.entries[at]) ensures exists h :: h in handles && h.listener == l {
      var h :| h in x.live && h.listeners == x.entries[at] && h.listener == l;
      SetBelongs(x, h, tenant, at);
    }
    hide Needed;
    assert Members(x.sets, x.entries[at]) == set h | h in handles :: h.listener;
    ListenersCount(handles);
  }

  /** As many listeners as handles, when no two handles share one. */
  lemma {:induction false} ListenersCount(handles: set<Handle>)
    requires forall h, k :: h in handles && k in handles && h.listener == k.listener ==> h == k
    ensures |set h | h in handles :: h.listener| == |handles|
  {
    if h :| h in handles {
      var rest := handles - {h};
      ListenersCount(rest);
      assert (set k | k in handles :: k.listener) == (set k | k in rest :: k.listener) + {h.listener};
    }
  }

  // ---- releasing twice --------------------------------------------------------------------------

  /** A second release is harmful when it finds its set empty and something newer under its own keys. */
  predicate Harmful(x: Index, h: Handle) {
    && Members(x.sets, h.listeners) - {h.listener} == {}
    && (h.At() in x.entries || (h.tenant in x.tenants && !HoldsTables(x.entries, h.tables)))
  }

  /** A handle that was released before. */
  predicate Spent(x: Index, h: Handle) {
    h in x.given - x.live
  }

  /**
   * Releasing a handle again leaves the bus as it was exactly when the release is not harmful. The source never guards
   * against a second call, so a caller must not make one.
   */
  lemma SecondReleaseIsHarmlessExactly(x: Index, h: Handle)
    requires Inv(x) && Spent(x, h)
    ensures (forall t, u :: Registered(Release(x, h), t, u) == Registered(x, t, u)) <==> !Harmful(x, h)
  {
    SpentIsGone(x, h);
    if Harmful(x, h) { HarmfulDrops(x, h); } else { HarmlessKeeps(x, h); }
    hide Inv, Harmful, Release;
  }

  /** Its listener is in no set; and its set, if it is still in use, is filed where it always was. */
  lemma SpentIsGone(x: Index, h: Handle)
    requires Inv(x) && Spent(x, h)
    ensures h.listener !in Members(x.sets, h.listeners)
    ensures Members(x.sets, h.listeners) != {} ==> HoldsTables(x.entries, h.tables)
  {
    hide HasTenant, HasEntry;
    forall l | l in Members(x.sets, h.listeners) ensures l != h.listener && HoldsTables(x.entries, h.tables) {
      var k :| k in x.live && k.listeners == h.listeners && k.listener == l;
      assert k in x.given && k.At() == h.At();
    }
  }

  lemma HarmlessKeeps(x: Index, h: Handle)
    requires !Harmful(x, h) && h.listener !in Members(x.sets, h.listeners)
    requires Members(x.sets, h.listeners) != {} ==> HoldsTables(x.entries, h.tables)
    ensures forall t, u :: Registered(Release(x, h), t, u) == Registered(x, t, u)
  {
    var z := Release(x, h);
    assert forall s :: Members(z.sets, s) == Members(x.sets, s);
    if Members(x.sets, h.listeners) == {} {
      assert x.entries - {h.At()} == x.entries;
      assert h.tenant !in x.tenants ==> x.tenants - {h.tenant} == x.tenants;
    }
    assert z.entries == x.entries && z.tenants == x.tenants;
  }

  /** The handle that a harmful release takes its place from. */
  lemma Victim(x: Index, h: Handle) returns (k: Handle)
    requires Needed(x) && Harmful(x, h)
    ensures k in x.live && (h.At() in x.entries ==> k.At() == h.At()) && (h.At() !in x.entries ==> k.tenant == h.tenant)
  {
    if h.At() in x.entries {
      assert HasEntry(x.live, h.At());
      k :| k in x.live && k.At() == h.At();
    } else {
      assert HasTenant(x.live, h.tenant);
      k :| k in x.live && k.tenant == h.tenant;
    }
  }

  lemma HarmfulDrops(x: Index, h: Handle)
    requires Filed(x) && Needed(x) && Harmful(x, h)
    ensures exists t, u :: Registered(Release(x, h), t, u) != Registered(x, t, u)
  {
    var k := Victim(x, h);
    hide Needed, Registered, Release;
    if h.At() in x.entries { DroppedEntry(x, h, k); } else { DroppedTenant(x, h, k); }
  }

  lemma DroppedEntry(x: Index, h: Handle, k: Handle)
    requires Filed(x) && k in x.live && k.At() == h.At() && Members(x.sets, h.listeners) - {h.listener} == {}
    ensures Registered(Release(x, h), k.tenant, k.table) != Registered(x, k.tenant, k.table)
  {
    assert k.listener in Registered(x, k.tenant, k.table);
    assert h.At() !in Release(x, h).entries;
  }

  lemma DroppedTenant(x: Index, h: Handle, k: Handle)
    requires Filed(x) && k in x.live && k.tenant == h.tenant && Members(x.sets, h.listeners) - {h.listener} == {}
    requires h.At() !in x.entries && !HoldsTables(x.entries, h.tables)
    ensures Registered(Release(x, h), k.tenant, k.table) != Registered(x, k.tenant, k.table)
  {
    assert k.listener in Registered(x, k.tenant, k.table);
    assert x.entries - {h.At()} == x.entries;
    assert h.tenant !in Release(x, h).tenants;
  }

  /** Listen, release, listen again, and release the first handle a second time: the second listener is gone. */
  lemma SecondReleaseCanDropANewerListener()
    ensures var x := Listen(Release(Listen(Empty(), 0, 0, 1), HandleFor(Empty(), 0, 0, 1)), 0, 0, 2);
            && Registered(x, 0, 0) == {2}
            && Registered(Release(x, HandleFor(Empty(), 0, 0, 1)), 0, 0) == {}
  {
  }
}
