/**
 * The change bus, said of the calls that were made on it (Source/Drizzle/DrizzleChangeNotifications.ts:14-73): who
 * hears of a table is who listened and did not release, and what a frame publishes is what was announced in it.
 */
module ChangeNotificationEvents {
  import opened Options
  import opened Frames = DrizzleChangeNotifications
  import Listeners = ChangeListeners

  // ---- who hears --------------------------------------------------------------------------------

  lemma LiveHandles(x: Listeners.Index, tenant: nat, table: nat, listener: nat)
    ensures Listeners.Listen(x, tenant, table, listener).live == x.live + {Listeners.HandleFor(x, tenant, table, listener)}
  {
  }

  /** Listening adds its listener to its table, of its tenant, and to no other. */
  lemma ListenersAreRegistered(x: Listeners.Index, tenant: nat, table: nat, listener: nat, t: nat, u: nat)
    requires Listeners.Inv(x) && Listeners.New(x, listener)
    ensures Listeners.Registered(Listeners.Listen(x, tenant, table, listener), t, u) ==
            Listeners.Registered(x, t, u) + if (t, u) == (tenant, table) then {listener} else {}
  {
    LiveHandles(x, tenant, table, listener);
    Listeners.ListenKeeps(x, tenant, table, listener);
    var h := Listeners.HandleFor(x, tenant, table, listener);
    assert h.tenant == tenant && h.table == table && h.listener == listener;
    hide Listeners.Inv, Listeners.Listen, Listeners.New, Listeners.HandleFor, Listeners.Registered, Listeners.HandlesOf;
    Listeners.RegisteredIsLive(x, t, u);
    Listeners.RegisteredIsLive(Listeners.Listen(x, tenant, table, listener), t, u);
    HandlesAdded(x.live, h, t, u);
  }

  lemma HandlesAdded(live: set<Listeners.Handle>, h: Listeners.Handle, t: nat, u: nat)
    ensures Listeners.HandlesOf(live + {h}, t, u) ==
            Listeners.HandlesOf(live, t, u) + if (t, u) == (h.tenant, h.table) then {h.listener} else {}
  {
    assert h in live + {h};
  }

  lemma HandlesRemoved(live: set<Listeners.Handle>, h: Listeners.Handle, t: nat, u: nat)
    requires forall k :: k in live && k.listener == h.listener ==> k == h
    ensures Listeners.HandlesOf(live - {h}, t, u) ==
            Listeners.HandlesOf(live, t, u) - if (t, u) == (h.tenant, h.table) then {h.listener} else {}
  {
    forall l | l in Listeners.HandlesOf(live, t, u) && ((t, u) != (h.tenant, h.table) || l != h.listener)
      ensures l in Listeners.HandlesOf(live - {h}, t, u)
    {
      var k :| k in live && k.tenant == t && k.table == u && k.listener == l;
      assert k in live - {h};
    }
  }

  lemma ListenersAreDistinct(x: Listeners.Index, h: Listeners.Handle, k: Listeners.Handle)
    requires Listeners.Inv(x) && h in x.live && k in x.live && h.listener == k.listener
    ensures h == k
  {
    Listeners.LiveIsGiven(x);
    hide Listeners.Filed, Listeners.Needed;
  }

  /** Releasing takes exactly its own listener away. */
  lemma ReleasedListenersAreForgotten(x: Listeners.Index, h: Listeners.Handle, t: nat, u: nat)
    requires Listeners.Inv(x) && h in x.live
    ensures Listeners.Registered(Listeners.Release(x, h), t, u) ==
            Listeners.Registered(x, t, u) - if (t, u) == (h.tenant, h.table) then {h.listener} else {}
  {
    hide Listeners.Inv, Listeners.Release, Listeners.Registered, Listeners.HandlesOf;
    Listeners.ReleaseKeeps(x, h);
    Listeners.ReleaseShrinks(x, h);
    Listeners.RegisteredIsLive(x, t, u);
    Listeners.RegisteredIsLive(Listeners.Release(x, h), t, u);
    forall k | k in x.live && k.listener == h.listener ensures k == h { ListenersAreDistinct(x, h, k); }
    HandlesRemoved(x.live, h, t, u);
  }

  /** Who listened to a table and did not release, by the calls alone. */
  function Listening(trace: seq<Listeners.Event>, tenant: nat, table: nat): set<nat> {
    if trace == [] then {}
    else
      var before := Listening(trace[..|trace| - 1], tenant, table);
      match trace[|trace| - 1]
      case Listens(t, u, listener) => if (t, u) == (tenant, table) then before + {listener} else before
      case Releases(h) => if (h.tenant, h.table) == (tenant, table) then before - {h.listener} else before
  }

  /** After any run in which every release is called once, a publication reaches exactly those. */
  lemma {:induction false} PublicationReachesWhoListens(trace: seq<Listeners.Event>, tenant: nat, table: nat)
    requires Listeners.AllFair(trace)
    ensures Listeners.Registered(Listeners.Run(trace), tenant, table) == Listening(trace, tenant, table)
  {
    hide Listeners.Inv, Listeners.Registered, Listeners.Next, Listeners.Fair;
    if trace != [] {
      var n := |trace| - 1;
      FairBefore(trace);
      PublicationReachesWhoListens(trace[..n], tenant, table);
      Listeners.RunKeeps(trace[..n]);
      Registers(Listeners.Run(trace[..n]), trace[n], tenant, table);
    } else {
      NobodyYet(tenant, table);
    }
  }

  lemma NobodyYet(tenant: nat, table: nat)
    ensures Listeners.Registered(Listeners.Empty(), tenant, table) == {}
  {
  }

  lemma FairBefore(trace: seq<Listeners.Event>)
    requires trace != [] && Listeners.AllFair(trace)
    ensures var n := |trace| - 1; Listeners.AllFair(trace[..n]) && Listeners.Fair(Listeners.Run(trace[..n]), trace[n])
  {
    hide Listeners.Fair, Listeners.Run;
    var n := |trace| - 1;
    assert forall i :: 0 <= i < n ==> trace[..n][..i] == trace[..i];
  }

  lemma Registers(x: Listeners.Index, e: Listeners.Event, tenant: nat, table: nat)
    requires Listeners.Inv(x) && Listeners.Fair(x, e)
    ensures Listeners.Registered(Listeners.Next(x, e), tenant, table) ==
            match e
            case Listens(t, u, listener) =>
              Listeners.Registered(x, tenant, table) + (if (tenant, table) == (t, u) then {listener} else {})
            case Releases(h) =>
              Listeners.Registered(x, tenant, table) - if (tenant, table) == (h.tenant, h.table) then {h.listener} else {}
  {
    hide Listeners.Inv, Listeners.Registered, Listeners.Listen, Listeners.Release;
    match e
    case Listens(t, u, listener) => ListenersAreRegistered(x, t, u, listener, tenant, table);
    case Releases(h) => ReleasedListenersAreForgotten(x, h, tenant, table);
  }

  // ---- what frames publish ----------------------------------------------------------------------

  /** Whatever is published goes to the listeners that its table has at that moment. */
  lemma PublicationsAreHeard(b: Bus, e: Event)
    ensures b.log <= Next(b, e).log
    ensures forall i :: |b.log| <= i < |Next(b, e).log| ==>
                          var p := Next(b, e).log[i]; p.heard == Listeners.Registered(b.index, p.tenant, p.table)
  {
    hide AddAll, Elements, Listeners.Registered;
  }

  /** When its work settles a frame publishes each table it holds back, in order, and is over; other frames stay. */
  lemma SettledFramesPublish(b: Bus, f: nat)
    requires f < |b.frames| && b.frames[f].active
    ensures var b', frame := Next(b, Ends(f)), b.frames[f];
            && |b'.frames| == |b.frames| && !b'.frames[f].active && b'.frames[f].pending == []
            && (forall g :: 0 <= g < |b.frames| && g != f ==> b'.frames[g] == b.frames[g])
            && |b'.log| == |b.log| + |frame.pending|
            && forall i :: 0 <= i < |frame.pending| ==>
                             var p := b'.log[|b.log| + i];
                             p.tenant == frame.tenant && p.table == frame.pending[i] && p.frame == Some(f)
  {
    hide Listeners.Registered;
  }

  /** A frame is over exactly when its work has settled, and never another tenant's. */
  lemma FramesEndWithTheirWork(b: Bus, e: Event, f: nat)
    requires f < |b.frames|
    ensures f < |Next(b, e).frames|
    ensures Next(b, e).frames[f].active <==> b.frames[f].active && e != Ends(f)
    ensures Next(b, e).frames[f].tenant == b.frames[f].tenant
  {
    hide AddAll, Elements, Listeners.Registered;
  }

  /** The tables that this call announces within a frame. */
  function AnnouncedNow(b: Bus, e: Event, f: nat): set<Table> {
    if e.Notifies? && b.enabled && Elements(e.targets) <= b.known && Inside(b, e.ctx, e.tenant) && e.ctx[e.tenant] == f
    then Elements(e.targets) else {}
  }

  /** And all that the calls of a run announced within it. */
  function Announced(b: Bus, trace: seq<Event>, f: nat): set<Table> {
    if trace == [] then {}
    else
      var before := trace[..|trace| - 1];
      Announced(b, before, f) + AnnouncedNow(Run(b, before), trace[|trace| - 1], f)
  }

  lemma AnnouncementsAreKept(b: Bus, e: Event, f: nat)
    requires f < |b.frames|
    ensures f < |Next(b, e).frames| && Next(b, e).frames[f].announced == b.frames[f].announced + AnnouncedNow(b, e, f)
  {
    if e.Notifies? { AnnouncementsAreFramed(b, e.ctx, e.tenant, e.targets); }
    hide AddAll, Elements, Listeners.Registered;
  }

  lemma NewFramesAreEmpty(b: Bus, e: Event, f: nat)
    requires |b.frames| <= f < |Next(b, e).frames|
    ensures e.Begins? && f == |b.frames| && AnnouncedNow(b, e, f) == {}
    ensures Next(b, e).frames[f] == Frame(e.tenant, [], true, {})
  {
    hide AddAll, Elements, Listeners.Registered;
  }

  lemma {:induction false} NothingAnnouncedYet(b: Bus, trace: seq<Event>, f: nat)
    requires |Run(b, trace).frames| <= f
    ensures Announced(b, trace, f) == {}
  {
    if trace != [] {
      var n := |trace| - 1;
      FramesStay(Run(b, trace[..n]), trace[n]);
      NothingAnnouncedYet(b, trace[..n], f);
      hide Elements, AddAll, Next;
    }
  }

  lemma FramesStay(b: Bus, e: Event)
    ensures |b.frames| <= |Next(b, e).frames|
  {
    hide AddAll, Elements, Listeners.Registered;
  }

  lemma {:induction false} AnnouncedIsAnnounced(known: set<Table>, enabled: bool, trace: seq<Event>, f: nat)
    requires f < |Run(Open(known, enabled), trace).frames|
    ensures Run(Open(known, enabled), trace).frames[f].announced == Announced(Open(known, enabled), trace, f)
  {
    if trace != [] {
      var n := |trace| - 1;
      var before := Run(Open(known, enabled), trace[..n]);
      if f < |before.frames| {
        AnnouncedIsAnnounced(known, enabled, trace[..n], f);
        AnnouncementsAreKept(before, trace[n], f);
      } else {
        NothingAnnouncedYet(Open(known, enabled), trace[..n], f);
        NewFramesAreEmpty(before, trace[n], f);
      }
      hide Next, AnnouncedNow;
    }
  }

  /**
   * After any run a frame whose work has settled has published exactly the tables that calls within it announced, each
   * once, and one whose work goes on has published nothing.
   */
  lemma FramesPublishWhatWasAnnounced(known: set<Table>, enabled: bool, trace: seq<Event>, f: nat)
    requires f < |Run(Open(known, enabled), trace).frames|
    ensures var b := Run(Open(known, enabled), trace);
            var published := PublishedBy(b.log, f);
            if b.frames[f].active then published == []
            else Distinct(published) && Elements(published) == Announced(Open(known, enabled), trace, f)
  {
    AnnouncedIsAnnounced(known, enabled, trace, f);
    FramesPublishOnce(known, enabled, trace, f);
    hide Run, PublishedBy, Distinct, Elements, Announced;
  }
}
