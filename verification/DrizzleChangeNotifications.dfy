/**
 * Per-tenant notification frames (Source/Drizzle/DrizzleChangeNotifications.ts:14-47): what is announced inside a frame
 * is published once, when its work has settled.
 */
module DrizzleChangeNotifications {
  import opened Options
  import Listeners = ChangeListeners

  type Tenant = nat
  type Table = nat

  /** One table published to the listeners registered then; `frame` is history: the frame that was holding it back. */
  datatype Publication = Publication(tenant: Tenant, table: Table, heard: set<nat>, frame: Option<nat>)

  /** `pending` is a set in insertion order; `announced` is history: everything queued in the frame so far. */
  datatype Frame = Frame(tenant: Tenant, pending: seq<Table>, active: bool, announced: set<Table>)

  /** The frames an asynchronous context sees. */
  type Context = map<Tenant, nat>

  datatype Bus = Bus(known: set<Table>, enabled: bool, index: Listeners.Index, frames: seq<Frame>, log: seq<Publication>)

  function Open(known: set<Table>, enabled: bool): Bus {
    Bus(known, enabled, Listeners.Empty(), [], [])
  }

  /** Add to a set that keeps its insertion order. */
  function Add(s: seq<Table>, table: Table): seq<Table> {
    if table in s then s else s + [table]
  }

  function AddAll(s: seq<Table>, tables: seq<Table>): seq<Table> {
    if tables == [] then s else Add(AddAll(s, tables[..|tables| - 1]), tables[|tables| - 1])
  }

  function Elements(s: seq<Table>): set<Table> {
    set t | t in s
  }

  predicate Distinct(s: seq<Table>) {
    forall i, j :: 0 <= i < j < |s| ==> s[i] != s[j]
  }

  function Publications(x: Listeners.Index, tenant: Tenant, tables: seq<Table>, frame: Option<nat>): (r: seq<Publication>)
    ensures |r| == |tables|
  {
    seq(|tables|, i requires 0 <= i < |tables| => Publication(tenant, tables[i], Listeners.Registered(x, tenant, tables[i]), frame))
  }

  /** The frame a context has for a tenant, if it is active. */
  predicate Inside(b: Bus, ctx: Context, tenant: Tenant) {
    tenant in ctx && ctx[tenant] < |b.frames| && b.frames[ctx[tenant]].active
  }

  /** `notify`; false when a target is not registered. */
  function Notify(b: Bus, ctx: Context, tenant: Tenant, targets: seq<Table>): (Bus, bool) {
    if exists i :: 0 <= i < |targets| && targets[i] !in b.known then (b, false)
    else if !b.enabled then (b, true)
    else if Inside(b, ctx, tenant) then
      var f := b.frames[ctx[tenant]];
      (b.(frames := b.frames[ctx[tenant] := f.(pending := AddAll(f.pending, targets), announced := f.announced + Elements(targets))]), true)
    else (b.(log := b.log + Publications(b.index, tenant, AddAll([], targets), None)), true)
  }

  /** `run` joins the frame its context has, or begins one; the work then sees the returned context. */
  function Begin(b: Bus, ctx: Context, tenant: Tenant): (Bus, Context, Option<nat>) {
    if Inside(b, ctx, tenant) then (b, ctx, None)
    else (b.(frames := b.frames + [Frame(tenant, [], true, {})]), ctx[tenant := |b.frames|], Some(|b.frames|))
  }

  /** The work of a frame settles, with a value or an error. */
  function End(b: Bus, f: nat): Bus {
    if |b.frames| <= f || !b.frames[f].active then b else
      var frame := b.frames[f];
      b.(frames := b.frames[f := frame.(active := false, pending := [])],
      log := b.log + Publications(b.index, frame.tenant, frame.pending, Some(f)))
  }

  // ---- the machine ------------------------------------------------------------------------------

  datatype Event =
    | Notifies(ctx: Context, tenant: Tenant, targets: seq<Table>)
    | Begins(ctx: Context, tenant: Tenant)
    | Ends(frame: nat)
    | Subscribes(event: Listeners.Event)

  function Next(b: Bus, e: Event): Bus {
    match e
    case Notifies(ctx, tenant, targets) => Notify(b, ctx, tenant, targets).0
    case Begins(ctx, tenant) => Begin(b, ctx, tenant).0
    case Ends(f) => End(b, f)
    case Subscribes(event) => b.(index := Listeners.Next(b.index, event))
  }

  function Run(b: Bus, trace: seq<Event>): Bus {
    if trace == [] then b else Next(Run(b, trace[..|trace| - 1]), trace[|trace| - 1])
  }

  // ---- what every run keeps ---------------------------------------------------------------------

  /** What a frame has published, in order. */
  function PublishedBy(log: seq<Publication>, f: nat): seq<Table> {
    if log == [] then [] else
      PublishedBy(log[..|log| - 1], f) + if log[|log| - 1].frame == Some(f) then [log[|log| - 1].table] else []
  }

  /** A frame holds back everything announced in it while it is active; afterwards it has published exactly that, once. */
  ghost predicate Orderly(frame: Frame, published: seq<Table>) {
    && Distinct(frame.pending)
    && (if frame.active then Elements(frame.pending) == frame.announced && published == []
        else frame.pending == [] && Distinct(published) && Elements(published) == frame.announced)
  }

  ghost predicate Inv(b: Bus) {
    && (forall f :: 0 <= f < |b.frames| ==> Orderly(b.frames[f], PublishedBy(b.log, f)))
    && (forall i :: 0 <= i < |b.log| && b.log[i].frame.Some? ==> b.log[i].frame.value < |b.frames|)
  }

  lemma {:induction false} AddAllAdds(s: seq<Table>, tables: seq<Table>)
    requires Distinct(s)
    ensures Distinct(AddAll(s, tables)) && Elements(AddAll(s, tables)) == Elements(s) + Elements(tables)
  {
    if tables == [] {
      assert Elements(tables) == {};
    } else {
      var n := |tables| - 1;
      AddAllAdds(s, tables[..n]);
      var before := AddAll(s, tables[..n]);
      assert Elements(Add(before, tables[n])) == Elements(before) + {tables[n]};
      assert tables == tables[..n] + [tables[n]];
      assert Elements(tables) == Elements(tables[..n]) + {tables[n]};
    }
  }

  lemma PublishedSnoc(log: seq<Publication>, p: Publication, f: nat)
    ensures PublishedBy(log + [p], f) == PublishedBy(log, f) + if p.frame == Some(f) then [p.table] else []
  {
    assert (log + [p])[..|log|] == log;
  }

  lemma {:induction false} PublishedAppends(log: seq<Publication>, x: Listeners.Index, tenant: Tenant, tables: seq<Table>, frame: Option<nat>, f: nat)
    ensures PublishedBy(log + Publications(x, tenant, tables, frame), f) ==
            PublishedBy(log, f) + if frame == Some(f) then tables else []
    decreases |tables|
  {
    hide PublishedBy, Listeners.Registered;
    var more := Publications(x, tenant, tables, frame);
    if tables == [] {
      assert log + more == log;
    } else {
      var n := |tables| - 1;
      var fewer := Publications(x, tenant, tables[..n], frame);
      PublishedAppends(log, x, tenant, tables[..n], frame, f);
      PublishedSnoc(log + fewer, more[n], f);
      assert more == fewer + [more[n]];
      assert log + more == log + fewer + [more[n]];
      assert tables == tables[..n] + [tables[n]];
    }
  }

  lemma {:induction false} NothingPublished(log: seq<Publication>, f: nat)
    requires forall i :: 0 <= i < |log| && log[i].frame.Some? ==> log[i].frame.value < f
    ensures PublishedBy(log, f) == []
  {
    if log != [] { NothingPublished(log[..|log| - 1], f); }
  }

  lemma NotifyKeeps(b: Bus, ctx: Context, tenant: Tenant, targets: seq<Table>)
    requires Inv(b)
    ensures Inv(Notify(b, ctx, tenant, targets).0)
  {
    if Inside(b, ctx, tenant) { AddAllAdds(b.frames[ctx[tenant]].pending, targets); }
    forall f | 0 <= f < |b.frames|
      ensures PublishedBy(b.log + Publications(b.index, tenant, AddAll([], targets), None), f) == PublishedBy(b.log, f)
    {
      PublishedAppends(b.log, b.index, tenant, AddAll([], targets), None, f);
    }
    hide PublishedBy, AddAll, Distinct, Elements;
  }

  lemma BeginKeeps(b: Bus, ctx: Context, tenant: Tenant)
    requires Inv(b)
    ensures Inv(Begin(b, ctx, tenant).0)
  {
    NothingPublished(b.log, |b.frames|);
    NewFrameIsOrderly(tenant);
    hide PublishedBy, Orderly;
  }

  lemma NewFrameIsOrderly(tenant: Tenant)
    ensures Orderly(Frame(tenant, [], true, {}), [])
  {
    assert Elements([]) == {};
  }

  lemma EndKeeps(b: Bus, f: nat)
    requires Inv(b)
    ensures Inv(End(b, f))
  {
    if f < |b.frames| && b.frames[f].active {
      var frame := b.frames[f];
      forall g | 0 <= g < |b.frames|
        ensures PublishedBy(b.log + Publications(b.index, frame.tenant, frame.pending, Some(f)), g) ==
                PublishedBy(b.log, g) + if f == g then frame.pending else []
      {
        PublishedAppends(b.log, b.index, frame.tenant, frame.pending, Some(f), g);
      }
      assert [] + frame.pending == frame.pending;
      hide PublishedBy, Distinct, Elements;
    }
  }

  lemma {:induction false} RunKeeps(b: Bus, trace: seq<Event>)
    requires Inv(b)
    ensures Inv(Run(b, trace))
  {
    if trace != [] {
      var before := Run(b, trace[..|trace| - 1]);
      RunKeeps(b, trace[..|trace| - 1]);
      hide Inv, Notify, Begin, End, Run;
      match trace[|trace| - 1]
      case Notifies(ctx, tenant, targets) => NotifyKeeps(before, ctx, tenant, targets);
      case Begins(ctx, tenant) => BeginKeeps(before, ctx, tenant);
      case Ends(f) => EndKeeps(before, f);
      case Subscribes(event) => assert Inv(before.(index := Listeners.Next(before.index, event))) by { IndexKeeps(before, event); }
    }
  }

  lemma IndexKeeps(b: Bus, event: Listeners.Event)
    requires Inv(b)
    ensures Inv(b.(index := Listeners.Next(b.index, event)))
  {
    hide PublishedBy, Orderly;
  }

  // ---- what callers can rely on -----------------------------------------------------------------

  /**
   * After any run, a frame that is still active has published nothing and holds back every table announced in it; one
   * whose work has settled has published exactly those tables, each once.
   */
  lemma FramesPublishOnce(known: set<Table>, enabled: bool, trace: seq<Event>, f: nat)
    requires f < |Run(Open(known, enabled), trace).frames|
    ensures var b := Run(Open(known, enabled), trace);
            var frame, published := b.frames[f], PublishedBy(b.log, f);
            && (frame.active ==> published == [] && Elements(frame.pending) == frame.announced)
            && (!frame.active ==> Distinct(published) && Elements(published) == frame.announced)
  {
    RunKeeps(Open(known, enabled), trace);
    hide Run, PublishedBy, Distinct, Elements;
  }

  /**
   * An announcement inside a tenant's active frame publishes nothing, whatever is nested in that frame, and is recorded
   * in that frame alone; a late one publishes each of its tables once, immediately; one that names an unknown table, or
   * is made on a disabled bus, does nothing.
   */
  lemma AnnouncementsAreFramed(b: Bus, ctx: Context, tenant: Tenant, targets: seq<Table>)
    ensures var (b', ok) := Notify(b, ctx, tenant, targets);
            && (ok <==> Elements(targets) <= b.known)
            && (!ok || !b.enabled ==> b' == b)
            && (ok && b.enabled && Inside(b, ctx, tenant) ==>
                  && b'.log == b.log && |b'.frames| == |b.frames|
                  && b'.frames[ctx[tenant]].announced == b.frames[ctx[tenant]].announced + Elements(targets)
                  && (forall f :: 0 <= f < |b.frames| && f != ctx[tenant] ==> b'.frames[f] == b.frames[f]))
            && (ok && b.enabled && !Inside(b, ctx, tenant) ==>
                  && b'.frames == b.frames
                  && exists tables :: Distinct(tables) && Elements(tables) == Elements(targets)
                       && b'.log == b.log + Publications(b.index, tenant, tables, None))
  {
    AddAllAdds([], targets);
    assert Elements([]) + Elements(targets) == Elements(targets);
    assert Elements(targets) <= b.known <==> forall i :: 0 <= i < |targets| ==> targets[i] in b.known by {
      forall i | 0 <= i < |targets| ensures targets[i] in Elements(targets) { }
    }
    hide AddAll, Distinct;
  }

  /** A context whose frames belong to their tenants. */
  predicate Proper(b: Bus, ctx: Context) {
    forall t :: t in ctx ==> ctx[t] < |b.frames| && b.frames[ctx[t]].tenant == t
  }

  predicate Of(e: Event, b: Bus, tenant: Tenant) {
    match e
    case Notifies(ctx, t, _) => t == tenant && Proper(b, ctx)
    case Begins(ctx, t) => t == tenant && Proper(b, ctx)
    case Ends(f) => f < |b.frames| ==> b.frames[f].tenant == tenant
    case Subscribes(_) => false
  }

  /** Tenants are isolated: what one of them does neither publishes for another nor touches its frames. */
  lemma TenantsAreIsolated(b: Bus, e: Event, tenant: Tenant, other: Tenant)
    requires Of(e, b, tenant) && other != tenant
    ensures var b' := Next(b, e);
            && |b.frames| <= |b'.frames| && b.log <= b'.log
            && (forall i :: |b.log| <= i < |b'.log| ==> b'.log[i].tenant == tenant)
            && (forall f :: 0 <= f < |b.frames| && b.frames[f].tenant == other ==> b'.frames[f] == b.frames[f])
  {
    hide AddAll, Elements;
  }

  /** A nested call joins: it begins no frame of its own, and its context is the one it was called in. */
  lemma NestedCallsJoin(b: Bus, ctx: Context, tenant: Tenant)
    requires Proper(b, ctx)
    ensures var (b', inner, own) := Begin(b, ctx, tenant);
            && Proper(b', inner) && Inside(b', inner, tenant)
            && (own.None? <==> Inside(b, ctx, tenant)) && (own.None? ==> b' == b && inner == ctx)
            && (own.Some? ==> inner[tenant] == own.value && own.value == |b.frames| && forall t :: t in ctx && t != tenant ==> t in inner && inner[t] == ctx[t])
  {
  }

  lemma AddedNext(s: seq<Table>, tables: seq<Table>, i: nat)
    requires i < |tables|
    ensures AddAll(s, tables[..i + 1]) == Add(AddAll(s, tables[..i]), tables[i])
    ensures Elements(tables[..i + 1]) == Elements(tables[..i]) + {tables[i]}
  {
    assert tables[..i + 1][..i] == tables[..i];
    assert tables[..i + 1] == tables[..i] + [tables[i]];
  }
}
