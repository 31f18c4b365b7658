/** The change bus as the object it is: listener maps, and the frames of whoever is running. */
module LiveChangeNotifications {
  import opened Options
  import opened Frames = DrizzleChangeNotifications
  import Listeners = ChangeListeners

  class DrizzleChangeNotifications {
    const known: set<Table>
    const enabled: bool
    var index: Listeners.Index
    var frames: seq<Frame>
    var log: seq<Publication>

    ghost function State(): Bus
      reads this
    {
      Bus(known, enabled, index, frames, log)
    }

    constructor (known: set<Table>, enabled: bool)
      ensures State() == Open(known, enabled)
    {
      this.known, this.enabled := known, enabled;
      index, frames, log := Listeners.Empty(), [], [];
    }

    /** `publish` for each table of a set, in its order. */
    method PublishAll(tenant: Tenant, tables: seq<Table>, frame: Option<nat>)
      modifies this`log
      ensures log == old(log) + Publications(index, tenant, tables, frame)
    {
      for i := 0 to |tables|
        invariant log == old(log) + Publications(index, tenant, tables[..i], frame)
      {
        log := log + [Publication(tenant, tables[i], Listeners.Registered(index, tenant, tables[i]), frame)];
        assert Publications(index, tenant, tables[..i + 1], frame) ==
               Publications(index, tenant, tables[..i], frame) + [Publication(tenant, tables[i], Listeners.Registered(index, tenant, tables[i]), frame)];
      }
      assert tables[..|tables|] == tables;
    }

    method Notify(ctx: Context, tenant: Tenant, targets: seq<Table>) returns (ok: bool)
      modifies this`frames, this`log
      ensures (State(), ok) == Frames.Notify(old(State()), ctx, tenant, targets)
    {
      if exists i :: 0 <= i < |targets| && targets[i] !in known { return false; }
      if !enabled { return true; }
      assert targets[..|targets|] == targets;
      if tenant in ctx && ctx[tenant] < |frames| && frames[ctx[tenant]].active {
        var queued := frames[ctx[tenant]];
        var pending, announced := queued.pending, queued.announced;
        for i := 0 to |targets|
          invariant frames == old(frames) && log == old(log)
          invariant pending == AddAll(queued.pending, targets[..i]) && announced == queued.announced + Elements(targets[..i])
        {
          AddedNext(queued.pending, targets, i);
          pending, announced := Add(pending, targets[i]), announced + {targets[i]};
        }
        frames := frames[ctx[tenant] := queued.(pending := pending, announced := announced)];
      } else {
        var resolved: seq<Table> := [];
        for i := 0 to |targets|
          invariant resolved == AddAll([], targets[..i]) && frames == old(frames) && log == old(log)
        {
          AddedNext([], targets, i);
          resolved := Add(resolved, targets[i]);
        }
        PublishAll(tenant, resolved, None);
      }
      return true;
    }

    method Begin(ctx: Context, tenant: Tenant) returns (inner: Context, own: Option<nat>)
      modifies this`frames
      ensures (State(), inner, own) == Frames.Begin(old(State()), ctx, tenant)
    {
      if tenant in ctx && ctx[tenant] < |frames| && frames[ctx[tenant]].active { return ctx, None; }
      inner, own := ctx[tenant := |frames|], Some(|frames|);
      frames := frames + [Frame(tenant, [], true, {})];
    }

    /** The `finally` block of `run`. */
    method End(f: nat)
      modifies this`frames, this`log
      ensures State() == Frames.End(old(State()), f)
    {
      if |frames| <= f || !frames[f].active { return; }
      var frame := frames[f];
      frames := frames[f := frame.(active := false)];
      PublishAll(frame.tenant, frame.pending, Some(f));
      frames := frames[f := frames[f].(pending := [])];
    }

    /** `listenerCount`: as many as the tenant has live handles, if every release was called once. */
    method ListenerCount(tenant: Tenant) returns (count: nat)
      requires Listeners.Inv(index)
      ensures count == |set h | h in index.live && h.tenant == tenant|
    {
      count := 0;
      if tenant !in index.tenants { Listeners.NoTenantNoHandle(index, tenant); return; }
      var slots := set a | a in index.entries && a.tables == index.tenants[tenant];
      NothingCounted(index, tenant, slots);
      while slots != {}
        invariant forall a :: a in slots ==> a in index.entries && a.tables == index.tenants[tenant]
        invariant count == |Counted(index.live, tenant, slots)|
        decreases slots
      {
        var a :| a in slots;
        CountGrows(index, tenant, slots, a);
        slots := slots - {a};
        count := count + |Listeners.Members(index.sets, index.entries[a])|;
      }
      assert Counted(index.live, tenant, {}) == set h | h in index.live && h.tenant == tenant;
    }
  }

  /** The handles of a tenant whose sets have been visited. */
  ghost function Counted(live: set<Listeners.Handle>, tenant: Tenant, slots: set<Listeners.Slot>): set<Listeners.Handle> {
    set h | h in live && h.tenant == tenant && h.At() !in slots
  }

  lemma NothingCounted(x: Listeners.Index, tenant: Tenant, slots: set<Listeners.Slot>)
    requires Listeners.Inv(x) && tenant in x.tenants
    requires forall a :: a in x.entries && a.tables == x.tenants[tenant] ==> a in slots
    ensures Counted(x.live, tenant, slots) == {}
  {
    hide Listeners.Needed, Listeners.Apart;
  }

  lemma CountGrows(x: Listeners.Index, tenant: Tenant, slots: set<Listeners.Slot>, a: Listeners.Slot)
    requires Listeners.Inv(x) && tenant in x.tenants && a in slots && a in x.entries && a.tables == x.tenants[tenant]
    ensures |Counted(x.live, tenant, slots - {a})| == |Counted(x.live, tenant, slots)| + |Listeners.Members(x.sets, x.entries[a])|
  {
    hide Listeners.Filed, Listeners.Needed, Listeners.Apart;
    Listeners.SetIsItsHandles(x, tenant, a);
    var more := set h | h in x.live && h.At() == a;
    assert Counted(x.live, tenant, slots - {a}) == Counted(x.live, tenant, slots) + more;
    assert Counted(x.live, tenant, slots) * more == {};
  }

}
