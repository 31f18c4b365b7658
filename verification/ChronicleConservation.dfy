/** Events are conserved over every run of a command chain, and its disposition tells what became of them. */
module ChronicleConservation {
  import opened Options
  import opened ChronicleCommand
  import opened ChronicleUnitOfWork

  /** A chain: its unit of work, and every commit result handed out so far. */
  datatype Chain = Chain(unit: Unit, results: seq<CommitResult>)

  datatype Step =
    | Loads(source: string, tail: int, route: nat)
    | Applies(aggregate: nat, event: Event)
    | Commits(aggregate: nat)
    | Returns(handling: Handling, values: seq<Value>, scopes: seq<(string, Scope)>)
    | ReturnsResult(handling: Handling, index: nat)
    | NestedEnds(isSuccess: bool)
    | Completes(result: CommandResult, handling: Handling, timeout: Option<Timeout>, world: World)

  function Applied(aggregates: seq<Aggregate>, a: nat, event: Event): seq<Aggregate>
    requires a < |aggregates|
  {
    aggregates[a := aggregates[a].(pending := aggregates[a].pending + [event])]
  }

  /** A unit that has completed is no longer active: nothing loads into it, and its commands have all ended. */
  function Next(c: Chain, s: Step): Chain {
    var u := c.unit;
    match s
    case Loads(source, tail, route) =>
      if u.completed then c else c.(unit := u.(aggregates := u.aggregates + [Aggregate(source, tail, route, [], 0)]))
    case Applies(a, event) =>
      if |u.aggregates| <= a then c
      else c.(unit := u.(aggregates := Applied(u.aggregates, a, event)))
    case Commits(a) => if |u.aggregates| <= a then c else c.(results := c.results + [CommitOf(u.aggregates[a], a)])
    case Returns(h, values, scopes) => if u.completed then c else c.(unit := HandleValues(u, h, values, scopes).0)
    case ReturnsResult(h, i) =>
      if u.completed || |c.results| <= i || |u.aggregates| <= c.results[i].aggregate then c
      else c.(unit := HandleResult(u, h, c.results[i]).0)
    case NestedEnds(isSuccess) => if u.completed || isSuccess then c else c.(unit := u.(nestedFailure := true))
    case Completes(result, h, timeout, w) => if u.completed then c else c.(unit := Complete(u, result, h, timeout, w).0)
  }

  // ---- where the entries came from --------------------------------------------------------------

  predicate Counted(aggregates: seq<Aggregate>) {
    forall i :: 0 <= i < |aggregates| ==> aggregates[i].staged <= |aggregates[i].pending|
  }

  /** The entries of one origin, in order. */
  function Part(entries: seq<Entry>, origins: seq<Option<nat>>, who: Option<nat>): seq<Entry>
    requires |entries| == |origins|
    decreases |entries|
  {
    if entries == [] then [] else
      var n := |entries| - 1;
      Part(entries[..n], origins[..n], who) + if origins[n] == who then [entries[n]] else []
  }

  lemma PartSnoc(entries: seq<Entry>, origins: seq<Option<nat>>, entry: Entry, from: Option<nat>, who: Option<nat>)
    requires |entries| == |origins|
    ensures Part(entries + [entry], origins + [from], who) == Part(entries, origins, who) + if from == who then [entry] else []
  {
    assert (entries + [entry])[..|entries|] == entries && (origins + [from])[..|entries|] == origins;
  }

  lemma {:induction false} PartAppends(entries: seq<Entry>, origins: seq<Option<nat>>, more: seq<Entry>, from: Option<nat>, who: Option<nat>)
    requires |entries| == |origins|
    ensures Part(entries + more, origins + Origins(|more|, from), who) ==
            Part(entries, origins, who) + if from == who then more else []
    decreases |more|
  {
    hide Part;
    if more == [] {
      assert entries + more == entries && origins + Origins(0, from) == origins;
    } else {
      var n := |more| - 1;
      var init := more[..n];
      PartAppends(entries, origins, init, from, who);
      PartSnoc(entries + init, origins + Origins(n, from), more[n], from, who);
      assert entries + more == entries + init + [more[n]];
      assert origins + Origins(|more|, from) == origins + Origins(n, from) + [from];
      assert more == init + [more[n]];
    }
  }

  // ---- what every run keeps ---------------------------------------------------------------------

  /** Every entry has an origin; each origin's entries are what it contributed, in its own order. */
  ghost predicate Accounted(aggregates: seq<Aggregate>, entries: seq<Entry>, origins: seq<Option<nat>>, returned: seq<Entry>) {
    && |entries| == |origins|
    && (forall i :: 0 <= i < |origins| && origins[i].Some? ==> origins[i].value < |aggregates|)
    && Part(entries, origins, None) == returned
    && AllKept(aggregates, entries, origins)
  }

  ghost predicate AllKept(aggregates: seq<Aggregate>, entries: seq<Entry>, origins: seq<Option<nat>>)
    requires |entries| == |origins|
  {
    forall a :: 0 <= a < |aggregates| ==> Kept(entries, origins, aggregates[a], a)
  }

  ghost predicate Kept(entries: seq<Entry>, origins: seq<Option<nat>>, a: Aggregate, id: nat)
    requires |entries| == |origins|
  {
    && a.staged <= |a.pending|
    && Part(entries, origins, Some(id)) == Entries(a.source, a.pending[..a.staged])
  }

  /** A result is a stretch of its aggregate's events. */
  ghost predicate Genuine(aggregates: seq<Aggregate>, r: CommitResult) {
    && r.aggregate < |aggregates|
    && var a := aggregates[r.aggregate];
       && r.start + |r.events| <= |a.pending|
       && r.events == Entries(a.source, a.pending[r.start..r.start + |r.events|])
       && r.guard == Scope(a.tail, a.route)
  }

  /** Whoever staged is guarded by the tail it was loaded at. */
  ghost predicate Guarded(aggregates: seq<Aggregate>, scopes: Scopes) {
    forall i :: 0 <= i < |aggregates| && 0 < aggregates[i].staged ==>
      aggregates[i].source in scopes && scopes[aggregates[i].source] == Scope(aggregates[i].tail, aggregates[i].route)
  }

  /** What the disposition says of the append: it is never a guess, except that a failed wait hides a commit. */
  ghost predicate Sound(u: Unit) {
    && |u.appends| <= 1
    && (!u.completed ==> u.appends == [] && u.disposition.NoCommit?)
    && (u.disposition.NoCommit? ==> u.appends == [])
    && (u.appends != [] ==> u.appends[0].entries == u.entries && u.appends[0].scopes == u.scopes && u.entries != [])
    && (u.disposition.Committed? ==> u.appends != [] && FateOf(u.appends[0]).Stored?)
    && (u.disposition.Unknown? <==> u.appends != [] && FateOf(u.appends[0]).Undecided?)
    && (u.appends != [] && FateOf(u.appends[0]).Refused? ==> u.disposition.NotCommitted?)
    && (u.disposition.NotCommitted? ==> u.entries != [])
  }

  datatype Fate = Stored | Refused | Undecided

  function FateOf(a: Append): Fate {
    if a.reply.Broke? then Undecided
    else if AllStored(a.reply.results, |a.entries|) then Fate.Stored
    else if AllRefused(a.reply.results, |a.entries|) then Fate.Refused
    else Undecided
  }

  ghost predicate Valid(u: Unit) {
    && Accounted(u.aggregates, u.entries, u.origins, u.returned)
    && Guarded(u.aggregates, u.scopes)
    && (u.entries != [] ==> u.store.Some?)
    && Sound(u)
  }

  ghost predicate Inv(c: Chain) {
    && Valid(c.unit)
    && forall i :: 0 <= i < |c.results| ==> Genuine(c.unit.aggregates, c.results[i])
  }

  // ---- staging ----------------------------------------------------------------------------------

  lemma {:induction false} MergeKeeps(known: Scopes, news: seq<(string, Scope)>)
    ensures var (merged, ok) := Merge(known, news);
            && (forall name :: name in known ==> name in merged && merged[name] == known[name])
            && (ok ==> forall i :: 0 <= i < |news| ==> news[i].0 in merged && merged[news[i].0] == news[i].1)
    decreases |news|
  {
    if news != [] && !(news[0].0 in known && known[news[0].0] != news[0].1) {
      var known1 := known[news[0].0 := news[0].1];
      MergeKeeps(known1, news[1..]);
      var (merged, ok) := Merge(known, news);
      assert (merged, ok) == Merge(known1, news[1..]);
      forall i | 0 <= i < |news| && ok ensures news[i].0 in merged && merged[news[i].0] == news[i].1 {
        if i == 0 {
          assert news[0].0 in known1;
        } else {
          assert news[i] == news[1..][i - 1];
        }
      }
    }
  }

  /** Staging only adds: what was known stays, and a refused batch leaves the entries alone. */
  predicate OnlyStages(u: Unit, u1: Unit) {
    && u1.context == u.context && u1.aggregates == u.aggregates && u1.nestedFailure == u.nestedFailure
    && u1.completed == u.completed && u1.disposition == u.disposition && u1.returned == u.returned
    && u1.origins == u.origins && u1.appends == u.appends
  }

  lemma StageKeeps(u: Unit, store: Store, context: Context, entries: seq<Entry>, scopes: seq<(string, Scope)>)
    ensures var (u1, ok) := Stage(u, store, context, entries, scopes);
            && OnlyStages(u, u1) && u1.entries == (if ok then u.entries + entries else u.entries)
            && (u.store.Some? ==> u1.store == u.store) && (ok ==> u1.store.Some?)
            && (forall name :: name in u.scopes ==> name in u1.scopes && u1.scopes[name] == u.scopes[name])
            && (ok ==> forall i :: 0 <= i < |scopes| ==> scopes[i].0 in u1.scopes && u1.scopes[scopes[i].0] == scopes[i].1)
  {
    MergeKeeps(u.scopes, scopes);
  }

  lemma ReturnedIsAccounted(aggregates: seq<Aggregate>, entries: seq<Entry>, origins: seq<Option<nat>>, returned: seq<Entry>, more: seq<Entry>)
    requires Accounted(aggregates, entries, origins, returned)
    ensures Accounted(aggregates, entries + more, origins + Origins(|more|, None), returned + more)
  {
    var origins' := origins + Origins(|more|, None);
    PartAppends(entries, origins, more, None, None);
    forall a | 0 <= a < |aggregates| ensures Kept(entries + more, origins', aggregates[a], a) {
      assert Kept(entries, origins, aggregates[a], a);
      PartAppends(entries, origins, more, None, Some(a));
    }
    hide Part, Kept;
  }

  lemma HandleValuesKeeps(u: Unit, h: Handling, values: seq<Value>, scopes: seq<(string, Scope)>)
    requires Valid(u) && !u.completed
    ensures Valid(HandleValues(u, h, values, scopes).0)
  {
    var entries := ResolveAll(values, h.selected);
    if values != [] && Admits(h, entries) {
      StageKeeps(u, h.store, h.context, entries, scopes);
      ReturnedIsAccounted(u.aggregates, u.entries, u.origins, u.returned, entries);
      hide Stage, Admits, ResolveAll, Accounted;
    }
  }

  /** A stretch of events that starts where the staged ones end prolongs them. */
  lemma StretchExtends(a: Aggregate, r: CommitResult)
    requires a.staged <= |a.pending| && Unstaged(a, r)
    requires r.events == Entries(a.source, a.pending[r.start..r.start + |r.events|])
    ensures Entries(a.source, a.pending[..a.staged]) + r.events == Entries(a.source, a.pending[..a.staged + |r.events|])
  {
  }

  lemma ResultIsAccounted(aggregates: seq<Aggregate>, entries: seq<Entry>, origins: seq<Option<nat>>, returned: seq<Entry>, r: CommitResult)
    requires Accounted(aggregates, entries, origins, returned) && Genuine(aggregates, r) && Unstaged(aggregates[r.aggregate], r)
    ensures Accounted(Moved(aggregates, r), entries + r.events, origins + Origins(|r.events|, Some(r.aggregate)), returned)
  {
    var id := r.aggregate;
    var origins' := origins + Origins(|r.events|, Some(id));
    PartAppends(entries, origins, r.events, Some(id), None);
    assert Kept(entries, origins, aggregates[id], id);
    StretchExtends(aggregates[id], r);
    PartAppends(entries, origins, r.events, Some(id), Some(id));
    assert Kept(entries + r.events, origins', Moved(aggregates, r)[id], id);
    forall a | 0 <= a < |aggregates| && a != id ensures Kept(entries + r.events, origins', aggregates[a], a) {
      assert Kept(entries, origins, aggregates[a], a);
      PartAppends(entries, origins, r.events, Some(id), Some(a));
    }
    hide Part, Kept;
  }

  /** The aggregate whose result was staged moves its cursor. */
  function Moved(aggregates: seq<Aggregate>, r: CommitResult): seq<Aggregate>
    requires r.aggregate < |aggregates|
  {
    var a := aggregates[r.aggregate];
    aggregates[r.aggregate := a.(staged := a.staged + |r.events|)]
  }

  lemma ResultIsGuarded(u: Unit, u1: Unit, r: CommitResult)
    requires Guarded(u.aggregates, u.scopes) && Genuine(u.aggregates, r)
    requires forall name :: name in u.scopes ==> name in u1.scopes && u1.scopes[name] == u.scopes[name]
    requires u.aggregates[r.aggregate].source in u1.scopes && u1.scopes[u.aggregates[r.aggregate].source] == r.guard
    ensures Guarded(Moved(u.aggregates, r), u1.scopes)
    ensures Guarded(u.aggregates, u1.scopes)
  {
  }

  lemma GuardedOn(aggregates: seq<Aggregate>, scopes: Scopes, more: Scopes)
    requires Guarded(aggregates, scopes)
    requires forall name :: name in scopes ==> name in more && more[name] == scopes[name]
    ensures Guarded(aggregates, more)
  {
  }

  /** What `Stage` may change in an open unit without staging anything. */
  lemma ScopedIsValid(u: Unit, store: Option<Store>, scopes: Scopes)
    requires Valid(u) && !u.completed && (u.store.Some? ==> store == u.store)
    requires forall name :: name in u.scopes ==> name in scopes && scopes[name] == u.scopes[name]
    ensures Valid(u.(store := store, scopes := scopes))
  {
    GuardedOn(u.aggregates, u.scopes, scopes);
    hide Accounted, Guarded;
  }

  lemma EnrolledIsValid(u: Unit, r: CommitResult)
    requires Valid(u) && !u.completed && Genuine(u.aggregates, r) && Unstaged(u.aggregates[r.aggregate], r) && u.store.Some?
    requires u.aggregates[r.aggregate].source in u.scopes && u.scopes[u.aggregates[r.aggregate].source] == r.guard
    ensures Valid(u.(entries := u.entries + r.events, aggregates := Moved(u.aggregates, r),
                     origins := u.origins + Origins(|r.events|, Some(r.aggregate))))
  {
    ResultIsGuarded(u, u, r);
    ResultIsAccounted(u.aggregates, u.entries, u.origins, u.returned, r);
    hide Accounted, Guarded, Moved, Origins, Genuine;
  }

  /** All of a result is staged or none of it: then its aggregate alone has moved, and the result is not staged again. */
  lemma EnrolKeeps(u: Unit, h: Handling, r: CommitResult)
    requires Valid(u) && !u.completed && Genuine(u.aggregates, r) && Unstaged(u.aggregates[r.aggregate], r)
    ensures Valid(Enrol(u, h, r).0)
    ensures var (u', ok) := Enrol(u, h, r);
            && u'.entries == (if ok then u.entries + r.events else u.entries)
            && |u'.aggregates| == |u.aggregates|
            && (forall i :: 0 <= i < |u.aggregates| && (i != r.aggregate || !ok) ==> u'.aggregates[i] == u.aggregates[i])
            && (ok ==> u'.aggregates[r.aggregate] == u.aggregates[r.aggregate].(staged := r.start + |r.events|))
            && (ok && r.events != [] ==> !Unstaged(u'.aggregates[r.aggregate], r))
  {
    var a := u.aggregates[r.aggregate];
    var guard := [(a.source, r.guard)];
    assert guard[0] == (a.source, r.guard);
    StageKeeps(u, h.store, h.context, r.events, guard);
    var (staged, ok) := Stage(u, h.store, h.context, r.events, guard);
    ScopedIsValid(u, staged.store, staged.scopes);
    var scoped := u.(store := staged.store, scopes := staged.scopes);
    if ok {
      EnrolledIsValid(scoped, r);
      assert Enrol(u, h, r).0 == scoped.(entries := u.entries + r.events, aggregates := Moved(u.aggregates, r),
                                         origins := u.origins + Origins(|r.events|, Some(r.aggregate)));
    } else {
      assert Enrol(u, h, r).0 == scoped;
    }
    hide Stage, Valid, Unstaged, Genuine, Origins, Enrol;
  }

  lemma HandleResultKeeps(u: Unit, h: Handling, r: CommitResult)
    requires Valid(u) && !u.completed && Genuine(u.aggregates, r)
    ensures Valid(HandleResult(u, h, r).0)
  {
    if Unstaged(u.aggregates[r.aggregate], r) { EnrolKeeps(u, h, r); }
    hide Enrol, Valid, Admits;
  }

  lemma CommitOfIsGenuine(aggregates: seq<Aggregate>, id: nat)
    requires id < |aggregates| && aggregates[id].staged <= |aggregates[id].pending|
    ensures Genuine(aggregates, CommitOf(aggregates[id], id))
  {
    var a := aggregates[id];
    if a.HasUnstagedEvents() {
      assert a.pending[a.staged..] == a.pending[a.staged..a.staged + |a.pending[a.staged..]|];
    }
  }

  /** Handling moves cursors, and nothing else about an aggregate. */
  ghost predicate SameEvents(before: seq<Aggregate>, after: seq<Aggregate>) {
    && |before| == |after|
    && forall i :: 0 <= i < |before| ==>
         after[i] == before[i].(staged := after[i].staged) && before[i].staged <= after[i].staged <= |after[i].pending|
  }

  /** What handling an aggregate's result leaves alone. */
  ghost predicate Stages(u: Unit, u1: Unit) {
    && SameEvents(u.aggregates, u1.aggregates)
    && u1.completed == u.completed && u1.returned == u.returned && u1.nestedFailure == u.nestedFailure && u1.context == u.context
  }

  lemma StagesOn(u: Unit, u1: Unit, u2: Unit)
    requires Stages(u, u1) && Stages(u1, u2)
    ensures Stages(u, u2)
  {
  }

  lemma HandleResultMoves(u: Unit, h: Handling, r: CommitResult)
    requires r.aggregate < |u.aggregates| && Counted(u.aggregates)
    ensures var (u1, ok) := HandleResult(u, h, r);
            && Stages(u, u1) && Counted(u1.aggregates) && |u1.aggregates| == |u.aggregates|
            && u1.completed == u.completed
            && (ok ==> u1.aggregates[r.aggregate].staged == u.aggregates[r.aggregate].staged + |r.events|)
            && (forall i :: 0 <= i < |u.aggregates| && i != r.aggregate ==> u1.aggregates[i] == u.aggregates[i])
  {
  }

  lemma LeftoverIsStaged(u: Unit, h: Handling, i: nat)
    requires Counted(u.aggregates) && i < |u.aggregates|
    requires forall k :: 0 <= k < i ==> !u.aggregates[k].HasUnstagedEvents()
    ensures var (u1, ok) := HandleResult(u, h, CommitOf(u.aggregates[i], i));
            ok ==> forall k :: 0 <= k < i + 1 ==> |u1.aggregates| == |u.aggregates| && !u1.aggregates[k].HasUnstagedEvents()
  {
    HandleResultMoves(u, h, CommitOf(u.aggregates[i], i));
    hide HandleResult;
  }

  predicate AllStaged(aggregates: seq<Aggregate>) {
    forall k :: 0 <= k < |aggregates| ==> !aggregates[k].HasUnstagedEvents()
  }

  /** When `complete` gets through its aggregates, none of them holds back an event. */
  ghost predicate Left(u: Unit, u1: Unit, ok: bool) {
    Valid(u1) && Stages(u, u1) && (ok ==> AllStaged(u1.aggregates))
  }

  lemma LeftOn(u: Unit, u1: Unit, u2: Unit, ok: bool)
    requires Stages(u, u1) && Left(u1, u2, ok)
    ensures Left(u, u2, ok)
  {
    StagesOn(u, u1, u2);
    hide Valid, Stages, AllStaged;
  }

  lemma {:induction false} StageLeftoversKeeps(u: Unit, h: Handling, i: nat)
    requires Valid(u) && !u.completed && Counted(u.aggregates)
    requires forall k :: 0 <= k < i && k < |u.aggregates| ==> !u.aggregates[k].HasUnstagedEvents()
    ensures var (u1, ok) := StageLeftovers(u, h, i); Left(u, u1, ok)
    decreases |u.aggregates| - i
  {
    if |u.aggregates| <= i {
      assert Left(u, u, true);
    } else if !u.aggregates[i].HasUnstagedEvents() {
      StageLeftoversKeeps(u, h, i + 1);
    } else {
      LeftoverKeeps(u, h, i);
      var (u1, ok) := HandleResult(u, h, CommitOf(u.aggregates[i], i));
      if ok {
        StageLeftoversKeeps(u1, h, i + 1);
        LeftOn(u, u1, StageLeftovers(u1, h, i + 1).0, StageLeftovers(u1, h, i + 1).1);
      }
    }
    hide Left, HandleResult, Valid;
  }

  lemma LeftoverKeeps(u: Unit, h: Handling, i: nat)
    requires Valid(u) && !u.completed && Counted(u.aggregates) && i < |u.aggregates|
    requires forall k :: 0 <= k < i ==> !u.aggregates[k].HasUnstagedEvents()
    ensures var (u1, ok) := HandleResult(u, h, CommitOf(u.aggregates[i], i));
            && Valid(u1) && Stages(u, u1) && !u1.completed && Counted(u1.aggregates) && |u1.aggregates| == |u.aggregates|
            && (ok ==> forall k :: 0 <= k < i + 1 ==> !u1.aggregates[k].HasUnstagedEvents())
            && (!ok ==> Left(u, u1, false))
  {
    var r := CommitOf(u.aggregates[i], i);
    CommitOfIsGenuine(u.aggregates, i);
    HandleResultKeeps(u, h, r);
    HandleResultMoves(u, h, r);
    LeftoverIsStaged(u, h, i);
    hide Valid, HandleResult, Stages, AllStaged;
  }

  lemma CommitKeeps(u: Unit, result: CommandResult, timeout: Option<Timeout>, w: World)
    requires Valid(u) && !u.completed
    ensures Valid(Commit(u, result, timeout, w).0)
  {
    hide Accounted, Guarded, Issues, Distinct, AllStored, AllRefused;
  }

  lemma ValidCounts(u: Unit)
    requires Valid(u)
    ensures Counted(u.aggregates)
  {
    forall i | 0 <= i < |u.aggregates| ensures u.aggregates[i].staged <= |u.aggregates[i].pending| {
      assert Kept(u.entries, u.origins, u.aggregates[i], i);
    }
  }

  lemma CompleteKeeps(u: Unit, result: CommandResult, h: Handling, timeout: Option<Timeout>, w: World)
    requires Valid(u) && !u.completed && Counted(u.aggregates)
    ensures Valid(Complete(u, result, h, timeout, w).0)
    ensures SameEvents(u.aggregates, Complete(u, result, h, timeout, w).0.aggregates)
  {
    hide Valid;
    var (u1, ok) := if result.isSuccess then StageLeftovers(u, h.(context := u.context), 0) else (u, true);
    if result.isSuccess { StageLeftoversKeeps(u, h.(context := u.context), 0); }
    if ok { CommitKeeps(u1, result, timeout, w); }
  }

  // ---- the run ----------------------------------------------------------------------------------

  lemma SameEventsGenuine(before: seq<Aggregate>, after: seq<Aggregate>, results: seq<CommitResult>)
    requires SameEvents(before, after) && forall i :: 0 <= i < |results| ==> Genuine(before, results[i])
    ensures forall i :: 0 <= i < |results| ==> Genuine(after, results[i])
  {
    forall i | 0 <= i < |results| ensures Genuine(after, results[i]) {
      assert Genuine(before, results[i]);
    }
  }

  /** An aggregate that loads, or applies an event, leaves what is staged where it was. */
  lemma LoadsKeeps(c: Chain, s: Step)
    requires Inv(c) && Counted(c.unit.aggregates) && s.Loads?
    ensures Inv(Next(c, s))
  {
    var u, u' := c.unit, Next(c, s).unit;
    if !u.completed {
      var id := |u.aggregates|;
      NobodyStaged(u.entries, u.origins, id);
      forall a | 0 <= a < |u'.aggregates| ensures Kept(u'.entries, u'.origins, u'.aggregates[a], a) {
        if a < id { assert Kept(u.entries, u.origins, u.aggregates[a], a); }
      }
      hide Part;
      forall i | 0 <= i < |c.results| ensures Genuine(u'.aggregates, c.results[i]) {
        assert Genuine(u.aggregates, c.results[i]);
      }
    }
  }

  lemma {:induction false} NobodyStaged(entries: seq<Entry>, origins: seq<Option<nat>>, id: nat)
    requires |entries| == |origins|
    requires forall i :: 0 <= i < |origins| && origins[i].Some? ==> origins[i].value < id
    ensures Part(entries, origins, Some(id)) == []
    decreases |entries|
  {
    if entries != [] { NobodyStaged(entries[..|entries| - 1], origins[..|entries| - 1], id); }
  }

  lemma AppliedIsKept(aggregates: seq<Aggregate>, entries: seq<Entry>, origins: seq<Option<nat>>, id: nat, event: Event)
    requires |entries| == |origins| && AllKept(aggregates, entries, origins) && id < |aggregates|
    ensures AllKept(Applied(aggregates, id, event), entries, origins)
  {
    var a := aggregates[id];
    forall i | 0 <= i < |aggregates| ensures Kept(entries, origins, Applied(aggregates, id, event)[i], i) {
      assert Kept(entries, origins, aggregates[i], i);
      assert (a.pending + [event])[..a.staged] == a.pending[..a.staged];
    }
  }

  lemma AppliedIsGenuine(aggregates: seq<Aggregate>, id: nat, event: Event, r: CommitResult)
    requires Genuine(aggregates, r) && id < |aggregates|
    ensures Genuine(Applied(aggregates, id, event), r)
  {
    var a := aggregates[r.aggregate];
    assert (a.pending + [event])[r.start..r.start + |r.events|] == a.pending[r.start..r.start + |r.events|];
  }

  lemma AppliesKeeps(c: Chain, s: Step)
    requires Inv(c) && Counted(c.unit.aggregates) && s.Applies?
    ensures Inv(Next(c, s))
  {
    var u := c.unit;
    if s.aggregate < |u.aggregates| {
      AppliedIsKept(u.aggregates, u.entries, u.origins, s.aggregate, s.event);
      forall i | 0 <= i < |c.results| ensures Genuine(Applied(u.aggregates, s.aggregate, s.event), c.results[i]) {
        AppliedIsGenuine(u.aggregates, s.aggregate, s.event, c.results[i]);
      }
      hide Genuine, AllKept, Part;
    }
  }

  lemma CommitsKeeps(c: Chain, s: Step)
    requires Inv(c) && Counted(c.unit.aggregates) && s.Commits?
    ensures Inv(Next(c, s))
  {
    if s.aggregate < |c.unit.aggregates| { CommitOfIsGenuine(c.unit.aggregates, s.aggregate); }
    hide Valid, Genuine;
  }

  lemma ReturnsKeeps(c: Chain, s: Step)
    requires Inv(c) && s.Returns?
    ensures Inv(Next(c, s))
  {
    var u := c.unit;
    if !u.completed {
      HandleValuesKeeps(u, s.handling, s.values, s.scopes);
      HandleValuesMoves(u, s.handling, s.values, s.scopes);
    }
    hide Valid, HandleValues, Genuine;
  }

  lemma HandleValuesMoves(u: Unit, h: Handling, values: seq<Value>, scopes: seq<(string, Scope)>)
    ensures HandleValues(u, h, values, scopes).0.aggregates == u.aggregates
  {
  }

  lemma ReturnsResultKeeps(c: Chain, s: Step)
    requires Inv(c) && Counted(c.unit.aggregates) && s.ReturnsResult?
    ensures Inv(Next(c, s))
  {
    var u := c.unit;
    if !u.completed && s.index < |c.results| {
      var r := c.results[s.index];
      assert Genuine(u.aggregates, r);
      HandleResultKeeps(u, s.handling, r);
      HandleResultMoves(u, s.handling, r);
      SameEventsGenuine(u.aggregates, HandleResult(u, s.handling, r).0.aggregates, c.results);
    }
    hide Valid, HandleResult, Genuine, SameEvents;
  }

  lemma NestedEndsKeeps(c: Chain, s: Step)
    requires Inv(c) && s.NestedEnds?
    ensures Inv(Next(c, s))
  {
    hide Accounted, Guarded, Genuine;
  }

  lemma CompletesKeeps(c: Chain, s: Step)
    requires Inv(c) && Counted(c.unit.aggregates) && s.Completes?
    ensures Inv(Next(c, s))
  {
    var u := c.unit;
    hide Complete;
    if !u.completed {
      CompleteKeeps(u, s.result, s.handling, s.timeout, s.world);
      SameEventsGenuine(u.aggregates, Complete(u, s.result, s.handling, s.timeout, s.world).0.aggregates, c.results);
    }
    hide Valid, Genuine, SameEvents;
  }

  lemma NextKeeps(c: Chain, s: Step)
    requires Inv(c) && Counted(c.unit.aggregates)
    ensures Inv(Next(c, s)) && Counted(Next(c, s).unit.aggregates)
  {
    hide Inv, Next, Counted;
    match s {
      case Loads(_, _, _) => LoadsKeeps(c, s);
      case Applies(_, _) => AppliesKeeps(c, s);
      case Commits(_) => CommitsKeeps(c, s);
      case Returns(_, _, _) => ReturnsKeeps(c, s);
      case ReturnsResult(_, _) => ReturnsResultKeeps(c, s);
      case NestedEnds(_) => NestedEndsKeeps(c, s);
      case Completes(_, _, _, _) => CompletesKeeps(c, s);
    }
    InvCounts(Next(c, s));
  }

  lemma InvCounts(c: Chain)
    requires Inv(c)
    ensures Counted(c.unit.aggregates)
  {
    ValidCounts(c.unit);
  }

  function Run(context: Context, trace: seq<Step>): Chain {
    if trace == [] then Chain(Begin(context), []) else Next(Run(context, trace[..|trace| - 1]), trace[|trace| - 1])
  }

  lemma {:induction false} RunKeeps(context: Context, trace: seq<Step>)
    ensures Inv(Run(context, trace)) && Counted(Run(context, trace).unit.aggregates)
  {
    if trace != [] {
      RunKeeps(context, trace[..|trace| - 1]);
      hide Inv, Next, Counted;
      NextKeeps(Run(context, trace[..|trace| - 1]), trace[|trace| - 1]);
    }
  }

  // ---- conservation -----------------------------------------------------------------------------

  /** The whole pending list of one aggregate, as entries. */
  function Everything(a: Aggregate): seq<Entry> {
    Entries(a.source, a.pending)
  }

  /** A batch holds every returned event and every applied event, once, each origin's in its own order, and nothing else. */
  ghost predicate Conserves(batch: Append, u: Unit) {
    && |u.origins| == |batch.entries|
    && Part(batch.entries, u.origins, None) == u.returned
    && (forall a :: 0 <= a < |u.aggregates| ==> Part(batch.entries, u.origins, Some(a)) == Everything(u.aggregates[a]))
    && (forall i :: 0 <= i < |u.origins| && u.origins[i].Some? ==> u.origins[i].value < |u.aggregates|)
  }

  /** Every aggregate with events is appended under the tail it was loaded at. */
  ghost predicate Optimistic(batch: Append, u: Unit) {
    forall a :: 0 <= a < |u.aggregates| && u.aggregates[a].pending != [] ==>
      && u.aggregates[a].source in batch.scopes
      && batch.scopes[u.aggregates[a].source] == Scope(u.aggregates[a].tail, u.aggregates[a].route)
  }

  lemma StagedIsEverything(u: Unit)
    requires Valid(u) && AllStaged(u.aggregates) && u.appends != []
    ensures Conserves(u.appends[0], u) && Optimistic(u.appends[0], u)
  {
    forall a | 0 <= a < |u.aggregates|
      ensures Part(u.entries, u.origins, Some(a)) == Everything(u.aggregates[a])
      ensures u.aggregates[a].staged == |u.aggregates[a].pending|
    {
      assert Kept(u.entries, u.origins, u.aggregates[a], a);
      assert u.aggregates[a].pending[..u.aggregates[a].staged] == u.aggregates[a].pending;
    }
  }

  lemma CommitChanges(u: Unit, result: CommandResult, timeout: Option<Timeout>, w: World)
    ensures var u' := Commit(u, result, timeout, w).0;
            && u' == u.(completed := true, disposition := u'.disposition, appends := u'.appends)
            && (u'.appends != u.appends ==> result.isSuccess && !u.nestedFailure)
  {
  }

  /**
   * Event conservation: whatever was loaded, applied, committed and returned before, when completing the chain reaches
   * `appendMany`, that one call receives every returned event and every event applied to a tracked aggregate exactly
   * once, with each aggregate's events in the order they were applied, guarded by the tail its aggregate was loaded at;
   * and it is reached only if neither the root nor a nested command failed.
   */
  lemma AppendConservesEvents(context: Context, trace: seq<Step>, result: CommandResult, h: Handling, timeout: Option<Timeout>, w: World)
    ensures var u := Run(context, trace).unit;
            var u' := Next(Run(context, trace), Completes(result, h, timeout, w)).unit;
            u'.appends != u.appends ==>
              && u.appends == [] && |u'.appends| == 1 && result.isSuccess && !u.nestedFailure
              && u'.returned == u.returned && SameEvents(u.aggregates, u'.aggregates)
              && Conserves(u'.appends[0], u') && Optimistic(u'.appends[0], u')
  {
    var c := Run(context, trace);
    var u := c.unit;
    RunKeeps(context, trace);
    if !u.completed {
      hide Run;
      var (u1, ok) := if result.isSuccess then StageLeftovers(u, h.(context := u.context), 0) else (u, true);
      if result.isSuccess {
        StageLeftoversKeeps(u, h.(context := u.context), 0);
        if ok {
          CommitKeeps(u1, result, timeout, w);
          CommitChanges(u1, result, timeout, w);
          var u2 := Commit(u1, result, timeout, w).0;
          hide Commit, Conserves, Optimistic, StageLeftovers;
          if u2.appends != [] { StagedIsEverything(u2); }
        }
      }
    }
  }

  // ---- failure ----------------------------------------------------------------------------------

  /** Once a nested command has failed, or the chain has completed without an append, nothing is ever appended. */
  ghost predicate Doomed(u: Unit) {
    u.appends == [] && (u.nestedFailure || u.completed)
  }

  lemma DoomLasts(c: Chain, s: Step)
    requires Inv(c) && Counted(c.unit.aggregates) && Doomed(c.unit)
    ensures Doomed(Next(c, s).unit)
  {
    var u := c.unit;
    if s.Completes? && !u.completed {
      var (u1, ok) := if s.result.isSuccess then StageLeftovers(u, s.handling.(context := u.context), 0) else (u, true);
      if s.result.isSuccess { StageLeftoversKeeps(u, s.handling.(context := u.context), 0); }
      assert u1.nestedFailure && u1.appends == [];
      if ok { CommitChanges(u1, s.result, s.timeout, s.world); }
      hide Valid, StageLeftovers, Commit;
    } else {
      hide Valid;
    }
  }

  lemma RunOn(context: Context, trace: seq<Step>, s: Step)
    ensures Run(context, trace + [s]) == Next(Run(context, trace), s)
  {
    assert (trace + [s])[..|trace|] == trace;
  }

  lemma {:induction false} DoomedRunsAppendNothing(context: Context, before: seq<Step>, after: seq<Step>)
    requires Doomed(Run(context, before).unit)
    ensures Doomed(Run(context, before + after).unit)
    decreases |after|
  {
    hide Doomed, Inv, Next, Run;
    if after == [] {
      assert before + after == before;
    } else {
      var n := |after| - 1;
      DoomedRunsAppendNothing(context, before, after[..n]);
      RunKeeps(context, before + after[..n]);
      DoomLasts(Run(context, before + after[..n]), after[n]);
      RunOn(context, before + after[..n], after[n]);
      assert before + after == before + after[..n] + [after[n]];
    }
  }

  /**
   * If a nested command fails while the chain is open, or the root command fails, then nothing of the chain is ever
   * appended, whatever else happens before or afterwards.
   */
  lemma FailedChainsAppendNothing(context: Context, before: seq<Step>, failure: Step, after: seq<Step>)
    requires !Run(context, before).unit.completed
    requires failure == NestedEnds(false) || (failure.Completes? && !failure.result.isSuccess)
    ensures Run(context, before + [failure] + after).unit.appends == []
  {
    hide Run, Next;
    RunKeeps(context, before);
    RunOn(context, before, failure);
    FailureDooms(Run(context, before), failure);
    DoomedRunsAppendNothing(context, before + [failure], after);
  }

  lemma FailureDooms(c: Chain, failure: Step)
    requires Inv(c) && !c.unit.completed
    requires failure == NestedEnds(false) || (failure.Completes? && !failure.result.isSuccess)
    ensures Doomed(Next(c, failure).unit)
  {
    assert Sound(c.unit);
    hide Accounted, Guarded;
  }

  // ---- disposition ------------------------------------------------------------------------------

  /**
   * What a caller is told, after any run. A chain that neither staged nor holds an event reports `NoCommit`, and no
   * other; `Committed` only once the append was acknowledged in full; `Unknown` exactly when it was invoked and its
   * outcome is not decisive; what was staged and refused, or not appended at all, is `NotCommitted`.
   */
  lemma DispositionIsSound(context: Context, trace: seq<Step>, asked: Context)
    requires asked.correlation == Run(context, trace).unit.context.correlation
    ensures var u := Run(context, trace).unit;
            var told := ReportedDisposition(u, asked);
            && |u.appends| <= 1
            && (told.NoCommit? <==> !HasStagedEvents(u))
            && (told.Committed? ==> u.appends != [] && FateOf(u.appends[0]).Stored?)
            && (told.Unknown? <==> u.appends != [] && FateOf(u.appends[0]).Undecided?)
            && (u.appends != [] && FateOf(u.appends[0]).Refused? ==> told.NotCommitted?)
            && (u.appends == [] && HasStagedEvents(u) ==> told.NotCommitted?)
  {
    RunKeeps(context, trace);
    hide Run, Accounted, Guarded;
  }

  /** What a caller can rely on after `commit`: a stored batch is reported as committed, and nothing else is. */
  predicate Honest(u: Unit, u': Unit) {
    u'.disposition.Committed? <==> |u.appends| < |u'.appends| && FateOf(u'.appends[|u'.appends| - 1]).Stored?
  }

  /**
   * Nothing is waited for, or the wait ends well: the timeout is a whole number of milliseconds from 1 to 2^53 - 1, and the
   * signal was aborted, or the wait is cancelled, or every observer finishes without a failed partition.
   */
  predicate WaitEndsWell(timeout: Option<Timeout>, aborted: bool, completion: Completion) {
    || timeout == None
    || (exists ms :: 1 <= ms <= 9007199254740991 && timeout == Some(Milliseconds(ms))
                     && (aborted || completion == Cancelled || completion == Finished(true, 0)))
  }

  lemma WaitThrowsExactly(timeout: Option<Timeout>, aborted: bool, completion: Completion)
    ensures WaitThrows(timeout, aborted, completion) <==> !WaitEndsWell(timeout, aborted, completion)
  {
    if !WaitThrows(timeout, aborted, completion) && timeout.Some? {
      var ms := timeout.value.value;
      assert 1 <= ms <= 9007199254740991 && timeout == Some(Milliseconds(ms));
    }
  }

  /** `commit` settles its disposition, case by case. */
  lemma CommitDecides(u: Unit, result: CommandResult, timeout: Option<Timeout>, w: World)
    requires !u.completed && u.disposition.NoCommit?
    ensures var (u', r) := Commit(u, result, timeout, w);
            var open := result.isSuccess && !u.nestedFailure && u.entries != [];
            var fate := FateOf(Append(u.entries, u.scopes, w.reply));
            && (u'.disposition.NoCommit? <==> !open)
            && (u'.disposition.Unknown? <==> open && !w.aborted && fate.Undecided?)
            && (u'.disposition.Committed? <==>
                  open && !w.aborted && fate.Stored? && WaitEndsWell(timeout, w.abortedLater, w.completion))
            && (u'.appends != u.appends <==> open && !w.aborted)
            && (r.isSuccess <==> result.isSuccess && !u.nestedFailure && (u.entries == [] || u'.disposition.Committed?))
            && (u'.disposition.NotCommitted? && fate.Refused? && !w.aborted ==>
                  r.issues == Issues(Distinct(Violations(w.reply.results))))
  {
    WaitThrowsExactly(timeout, w.abortedLater, w.completion);
    hide Issues, Distinct, Violations, AllStored, AllRefused, WaitThrows, WaitEndsWell;
  }

  /**
   * `NotCommitted` does not always mean that nothing was stored: when the wait for the observers throws after a complete
   * acknowledgement, the batch is stored and yet reported as not committed. A unit with something to append reports
   * honestly, whatever the world does, exactly when no completion timeout is configured.
   */
  lemma HonestExactlyWithoutWaiting(u: Unit, result: CommandResult, timeout: Option<Timeout>)
    requires !u.completed && u.disposition.NoCommit? && u.entries != [] && result.isSuccess && !u.nestedFailure
    ensures (forall w :: Honest(u, Commit(u, result, timeout, w).0)) <==> timeout.None?
  {
    forall w | timeout.None? ensures Honest(u, Commit(u, result, timeout, w).0) {
      CommitDecides(u, result, timeout, w);
      assert u.appends + [Append(u.entries, u.scopes, w.reply)] != u.appends;
    }
    if timeout.Some? {
      var stored := seq(|u.entries|, i => AppendResult(Yes, [], None, []));
      var w := World(false, Answered(stored), false, Completion.Failed);
      CommitDecides(u, result, timeout, w);
      assert AllStored(stored, |u.entries|);
      assert !Honest(u, Commit(u, result, timeout, w).0);
    }
  }

  // ---- one response value at a time -------------------------------------------------------------

  /**
   * `handle` awaits between its check and its last part. Were one result let through the check twice before it is
   * staged, its events would be in the batch twice, and the aggregate's cursor past its last event: a chain conserves
   * events because it handles its response values one at a time.
   */
  lemma OverlappingHandlesDuplicate(u: Unit, h: Handling, r: CommitResult)
    requires Valid(u) && !u.completed && Genuine(u.aggregates, r) && r.events != [] && Enrol(u, h, r).1
    requires u.aggregates[r.aggregate].staged == r.start && |u.aggregates[r.aggregate].pending| == r.start + |r.events|
    ensures var u2 := Enrol(Enrol(u, h, r).0, h, r).0;
            && |u2.entries| == |u2.origins|
            && Part(u2.entries, u2.origins, Some(r.aggregate)) == Everything(u2.aggregates[r.aggregate]) + r.events
            && |u2.aggregates[r.aggregate].pending| < u2.aggregates[r.aggregate].staged
  {
    var id := r.aggregate;
    var a := u.aggregates[id];
    var guard := [(a.source, r.guard)];
    assert guard[0] == (a.source, r.guard);
    var u1 := Enrol(u, h, r).0;
    StageKeeps(u, h.store, h.context, r.events, guard);
    EnrolKeeps(u, h, r);
    assert u1.aggregates[id] == a.(staged := |a.pending|);
    assert Part(u1.entries, u1.origins, Some(id)) == Everything(a) by {
      assert Kept(u1.entries, u1.origins, u1.aggregates[id], id);
      assert a.pending[..|a.pending|] == a.pending;
    }
    assert Enrol(u1, h, r).1 by { assert Merge(u1.scopes, guard).1; }
    hide Valid, Part, Genuine;
    PartAppends(u1.entries, u1.origins, r.events, Some(id), Some(id));
  }
}
