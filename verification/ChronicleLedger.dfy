/**
 * The books of a command chain, kept from its steps alone: which values its commands returned, which events its aggregates
 * applied, and when its batch is appended. What `ChronicleConservation` says of the chain's own records is thereby said of
 * what happened.
 */
module ChronicleLedger {
  import opened Options
  import opened ChronicleCommand
  import opened ChronicleUnitOfWork
  import opened ChronicleConservation

  // ---- returned values --------------------------------------------------------------------------

  /** One entry a value, in order: the value's event, under its own event source or the selected one. */
  predicate Carries(entries: seq<Entry>, values: seq<Value>, selected: string) {
    && |entries| == |values|
    && forall i :: 0 <= i < |values| ==>
         entries[i].event == values[i].event && entries[i].source == if values[i].Routed? then values[i].source else selected
  }

  /** The scopes contradict neither what is known nor one another. */
  predicate Agree(known: Scopes, news: seq<(string, Scope)>) {
    && (forall i :: 0 <= i < |news| && news[i].0 in known ==> known[news[i].0] == news[i].1)
    && (forall i, j :: 0 <= i < j < |news| && news[i].0 == news[j].0 ==> news[i].1 == news[j].1)
  }

  /** A unit takes events from this command: it is open, of the same chain, and writes to the same store. */
  predicate Open(u: Unit, h: Handling) {
    !u.completed && h.context == u.context && (u.store.Some? ==> u.store.value == h.store)
  }

  /** Every event is registered and every event source has a name; the command was not cancelled. */
  predicate Sendable(h: Handling, values: seq<Value>) {
    && (forall i :: 0 <= i < |values| ==>
          values[i].event.kind in h.registered && (values[i].Routed? ==> !Blank(values[i].source)))
    && !Blank(h.selected) && !h.aborted
  }

  lemma {:induction false} MergeAgrees(known: Scopes, news: seq<(string, Scope)>)
    ensures Merge(known, news).1 <==> Agree(known, news)
    decreases |news|
  {
    if news == [] {
    } else if news[0].0 in known && known[news[0].0] != news[0].1 {
      assert !Agree(known, news);
    } else {
      var known1 := known[news[0].0 := news[0].1];
      MergeAgrees(known1, news[1..]);
      if Agree(known, news) {
        forall i | 0 <= i < |news[1..]| && news[1..][i].0 in known1 ensures known1[news[1..][i].0] == news[1..][i].1 {
          assert news[1..][i] == news[i + 1];
        }
        assert Agree(known1, news[1..]);
      }
      if Agree(known1, news[1..]) {
        forall i | 0 <= i < |news| && news[i].0 in known ensures known[news[i].0] == news[i].1 {
          if i != 0 { assert news[i] == news[1..][i - 1]; }
        }
        forall i, j | 0 <= i < j < |news| && news[i].0 == news[j].0 ensures news[i].1 == news[j].1 {
          assert news[j] == news[1..][j - 1];
          if i != 0 { assert news[i] == news[1..][i - 1]; }
        }
      }
    }
  }

  /** Events are staged exactly when the unit is open to them and their scopes contradict nothing. */
  lemma StagedExactly(u: Unit, h: Handling, entries: seq<Entry>, scopes: seq<(string, Scope)>)
    ensures Stage(u, h.store, h.context, entries, scopes).1 <==> Open(u, h) && Agree(u.scopes, scopes)
  {
    MergeAgrees(u.scopes, scopes);
    hide Merge, Agree;
  }

  /**
   * A command that returns events has every one of them staged, each once and in order, or none; and it has them staged
   * exactly when they can be sent, the unit is open to it, and their scopes contradict nothing.
   */
  lemma ReturnedValuesAreStaged(u: Unit, h: Handling, values: seq<Value>, scopes: seq<(string, Scope)>)
    ensures var (u', ok) := HandleValues(u, h, values, scopes);
            && (ok <==> values == [] || (Sendable(h, values) && Open(u, h) && Agree(u.scopes, scopes)))
            && (ok ==> |u'.returned| == |u.returned| + |values| && u'.returned[..|u.returned|] == u.returned
                       && Carries(u'.returned[|u.returned|..], values, h.selected)
                       && u'.entries == u.entries + u'.returned[|u.returned|..])
            && (!ok ==> u'.returned == u.returned && u'.entries == u.entries)
            && u'.aggregates == u.aggregates && u'.appends == u.appends && u'.completed == u.completed
  {
    if values != [] {
      var entries := ResolveAll(values, h.selected);
      AdmitsExactly(h, values);
      StagedExactly(u, h, entries, scopes);
      StageKeeps(u, h.store, h.context, entries, scopes);
      assert Carries(entries, values, h.selected);
      hide Admits, Sendable, Stage, Agree, Open, ResolveAll, Blank, Carries;
      var (u', ok) := HandleValues(u, h, values, scopes);
      if ok {
        assert u'.returned == u.returned + entries;
        assert u'.returned[|u.returned|..] == entries;
      }
    }
  }

  lemma AdmitsExactly(h: Handling, values: seq<Value>)
    ensures Admits(h, ResolveAll(values, h.selected)) <==> Sendable(h, values)
  {
    var entries := ResolveAll(values, h.selected);
    assert forall i :: 0 <= i < |values| ==> entries[i] == Resolve(values[i], h.selected);
    if Admits(h, entries) {
      forall i | 0 <= i < |values|
        ensures values[i].event.kind in h.registered && (values[i].Routed? ==> !Blank(values[i].source))
      {
        assert entries[i].event.kind in h.registered && !Blank(entries[i].source);
      }
    }
    hide Blank;
  }

  // ---- the ledger of a run ----------------------------------------------------------------------

  datatype Block = Block(values: seq<Value>, selected: string)

  /** What the accepted returns of a run carried, in order. */
  function Returned(context: Context, trace: seq<Step>): seq<Block> {
    if trace == [] then []
    else
      var last := |trace| - 1;
      Returned(context, trace[..last]) + ReturnedBy(Run(context, trace[..last]).unit, trace[last])
  }

  function ReturnedBy(u: Unit, s: Step): seq<Block> {
    if s.Returns? && !u.completed && s.values != [] && Sendable(s.handling, s.values) && Open(u, s.handling) && Agree(u.scopes, s.scopes)
    then [Block(s.values, s.handling.selected)] else []
  }

  /** The entries are those of the blocks, one after the other. */
  predicate Spells(entries: seq<Entry>, blocks: seq<Block>)
    decreases |blocks|
  {
    if blocks == [] then entries == []
    else
      var last := blocks[|blocks| - 1];
      && |last.values| <= |entries|
      && Carries(entries[|entries| - |last.values|..], last.values, last.selected)
      && Spells(entries[..|entries| - |last.values|], blocks[..|blocks| - 1])
  }

  lemma SpellsOn(entries: seq<Entry>, blocks: seq<Block>, more: seq<Entry>, block: Block)
    requires Spells(entries, blocks) && Carries(more, block.values, block.selected)
    ensures Spells(entries + more, blocks + [block])
  {
    assert (entries + more)[|entries|..] == more && (entries + more)[..|entries|] == entries;
    assert (blocks + [block])[..|blocks|] == blocks;
  }

  /** The events one aggregate was told to apply, in order. */
  function AppliedTo(context: Context, trace: seq<Step>, a: nat): seq<Event> {
    if trace == [] then []
    else
      var last := |trace| - 1;
      AppliedTo(context, trace[..last], a)
      + if trace[last].Applies? && trace[last].aggregate == a && a < |Run(context, trace[..last]).unit.aggregates| then [trace[last].event]
        else []
  }

  /** The aggregates a run has loaded, in order: event source, tail and route. */
  function Loaded(context: Context, trace: seq<Step>): seq<(string, int, nat)> {
    if trace == [] then []
    else
      var last := |trace| - 1;
      Loaded(context, trace[..last])
      + if trace[last].Loads? && !Run(context, trace[..last]).unit.completed then [(trace[last].source, trace[last].tail, trace[last].route)]
        else []
  }

  /** The unit's own records are what happened. */
  ghost predicate Booked(context: Context, trace: seq<Step>) {
    var u := Run(context, trace).unit;
    Spells(u.returned, Returned(context, trace)) && AggregatesBooked(context, trace, u.aggregates)
  }

  /** What a step does to the aggregates, but for their cursors. */
  predicate Moves(before: seq<Aggregate>, after: seq<Aggregate>, u: Unit, s: Step) {
    && |after| == |before| + (if s.Loads? && !u.completed then 1 else 0)
    && (forall a :: 0 <= a < |before| ==>
          && after[a].source == before[a].source && after[a].tail == before[a].tail && after[a].route == before[a].route
          && after[a].pending == before[a].pending + if s.Applies? && s.aggregate == a then [s.event] else [])
    && (|before| < |after| && s.Loads? ==>
          && after[|before|].source == s.source && after[|before|].tail == s.tail && after[|before|].route == s.route
          && after[|before|].pending == [])
  }

  lemma SameMoves(before: seq<Aggregate>, after: seq<Aggregate>, u: Unit, s: Step)
    requires SameEvents(before, after) && !s.Loads? && !s.Applies?
    ensures Moves(before, after, u, s)
  {
    forall a | 0 <= a < |before| ensures after[a].pending == before[a].pending && after[a].source == before[a].source {
      assert after[a] == before[a].(staged := after[a].staged);
    }
  }

  lemma CompletionMoves(u: Unit, result: CommandResult, h: Handling, timeout: Option<Timeout>, w: World)
    requires Valid(u) && !u.completed && Counted(u.aggregates)
    ensures var u' := Complete(u, result, h, timeout, w).0; SameEvents(u.aggregates, u'.aggregates) && u'.returned == u.returned
  {
    CompleteKeeps(u, result, h, timeout, w);
    hide Valid;
    var (u1, ok) := if result.isSuccess then StageLeftovers(u, h.(context := u.context), 0) else (u, true);
    if result.isSuccess { StageLeftoversKeeps(u, h.(context := u.context), 0); }
    if ok { CommitChanges(u1, result, timeout, w); }
    hide StageLeftovers, Commit, SameEvents;
  }

  /** A step adds to the returned events exactly what it returns. */
  predicate Returns(u: Unit, u': Unit, s: Step) {
    if ReturnedBy(u, s) == [] then u'.returned == u.returned
    else && |u.returned| <= |u'.returned| && u'.returned[..|u.returned|] == u.returned
         && Carries(u'.returned[|u.returned|..], s.values, s.handling.selected)
  }

  lemma ReturningIsBooked(c: Chain, s: Step)
    requires s.Returns?
    ensures Moves(c.unit.aggregates, Next(c, s).unit.aggregates, c.unit, s) && Returns(c.unit, Next(c, s).unit, s)
  {
    var u := c.unit;
    ReturnedValuesAreStaged(u, s.handling, s.values, s.scopes);
    hide HandleValues, Sendable, Agree, Open, Carries;
    if !u.completed && s.values == [] {
      assert u.returned + [] == u.returned;
    }
  }

  lemma LoadingIsBooked(c: Chain, s: Step)
    requires s.Loads? || s.Applies? || s.Commits? || s.NestedEnds?
    ensures Moves(c.unit.aggregates, Next(c, s).unit.aggregates, c.unit, s) && Returns(c.unit, Next(c, s).unit, s)
  {
    hide Carries, CommitOf;
  }

  /** A step moves the aggregates as it says, and adds to the returned events exactly what it returns. */
  lemma StepIsBooked(c: Chain, s: Step)
    requires Inv(c) && Counted(c.unit.aggregates)
    ensures Moves(c.unit.aggregates, Next(c, s).unit.aggregates, c.unit, s) && Returns(c.unit, Next(c, s).unit, s)
  {
    var u := c.unit;
    match s
    case Returns(_, _, _) => ReturningIsBooked(c, s);
    case ReturnsResult(h, i) =>
      hide HandleResult, Moves;
      if !u.completed && i < |c.results| && c.results[i].aggregate < |u.aggregates| {
        HandleResultMoves(u, h, c.results[i]);
      } else {
        assert SameEvents(u.aggregates, u.aggregates);
      }
      hide Inv, SameEvents;
      SameMoves(u.aggregates, Next(c, s).unit.aggregates, u, s);
    case Completes(result, h, timeout, w) =>
      hide Complete, Moves;
      if !u.completed { CompletionMoves(u, result, h, timeout, w); } else { assert SameEvents(u.aggregates, u.aggregates); }
      hide Inv, SameEvents;
      SameMoves(u.aggregates, Next(c, s).unit.aggregates, u, s);
    case _ => LoadingIsBooked(c, s);
  }

  lemma {:induction false} NobodyAppliesEarly(context: Context, trace: seq<Step>, a: nat)
    requires |Run(context, trace).unit.aggregates| <= a
    ensures AppliedTo(context, trace, a) == []
  {
    if trace != [] {
      var last := |trace| - 1;
      var c := Run(context, trace[..last]);
      RunKeeps(context, trace[..last]);
      hide Inv, Next, Counted;
      StepIsBooked(c, trace[last]);
      NobodyAppliesEarly(context, trace[..last], a);
    }
  }

  lemma BookedReturns(c: Chain, s: Step, blocks: seq<Block>)
    requires Inv(c) && Counted(c.unit.aggregates) && Spells(c.unit.returned, blocks)
    ensures Spells(Next(c, s).unit.returned, blocks + ReturnedBy(c.unit, s))
  {
    var u, u' := c.unit, Next(c, s).unit;
    StepIsBooked(c, s);
    hide Inv, Next, Counted, Spells, Carries;
    if ReturnedBy(u, s) == [] {
      assert blocks + ReturnedBy(u, s) == blocks;
    } else {
      SpellsOn(u.returned, blocks, u'.returned[|u.returned|..], Block(s.values, s.handling.selected));
      assert u'.returned == u.returned + u'.returned[|u.returned|..];
    }
  }

  /** The aggregates' own records are what happened. */
  ghost predicate AggregatesBooked(context: Context, trace: seq<Step>, aggregates: seq<Aggregate>) {
    && |aggregates| == |Loaded(context, trace)|
    && forall a :: 0 <= a < |aggregates| ==>
         && (aggregates[a].source, aggregates[a].tail, aggregates[a].route) == Loaded(context, trace)[a]
         && aggregates[a].pending == AppliedTo(context, trace, a)
  }

  lemma AggregatesBookedOn(context: Context, trace: seq<Step>, before: seq<Aggregate>, after: seq<Aggregate>)
    requires trace != []
    requires var c := Run(context, trace[..|trace| - 1]); c.unit.aggregates == before && Moves(before, after, c.unit, trace[|trace| - 1])
    requires AggregatesBooked(context, trace[..|trace| - 1], before)
    ensures AggregatesBooked(context, trace, after)
  {
    hide Run, Sendable, Agree, Open;
    var last := |trace| - 1;
    if |before| < |after| { NobodyAppliesEarly(context, trace[..last], |before|); }
    forall a | 0 <= a < |after|
      ensures (after[a].source, after[a].tail, after[a].route) == Loaded(context, trace)[a]
      ensures after[a].pending == AppliedTo(context, trace, a)
    {
      if a < |before| { assert before[a].pending == AppliedTo(context, trace[..last], a); }
    }
  }

  /** Over every run a chain's records of returned and applied events are what its steps returned and applied. */
  lemma {:induction false} RunIsBooked(context: Context, trace: seq<Step>)
    ensures Booked(context, trace)
  {
    if trace != [] {
      var last := |trace| - 1;
      var c, s := Run(context, trace[..last]), trace[last];
      RunIsBooked(context, trace[..last]);
      RunKeeps(context, trace[..last]);
      hide Inv, Next, Counted, Spells, AggregatesBooked, Moves, Returns;
      StepIsBooked(c, s);
      BookedReturns(c, s, Returned(context, trace[..last]));
      AggregatesBookedOn(context, trace, c.unit.aggregates, Next(c, s).unit.aggregates);
    }
  }

  // ---- conservation, of what happened -----------------------------------------------------------

  /** The entries are those events, one each and in order, under that event source. */
  predicate Tells(entries: seq<Entry>, source: string, events: seq<Event>) {
    && |entries| == |events|
    && forall i :: 0 <= i < |events| ==> entries[i] == Entry(source, events[i])
  }

  /**
   * Event conservation, said of the steps: the one call of `appendMany` that a chain ever makes receives every value that
   * its commands returned and every event that was applied to an aggregate it loaded, each exactly once, those of each
   * origin in their own order, and nothing else; each aggregate under the tail it was loaded at.
   */
  lemma AppendCarriesWhatHappened(context: Context, trace: seq<Step>, result: CommandResult, h: Handling, timeout: Option<Timeout>, w: World)
    ensures var u := Run(context, trace).unit;
            var u' := Next(Run(context, trace), Completes(result, h, timeout, w)).unit;
            u'.appends != u.appends ==>
              && |u'.appends| == 1
              && var batch := u'.appends[0]; var loaded := Loaded(context, trace);
                 && |u'.origins| == |batch.entries|
                 && (forall i :: 0 <= i < |u'.origins| && u'.origins[i].Some? ==> u'.origins[i].value < |loaded|)
                 && Spells(Part(batch.entries, u'.origins, None), Returned(context, trace))
                 && (forall a :: 0 <= a < |loaded| ==>
                       && Tells(Part(batch.entries, u'.origins, Some(a)), loaded[a].0, AppliedTo(context, trace, a))
                       && (AppliedTo(context, trace, a) != [] ==>
                             loaded[a].0 in batch.scopes && batch.scopes[loaded[a].0] == Scope(loaded[a].1, loaded[a].2)))
  {
    var u := Run(context, trace).unit;
    var u' := Next(Run(context, trace), Completes(result, h, timeout, w)).unit;
    RunIsBooked(context, trace);
    AppendConservesEvents(context, trace, result, h, timeout, w);
    hide Run, Next, Part, Spells;
    if u'.appends != u.appends {
      var loaded := Loaded(context, trace);
      forall a | 0 <= a < |loaded|
        ensures Tells(Part(u'.appends[0].entries, u'.origins, Some(a)), loaded[a].0, AppliedTo(context, trace, a))
        ensures AppliedTo(context, trace, a) != [] ==>
                  loaded[a].0 in u'.appends[0].scopes && u'.appends[0].scopes[loaded[a].0] == Scope(loaded[a].1, loaded[a].2)
      {
        assert u'.aggregates[a] == u.aggregates[a].(staged := u'.aggregates[a].staged);
      }
    }
  }

  // ---- when a batch is appended -----------------------------------------------------------------

  function GuardOf(a: Aggregate): Scope {
    Scope(a.tail, a.route)
  }

  /** The events an aggregate still holds back can be sent. */
  predicate Ready(h: Handling, a: Aggregate) {
    && !Blank(a.source) && !Blank(h.selected) && !h.aborted
    && forall k :: a.staged <= k < |a.pending| ==> a.pending[k].kind in h.registered
  }

  /** What the aggregates from one on hold back can be staged, one after the other. */
  predicate Fits(u: Unit, h: Handling, from: nat) {
    && (forall i :: from <= i < |u.aggregates| && u.aggregates[i].HasUnstagedEvents() ==>
          && (u.store.Some? ==> u.store.value == h.store) && Ready(h, u.aggregates[i])
          && (u.aggregates[i].source in u.scopes ==> u.scopes[u.aggregates[i].source] == GuardOf(u.aggregates[i])))
    && (forall i, j :: from <= i < j < |u.aggregates| && u.aggregates[i].HasUnstagedEvents() && u.aggregates[j].HasUnstagedEvents()
                       && u.aggregates[i].source == u.aggregates[j].source ==>
          GuardOf(u.aggregates[i]) == GuardOf(u.aggregates[j]))
  }

  lemma ReadyExactly(h: Handling, a: Aggregate, id: nat)
    requires a.HasUnstagedEvents()
    ensures Admits(h, CommitOf(a, id).events) <==> Ready(h, a)
  {
    var events := CommitOf(a, id).events;
    assert |events| == |a.pending| - a.staged;
    assert forall k :: a.staged <= k < |a.pending| ==> events[k - a.staged] == Entry(a.source, a.pending[k]);
    assert events[0] == Entry(a.source, a.pending[a.staged]);
    hide Blank;
  }

  /** What one aggregate holds back is staged, and its cursor and guard are known. */
  predicate StagesOne(u: Unit, h: Handling, i: nat, u1: Unit)
    requires i < |u.aggregates|
  {
    var a := u.aggregates[i];
    && u1 == u.(store := Some(h.store), scopes := u.scopes[a.source := GuardOf(a)], entries := u1.entries, origins := u1.origins,
                aggregates := u.aggregates[i := a.(staged := |a.pending|)])
    && u1.entries != []
  }

  lemma LeftoverExactly(u: Unit, h: Handling, i: nat)
    requires i < |u.aggregates| && u.aggregates[i].HasUnstagedEvents() && !u.completed && h.context == u.context
    ensures var a := u.aggregates[i];
            var (u1, ok) := HandleResult(u, h, CommitOf(a, i));
            && (ok <==> (u.store.Some? ==> u.store.value == h.store) && Ready(h, a)
                        && (a.source in u.scopes ==> u.scopes[a.source] == GuardOf(a)))
            && (ok ==> StagesOne(u, h, i, u1))
  {
    var a := u.aggregates[i];
    var r := CommitOf(a, i);
    ReadyExactly(h, a, i);
    assert r.events != [] && Unstaged(a, r) && r.guard == GuardOf(a);
    var news := [(a.source, r.guard)];
    assert news[1..] == [];
    assert Merge(u.scopes[a.source := r.guard], []) == (u.scopes[a.source := r.guard], true);
    hide Admits, Ready, Blank, Entries, Origins;
  }

  lemma FitsOn(u: Unit, h: Handling, i: nat, u1: Unit)
    requires i < |u.aggregates| && u.aggregates[i].HasUnstagedEvents() && StagesOne(u, h, i, u1)
    requires (u.store.Some? ==> u.store.value == h.store) && Ready(h, u.aggregates[i])
    requires u.aggregates[i].source in u.scopes ==> u.scopes[u.aggregates[i].source] == GuardOf(u.aggregates[i])
    ensures Fits(u1, h, i + 1) <==> Fits(u, h, i)
  {
    hide Ready, GuardOf;
    if Fits(u1, h, i + 1) {
      forall k | i < k < |u.aggregates| && u.aggregates[k].HasUnstagedEvents()
        ensures u.store.Some? ==> u.store.value == h.store
        ensures Ready(h, u.aggregates[k])
        ensures u.aggregates[k].source in u.scopes ==> u.scopes[u.aggregates[k].source] == GuardOf(u.aggregates[k])
        ensures u.aggregates[k].source == u.aggregates[i].source ==> GuardOf(u.aggregates[i]) == GuardOf(u.aggregates[k])
      {
        assert u1.aggregates[k] == u.aggregates[k];
      }
      forall k, j | i < k < j < |u.aggregates| && u.aggregates[k].HasUnstagedEvents() && u.aggregates[j].HasUnstagedEvents()
                    && u.aggregates[k].source == u.aggregates[j].source
        ensures GuardOf(u.aggregates[k]) == GuardOf(u.aggregates[j])
      {
        assert u1.aggregates[k] == u.aggregates[k] && u1.aggregates[j] == u.aggregates[j];
      }
    }
  }

  /** `complete` gets through its aggregates exactly when what they hold back fits; then the batch is empty only if all was. */
  lemma {:induction false} LeftoversExactly(u: Unit, h: Handling, i: nat)
    requires !u.completed && h.context == u.context
    ensures var (u1, ok) := StageLeftovers(u, h, i);
            && (ok <==> Fits(u, h, i))
            && u1.nestedFailure == u.nestedFailure && u1.completed == u.completed && u1.appends == u.appends
            && (ok ==> (u1.entries == [] <==> u.entries == [] && forall k :: i <= k < |u.aggregates| ==> !u.aggregates[k].HasUnstagedEvents()))
            && (u.entries != [] && ok ==> u1.entries != [])
    decreases |u.aggregates| - i
  {
    if |u.aggregates| <= i {
    } else if !u.aggregates[i].HasUnstagedEvents() {
      LeftoversExactly(u, h, i + 1);
      assert Fits(u, h, i) <==> Fits(u, h, i + 1);
      hide Ready;
    } else {
      LeftoverExactly(u, h, i);
      var (u1, ok) := HandleResult(u, h, CommitOf(u.aggregates[i], i));
      LeftoverKeepsRecords(u, h, CommitOf(u.aggregates[i], i));
      hide HandleResult, Ready;
      if ok {
        LeftoversExactly(u1, h, i + 1);
        FitsOn(u, h, i, u1);
      }
      hide Fits;
    }
  }

  lemma LeftoverKeepsRecords(u: Unit, h: Handling, r: CommitResult)
    requires r.aggregate < |u.aggregates|
    ensures var u1 := HandleResult(u, h, r).0;
            u1.nestedFailure == u.nestedFailure && u1.completed == u.completed && u1.appends == u.appends && u1.context == u.context
  {
    hide Merge, Admits;
  }

  /**
   * A chain that completes reaches `appendMany` exactly when the root succeeded, no nested command failed, something was
   * staged or is still held back, what is held back fits, and nobody cancelled: no batch is withheld, and none is sent in
   * spite of a failure.
   */
  lemma CompletionAppendsExactly(context: Context, trace: seq<Step>, result: CommandResult, h: Handling, timeout: Option<Timeout>, w: World)
    requires !Run(context, trace).unit.completed
    ensures var u := Run(context, trace).unit;
            var u' := Next(Run(context, trace), Completes(result, h, timeout, w)).unit;
            && (u'.appends != u.appends <==>
                  && result.isSuccess && !u.nestedFailure && HasStagedEvents(u) && Fits(u, h.(context := u.context), 0) && !w.aborted)
            && (u'.appends != u.appends ==> |u'.appends| == 1 && u'.appends[0].reply == w.reply)
  {
    var u := Run(context, trace).unit;
    RunKeeps(context, trace);
    assert u.appends == [];
    hide Run, Inv;
    if result.isSuccess {
      LeftoversExactly(u, h.(context := u.context), 0);
      var (u1, ok) := StageLeftovers(u, h.(context := u.context), 0);
      assert ok ==> (u1.entries != [] <==> HasStagedEvents(u));
      hide StageLeftovers, Fits, HasStagedEvents;
      if ok { CommitAppends(u1, result, timeout, w); }
    }
    hide Commit;
  }

  lemma CommitAppends(u: Unit, result: CommandResult, timeout: Option<Timeout>, w: World)
    requires !u.completed && u.appends == []
    ensures var u' := Commit(u, result, timeout, w).0;
            u'.appends == if result.isSuccess && !u.nestedFailure && u.entries != [] && !w.aborted
                          then [Append(u.entries, u.scopes, w.reply)] else []
  {
  }

  /** What a chain that reached `appendMany` reports, from what the world answered. */
  lemma CompletionDecides(context: Context, trace: seq<Step>, result: CommandResult, h: Handling, timeout: Option<Timeout>, w: World)
    requires !Run(context, trace).unit.completed
    ensures var u := Run(context, trace).unit;
            var u' := Next(Run(context, trace), Completes(result, h, timeout, w)).unit;
            u'.appends != u.appends ==>
              && |u'.appends| == 1
              && u'.disposition ==
                 match FateOf(Append(u'.entries, u'.scopes, w.reply))
                 case Undecided => Unknown
                 case Refused => NotCommitted
                 case Stored => if WaitEndsWell(timeout, w.abortedLater, w.completion) then Committed else NotCommitted
  {
    var u := Run(context, trace).unit;
    RunKeeps(context, trace);
    assert Sound(u);
    hide Run, Inv;
    if result.isSuccess {
      LeftoversExactly(u, h.(context := u.context), 0);
      StageLeftoversKeeps(u, h.(context := u.context), 0);
      var (u1, ok) := StageLeftovers(u, h.(context := u.context), 0);
      assert Sound(u1);
      hide StageLeftovers, Fits, HasStagedEvents;
      if ok {
        CommitAppends(u1, result, timeout, w);
        CommitDecides(u1, result, timeout, w);
        CommitChanges(u1, result, timeout, w);
      }
    }
    hide Commit, WaitEndsWell, FateOf;
  }
}
