/**
 * The objects behind a command chain: aggregates whose cursor moves, the unit of work they share, the handler that
 * fills it and the scope that completes it. Each method moves its objects as the functions of ChronicleUnitOfWork move
 * their values.
 */
module LiveUnitOfWork {
  import opened Options
  import opened ChronicleCommand
  import opened Batch = ChronicleUnitOfWork

  class AggregateRoot {
    var sourceId: string
    var pending: seq<Event>
    var staged: nat
    var tail: int
    var route: nat

    ghost function Value(): Aggregate
      reads this
    {
      Aggregate(sourceId, tail, route, pending, staged)
    }

    /** An aggregate without an event source is not active. */
    constructor ()
      ensures Value() == Aggregate("", 0, 0, [], 0)
    {
      sourceId, tail, route, pending, staged := "", 0, 0, [], 0;
    }

    /** False when the aggregate has an event source already. */
    method Rehydrate(sourceId: string, tail: int, route: nat) returns (ok: bool)
      modifies this
      ensures ok <==> old(this.sourceId) == ""
      ensures Value() == if ok then Aggregate(sourceId, tail, route, old(pending), old(staged)) else old(Value())
    {
      if this.sourceId != "" { return false; }
      this.sourceId := sourceId;
      this.tail := tail;
      this.route := route;
      return true;
    }

    method Apply(event: Event) returns (ok: bool)
      modifies this`pending
      ensures ok <==> sourceId != ""
      ensures Value() == if ok then old(Value()).(pending := old(pending) + [event]) else old(Value())
    {
      if sourceId == "" { return false; }
      pending := pending + [event];
      return true;
    }

    method Commit(id: nat) returns (result: Option<CommitResult>)
      ensures result == if sourceId == "" then None else Some(CommitOf(Value(), id))
    {
      if sourceId == "" { return None; }
      var events := if staged < |pending| then pending[staged..] else [];
      return Some(CommitResult(id, Entries(sourceId, events), Scope(tail, route), staged));
    }

    /** `assertUnstaged`; false when it throws. */
    method AssertUnstaged(result: CommitResult) returns (ok: bool)
      ensures ok <==> Unstaged(Value(), result)
    {
      return !(result.start != staged || |result.events| > |pending| - staged);
    }

    method Stage(count: nat)
      modifies this`staged
      ensures Value() == old(Value()).(staged := old(staged) + count)
    {
      staged := staged + count;
    }
  }

  ghost function Values(aggregates: seq<AggregateRoot>): (r: seq<Aggregate>)
    reads aggregates
    ensures |r| == |aggregates| && forall i :: 0 <= i < |r| ==> r[i] == aggregates[i].Value()
  {
    seq(|aggregates|, i requires 0 <= i < |aggregates| reads aggregates => aggregates[i].Value())
  }

  class ChronicleUnitOfWork {
    const context: Context
    var entries: seq<Entry>
    var aggregates: seq<AggregateRoot>
    var scopes: Scopes
    var store: Option<Store>
    var nestedFailure: bool
    var completed: bool
    var disposition: Disposition
    // History, which the program does not store.
    var returned: seq<Entry>
    var origins: seq<Option<nat>>
    var appends: seq<Append>

    ghost predicate Valid()
      reads this
    {
      forall i, j :: 0 <= i < j < |aggregates| ==> aggregates[i] != aggregates[j]
    }

    ghost function State(): Unit
      reads this, aggregates
    {
      Unit(context, Values(aggregates), entries, scopes, store, nestedFailure, completed, disposition, returned, origins, appends)
    }

    constructor (context: Context)
      ensures Valid() && State() == Begin(context)
    {
      this.context := context;
      entries, aggregates, scopes, store, nestedFailure := [], [], map[], None, false;
      completed, disposition, returned, origins, appends := false, NoCommit, [], [], [];
    }

    /** The aggregates of a unit are a set: one that is tracked already keeps its place. */
    method Track(aggregate: AggregateRoot)
      requires Valid()
      modifies this`aggregates
      ensures Valid()
      ensures aggregate in old(aggregates) ==> State() == old(State())
      ensures aggregate !in old(aggregates) ==>
                State() == old(State()).(aggregates := Values(old(aggregates)) + [aggregate.Value()])
    {
      if aggregate in aggregates { return; }
      aggregates := aggregates + [aggregate];
    }

    /** `stage`; false when it throws. Scopes merged before a conflict stay merged. */
    method Stage(store: Store, context: Context, entries: seq<Entry>, scopes: seq<(string, Scope)>) returns (ok: bool)
      requires Valid()
      modifies this`store, this`scopes, this`entries
      ensures Valid() && (State(), ok) == Batch.Stage(old(State()), store, context, entries, scopes)
    {
      if completed { return false; }
      if context != this.context { return false; }
      if this.store.Some? && this.store.value != store { return false; }
      this.store := Some(store);
      for i := 0 to |scopes|
        invariant Valid() && State() == old(State()).(store := Some(store), scopes := this.scopes)
        invariant Merge(old(this.scopes), scopes) == Merge(this.scopes, scopes[i..])
      {
        var (name, scope) := scopes[i];
        if name in this.scopes && this.scopes[name] != scope { return false; }
        this.scopes := this.scopes[name := scope];
      }
      assert scopes[|scopes|..] == [];
      this.entries := this.entries + entries;
      return true;
    }

    /** `nestedCompleted`; false when it throws. */
    method NestedCompleted(isSuccess: bool) returns (ok: bool)
      modifies this`nestedFailure
      ensures ok <==> !completed
      ensures State() == if ok && !isSuccess then old(State()).(nestedFailure := true) else old(State())
    {
      if completed { return false; }
      if !isSuccess { nestedFailure := true; }
      return true;
    }

    /** `commit`, given how the world settles what it awaits. */
    method Commit(result: CommandResult, timeout: Option<Timeout>, w: World) returns (outcome: CommandResult)
      requires Valid() && !completed && (entries != [] ==> store.Some?)
      modifies this`completed, this`disposition, this`appends
      ensures Valid() && (State(), outcome) == Batch.Commit(old(State()), result, timeout, w)
    {
      hide Issues, Distinct, Violations, AllStored, AllRefused;
      completed := true;
      if !result.isSuccess { return result; }
      if nestedFailure { return Faulted(result); }
      if entries == [] { return result; }
      if w.aborted {
        disposition := NotCommitted;
        return Faulted(result);
      }
      disposition := Unknown;
      appends := appends + [Append(entries, scopes, w.reply)];
      if w.reply.Broke? { return Faulted(result); }
      var verdict := CheckResults(w.reply.results, |entries|);
      match verdict
      case Accepted =>
        disposition := Committed;
        if WaitThrows(timeout, w.abortedLater, w.completion) {
          disposition := NotCommitted;
          return Faulted(result);
        }
        return result;
      case Rejected(issues) =>
        disposition := NotCommitted;
        return result.(isSuccess := false, response := None, issues := issues);
      case Throws(_) =>
        return Faulted(result);
    }
  }

  class ChronicleResponseHandler {
    /** The part of `handle` after its last await: stage the events, then move the aggregate's cursor. */
    static method Enrol(unit: ChronicleUnitOfWork, h: Handling, r: CommitResult, aggregate: AggregateRoot) returns (ok: bool)
      requires unit.Valid() && r.aggregate < |unit.aggregates| && aggregate == unit.aggregates[r.aggregate]
      modifies unit`store, unit`scopes, unit`entries, unit`origins, aggregate`staged
      ensures unit.Valid() && (unit.State(), ok) == Batch.Enrol(old(unit.State()), h, r)
    {
      hide Batch.Stage, Origins;
      ok := unit.Stage(h.store, h.context, r.events, [(aggregate.sourceId, r.guard)]);
      if !ok { return; }
      aggregate.Stage(|r.events|);
      assert Values(unit.aggregates) == old(Values(unit.aggregates))[r.aggregate := aggregate.Value()];
      unit.origins := unit.origins + Origins(|r.events|, Some(r.aggregate));
    }

    /** `handle` for the result of an aggregate's `commit()`, inside an active unit; false when it throws. */
    static method HandleResult(unit: ChronicleUnitOfWork, h: Handling, r: CommitResult, aggregate: AggregateRoot)
      returns (ok: bool)
      requires unit.Valid() && r.aggregate < |unit.aggregates| && aggregate == unit.aggregates[r.aggregate]
      modifies unit`store, unit`scopes, unit`entries, unit`origins, aggregate`staged
      ensures unit.Valid() && (unit.State(), ok) == Batch.HandleResult(old(unit.State()), h, r)
    {
      hide Batch.Enrol;
      ok := aggregate.AssertUnstaged(r);
      if !ok { return; }
      if r.events == [] { return true; }
      if !Admits(h, r.events) { return false; }
      ok := Enrol(unit, h, r, aggregate);
    }

    /** `handle` for returned events, inside an active unit; false when it throws. */
    static method HandleValues(unit: ChronicleUnitOfWork, h: Handling, values: seq<Value>, scopes: seq<(string, Scope)>) returns (ok: bool)
      requires unit.Valid()
      modifies unit`store, unit`scopes, unit`entries, unit`origins, unit`returned
      ensures unit.Valid()
      ensures (unit.State(), ok) == Batch.HandleValues(old(unit.State()), h, values, scopes)
    {
      if values == [] { return true; }
      var entries := ResolveAll(values, h.selected);
      if !Admits(h, entries) { return false; }
      ok := unit.Stage(h.store, h.context, entries, scopes);
      if !ok { return; }
      unit.returned := unit.returned + entries;
      unit.origins := unit.origins + Origins(|entries|, None);
    }
  }

  class ChronicleCommandScope {
    const unit: ChronicleUnitOfWork
    const timeout: Option<Timeout>

    constructor (unit: ChronicleUnitOfWork, timeout: Option<Timeout>)
      ensures this.unit == unit && this.timeout == timeout
    {
      this.unit := unit;
      this.timeout := timeout;
    }

    /** Stage what the unit's aggregates still hold back; false when a handler throws. */
    method StageAggregates(h: Handling) returns (ok: bool)
      requires unit.Valid() && !unit.completed && forall a :: a in unit.aggregates ==> a.sourceId != ""
      modifies unit`store, unit`scopes, unit`entries, unit`origins, unit.aggregates
      ensures unit.Valid() && (unit.State(), ok) == StageLeftovers(old(unit.State()), h, 0)
    {
      hide Batch.HandleResult;
      ghost var before := unit.State();
      for i := 0 to |unit.aggregates|
        invariant unit.Valid() && forall a :: a in unit.aggregates ==> a.sourceId != ""
        invariant StageLeftovers(before, h, 0) == StageLeftovers(unit.State(), h, i)
      {
        var aggregate := unit.aggregates[i];
        if aggregate.staged < |aggregate.pending| {
          var r := aggregate.Commit(i);
          ok := ChronicleResponseHandler.HandleResult(unit, h, r.value, aggregate);
          if !ok { return; }
        }
      }
      return true;
    }

    /** `complete` for the unit's own command; None when it throws. */
    method Complete(result: CommandResult, h: Handling, w: World) returns (outcome: Option<CommandResult>)
      requires unit.Valid() && !unit.completed && Batched(unit.State())
      requires forall a :: a in unit.aggregates ==> a.sourceId != ""
      modifies unit, unit.aggregates
      ensures (unit.State(), outcome) == Batch.Complete(old(unit.State()), result, h, timeout, w)
    {
      hide StageLeftovers, Batch.Commit;
      if result.isSuccess {
        StageLeftoversBatched(unit.State(), h.(context := unit.context), 0);
        var ok := StageAggregates(h.(context := unit.context));
        if !ok { return None; }
      }
      var committed := unit.Commit(result, timeout, w);
      return Some(committed);
    }
  }

  /** A unit with entries knows its store. */
  predicate Batched(u: Unit) {
    u.entries != [] ==> u.store.Some?
  }

  lemma {:induction false} StageLeftoversBatched(u: Unit, h: Handling, i: nat)
    requires Batched(u)
    ensures Batched(StageLeftovers(u, h, i).0) && StageLeftovers(u, h, i).0.completed == u.completed
    decreases |u.aggregates| - i
  {
    if i < |u.aggregates| {
      if u.aggregates[i].HasUnstagedEvents() {
        var (u1, ok) := Batch.HandleResult(u, h, CommitOf(u.aggregates[i], i));
        if ok { StageLeftoversBatched(u1, h, i + 1); }
      } else {
        StageLeftoversBatched(u, h, i + 1);
      }
    }
  }
}
