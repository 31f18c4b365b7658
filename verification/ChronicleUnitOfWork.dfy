/**
 * One returned-event batch for a whole chain of nested commands: the aggregates that stage into it, the handler that
 * fills it, the scope that commits it. Sources: Source/Chronicle/AggregateRoot.ts, ChronicleResponseHandler.ts,
 * ChronicleUnitOfWork.ts, ChronicleCommandScope.ts, runChronicleCommand.ts and waitForProjectionCompletion.ts.
 */
module ChronicleUnitOfWork {
  import opened Options
  import opened ChronicleCommand

  type Store = nat
  datatype Context = Context(tenant: nat, correlation: nat)
  datatype Event = Event(kind: nat, content: nat)
  datatype Entry = Entry(source: string, event: Event)

  /** The guard of one event source: the sequence number its writer saw, along one route. */
  datatype Scope = Scope(sequence: int, route: nat)
  type Scopes = map<string, Scope>

  // ---- aggregates -------------------------------------------------------------------------------

  /** An active aggregate; `staged` counts the pending events that are already in the batch. */
  datatype Aggregate = Aggregate(source: string, tail: int, route: nat, pending: seq<Event>, staged: nat)
  {
    predicate HasUnstagedEvents() {
      staged < |pending|
    }
  }

  /** What `commit()` returns: the events that were not staged at that moment, and the guard of their source. */
  datatype CommitResult = CommitResult(aggregate: nat, events: seq<Entry>, guard: Scope, start: nat)

  function Entries(source: string, events: seq<Event>): (r: seq<Entry>)
    ensures |r| == |events|
  {
    seq(|events|, i requires 0 <= i < |events| => Entry(source, events[i]))
  }

  function CommitOf(a: Aggregate, id: nat): CommitResult {
    CommitResult(id, Entries(a.source, if a.HasUnstagedEvents() then a.pending[a.staged..] else []), Scope(a.tail, a.route), a.staged)
  }

  /** `assertUnstaged`: the result was neither staged before nor overtaken. */
  predicate Unstaged(a: Aggregate, r: CommitResult) {
    r.start == a.staged && |r.events| <= |a.pending| - a.staged
  }

  // ---- the unit of work -------------------------------------------------------------------------

  datatype Disposition = NoCommit | Unknown | Committed | NotCommitted

  /** How `appendMany` settles. */
  datatype Reply = Broke | Answered(results: seq<AppendResult>)
  datatype Append = Append(entries: seq<Entry>, scopes: Scopes, reply: Reply)

  /**
   * `returned`, `origins` and `appends` are history: the returned events staged so far, which aggregate each entry came
   * from, and every call of `appendMany`.
   */
  datatype Unit = Unit(
    context: Context, aggregates: seq<Aggregate>, entries: seq<Entry>, scopes: Scopes, store: Option<Store>,
    nestedFailure: bool, completed: bool, disposition: Disposition,
    returned: seq<Entry>, origins: seq<Option<nat>>, appends: seq<Append>)

  function Begin(context: Context): Unit {
    Unit(context, [], [], map[], None, false, false, NoCommit, [], [], [])
  }

  predicate HasStagedEvents(u: Unit) {
    u.entries != [] || exists i :: 0 <= i < |u.aggregates| && u.aggregates[i].HasUnstagedEvents()
  }

  /** Merge the scopes in order; the first that contradicts a known one stops the merge, and what was merged stays. */
  function Merge(known: Scopes, news: seq<(string, Scope)>): (Scopes, bool)
    decreases |news|
  {
    if news == [] then (known, true)
    else if news[0].0 in known && known[news[0].0] != news[0].1 then (known, false)
    else Merge(known[news[0].0 := news[0].1], news[1..])
  }

  /** `stage`: all entries or none; false when it throws. */
  function Stage(u: Unit, store: Store, context: Context, entries: seq<Entry>, scopes: seq<(string, Scope)>): (Unit, bool) {
    if u.completed || context != u.context || (u.store.Some? && u.store.value != store) then (u, false)
    else
      var (merged, ok) := Merge(u.scopes, scopes);
      var u1 := u.(store := Some(store), scopes := merged);
      if ok then (u1.(entries := u.entries + entries), true) else (u1, false)
  }

  // ---- the response handler ---------------------------------------------------------------------

  /** A returned event, bare or with its own event source. */
  datatype Value = Bare(event: Event) | Routed(source: string, event: Event)

  /** What surrounds one call of `handle`; `selected` is the response's, the command's or a fresh event source id. */
  datatype Handling = Handling(context: Context, store: Store, registered: set<nat>, selected: string, aborted: bool)

  predicate Blank(s: string) {
    forall i :: 0 <= i < |s| ==> s[i] in {' ', '\t', '\r', '\n'}
  }

  function Resolve(v: Value, selected: string): Entry {
    match v
    case Bare(event) => Entry(selected, event)
    case Routed(source, event) => Entry(source, event)
  }

  function ResolveAll(values: seq<Value>, selected: string): seq<Entry> {
    seq(|values|, i requires 0 <= i < |values| => Resolve(values[i], selected))
  }

  /** Everything `handle` checks before it stages. */
  predicate Admits(h: Handling, entries: seq<Entry>) {
    && (forall i :: 0 <= i < |entries| ==> entries[i].event.kind in h.registered && !Blank(entries[i].source))
    && !Blank(h.selected) && !h.aborted
  }

  function Origins(n: nat, who: Option<nat>): (r: seq<Option<nat>>)
    ensures |r| == n
  {
    seq(n, i => who)
  }

  /** `handle` for returned events; false when it throws. */
  function HandleValues(u: Unit, h: Handling, values: seq<Value>, scopes: seq<(string, Scope)>): (Unit, bool) {
    if values == [] then (u, true) else
      var entries := ResolveAll(values, h.selected);
      if !Admits(h, entries) then (u, false) else
        var (u1, ok) := Stage(u, h.store, h.context, entries, scopes);
        (if ok then u1.(returned := u.returned + entries, origins := u.origins + Origins(|entries|, None)) else u1, ok)
  }

  /** `handle` for the result of an aggregate's `commit()`: stage its events, then move the aggregate's cursor. */
  function HandleResult(u: Unit, h: Handling, r: CommitResult): (Unit, bool)
    requires r.aggregate < |u.aggregates|
  {
    var a := u.aggregates[r.aggregate];
    if !Unstaged(a, r) then (u, false)
    else if r.events == [] then (u, true)
    else if !Admits(h, r.events) then (u, false)
    else Enrol(u, h, r)
  }

  /** The part of `handle` after its last await. */
  function Enrol(u: Unit, h: Handling, r: CommitResult): (Unit, bool)
    requires r.aggregate < |u.aggregates|
  {
    var a := u.aggregates[r.aggregate];
    var (u1, ok) := Stage(u, h.store, h.context, r.events, [(a.source, r.guard)]);
    (if ok then u1.(aggregates := u.aggregates[r.aggregate := a.(staged := a.staged + |r.events|)],
                    origins := u.origins + Origins(|r.events|, Some(r.aggregate))) else u1, ok)
  }

  // ---- completing the command -------------------------------------------------------------------

  datatype CommandResult = CommandResult(isSuccess: bool, hasExceptions: bool, response: Option<nat>, issues: seq<Issue>)

  function Faulted(r: CommandResult): CommandResult {
    r.(isSuccess := false, hasExceptions := true, response := None)
  }

  /** A completion timeout; a JavaScript number need not be a whole one. */
  datatype Timeout = Milliseconds(value: int) | NotWhole

  /** How waiting for the observers ends: cancelled, finished, or with a rejected promise. */
  datatype Completion = Cancelled | Finished(isSuccess: bool, failedPartitions: nat) | Failed

  predicate ValidTimeout(t: Timeout) {
    t.Milliseconds? && 0 < t.value < 0x20_0000_0000_0000
  }

  /** `waitForProjectionCompletion` for at least one acknowledgement. */
  predicate WaitThrows(timeout: Option<Timeout>, aborted: bool, completion: Completion) {
    && timeout.Some?
    && (!ValidTimeout(timeout.value)
        || (!aborted && (completion.Failed? || (completion.Finished? && (!completion.isSuccess || completion.failedPartitions != 0)))))
  }

  /** What the world does to one `commit`: the abort signal before the append and after it, the append, the observers. */
  datatype World = World(aborted: bool, reply: Reply, abortedLater: bool, completion: Completion)

  /** The last part of `commit`: call `appendMany` and classify what comes back. */
  function AppendAll(u: Unit, result: CommandResult, timeout: Option<Timeout>, w: World): (Unit, CommandResult) {
    var u1 := u.(appends := u.appends + [Append(u.entries, u.scopes, w.reply)]);
    if w.reply.Broke? then (u1.(disposition := Unknown), Faulted(result))
    else if AllStored(w.reply.results, |u.entries|) then
      if WaitThrows(timeout, w.abortedLater, w.completion) then (u1.(disposition := NotCommitted), Faulted(result))
      else (u1.(disposition := Committed), result)
    else if AllRefused(w.reply.results, |u.entries|) then
      (u1.(disposition := NotCommitted),
       result.(isSuccess := false, response := None, issues := Issues(Distinct(Violations(w.reply.results)))))
    else (u1.(disposition := Unknown), Faulted(result))
  }

  function Commit(u: Unit, result: CommandResult, timeout: Option<Timeout>, w: World): (Unit, CommandResult) {
    var u1 := u.(completed := true);
    if !result.isSuccess then (u1, result)
    else if u.nestedFailure then (u1, Faulted(result))
    else if u.entries == [] then (u1, result)
    else if w.aborted then (u1.(disposition := NotCommitted), Faulted(result))
    else AppendAll(u1, result, timeout, w)
  }

  /** `complete` first stages what its aggregates still hold, in the order they were loaded. */
  function StageLeftovers(u: Unit, h: Handling, i: nat): (Unit, bool)
    decreases |u.aggregates| - i
  {
    if |u.aggregates| <= i then (u, true)
    else if !u.aggregates[i].HasUnstagedEvents() then StageLeftovers(u, h, i + 1)
    else
      var (u1, ok) := HandleResult(u, h, CommitOf(u.aggregates[i], i));
      if ok then StageLeftovers(u1, h, i + 1) else (u1, false)
  }

  /** `ChronicleCommandScope.complete` for the command the unit belongs to; None when it throws. */
  function Complete(u: Unit, result: CommandResult, h: Handling, timeout: Option<Timeout>, w: World): (Unit, Option<CommandResult>)
  {
    var (u1, ok) := if result.isSuccess then StageLeftovers(u, h.(context := u.context), 0) else (u, true);
    if !ok || u1.completed then (u1, None) else
      var (u2, r) := Commit(u1, result, timeout, w);
      (u2, Some(r))
  }

  /** `getCommitDisposition`: a chain answers for every context with its correlation, and knows nothing of any other. */
  function ReportedDisposition(u: Unit, asked: Context): Disposition {
    if asked.correlation != u.context.correlation then Unknown
    else if u.disposition.NoCommit? && HasStagedEvents(u) then NotCommitted
    else u.disposition
  }
}
