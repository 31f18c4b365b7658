/**
 * What a command chain does with the results of its aggregates and with failures, and what it answers
 * (Source/Chronicle/ChronicleResponseHandler.ts:47-89, ChronicleUnitOfWork.ts:48-86, ChronicleCommandScope.ts:19-36).
 */
module ChronicleAnswers {
  import opened Options
  import opened ChronicleCommand
  import opened ChronicleUnitOfWork
  import opened ChronicleConservation
  import opened ChronicleLedger

  // ---- results of aggregates --------------------------------------------------------------------

  /** `commit()` hands out what its aggregate still holds back, in order, where it starts, and under which guard. */
  lemma CommitsHandOutTheRest(c: Chain, a: nat)
    requires a < |c.unit.aggregates| && Counted(c.unit.aggregates)
    ensures var after := Next(c, Commits(a)); var aggregate := c.unit.aggregates[a];
            && after.unit == c.unit && |after.results| == |c.results| + 1 && after.results[..|c.results|] == c.results
            && var r := after.results[|c.results|];
               r.aggregate == a && r.start == aggregate.staged && r.guard == Scope(aggregate.tail, aggregate.route)
               && Tells(r.events, aggregate.source, aggregate.pending[aggregate.staged..])
  {
  }

  /** The events of a result can be sent. */
  predicate Deliverable(h: Handling, events: seq<Entry>) {
    && (forall i :: 0 <= i < |events| ==> events[i].event.kind in h.registered && !Blank(events[i].source))
    && !Blank(h.selected) && !h.aborted
  }

  /**
   * A returned result is staged whole, and its aggregate's cursor moves past it, exactly when it was neither staged before
   * nor overtaken, its events can be sent, the unit is open to it, and its guard contradicts nothing.
   */
  lemma ReturnedResultsAreStaged(u: Unit, h: Handling, r: CommitResult)
    requires Valid(u) && !u.completed && Genuine(u.aggregates, r)
    ensures var a := u.aggregates[r.aggregate];
            var (u', ok) := HandleResult(u, h, r);
            && (ok <==> r.start == a.staged && |r.events| <= |a.pending| - a.staged
                        && (r.events == [] || (Deliverable(h, r.events) && Open(u, h)
                                               && (a.source in u.scopes ==> u.scopes[a.source] == r.guard))))
            && u'.entries == (if ok then u.entries + r.events else u.entries)
            && |u'.aggregates| == |u.aggregates|
            && u'.aggregates[r.aggregate].staged == (if ok then a.staged + |r.events| else a.staged)
  {
    var a := u.aggregates[r.aggregate];
    if Unstaged(a, r) && r.events != [] && Admits(h, r.events) {
      EnrolKeeps(u, h, r);
      StagedExactly(u, h, r.events, [(a.source, r.guard)]);
      AgreesWithOne(u.scopes, a.source, r.guard);
    }
    hide Valid, Genuine, Stage, Agree, Blank;
  }

  lemma AgreesWithOne(known: Scopes, name: string, scope: Scope)
    ensures Agree(known, [(name, scope)]) <==> (name in known ==> known[name] == scope)
  {
    assert [(name, scope)][0] == (name, scope);
  }

  // ---- failures and answers ---------------------------------------------------------------------

  /** A nested command of the chain failed while the chain was open. */
  ghost predicate SomeNestedFailed(context: Context, trace: seq<Step>) {
    exists i :: 0 <= i < |trace| && NestedFailsAt(context, trace, i)
  }

  ghost predicate NestedFailsAt(context: Context, trace: seq<Step>, i: nat)
    requires i < |trace|
  {
    trace[i] == NestedEnds(false) && !Run(context, trace[..i]).unit.completed
  }

  lemma NestedFailedBefore(context: Context, trace: seq<Step>)
    requires trace != []
    ensures var last := |trace| - 1;
            SomeNestedFailed(context, trace) <==> SomeNestedFailed(context, trace[..last]) || NestedFailsAt(context, trace, last)
  {
    hide Run;
    var last := |trace| - 1;
    forall i | 0 <= i < last ensures NestedFailsAt(context, trace[..last], i) <==> NestedFailsAt(context, trace, i) {
      assert trace[..last][..i] == trace[..i];
    }
  }

  /** The batch is withheld for a nested command exactly when one failed. */
  lemma {:induction false} OnlyNestedFailuresWithhold(context: Context, trace: seq<Step>)
    ensures Run(context, trace).unit.nestedFailure <==> SomeNestedFailed(context, trace)
  {
    if trace != [] {
      var last := |trace| - 1;
      OnlyNestedFailuresWithhold(context, trace[..last]);
      RunKeeps(context, trace[..last]);
      hide Next, Inv, Counted, SomeNestedFailed;
      FailureIsNoted(Run(context, trace[..last]), trace[last]);
      NestedFailedBefore(context, trace);
    }
  }

  lemma FailureIsNoted(c: Chain, s: Step)
    requires Inv(c) && Counted(c.unit.aggregates)
    ensures Next(c, s).unit.nestedFailure <==> c.unit.nestedFailure || (s == NestedEnds(false) && !c.unit.completed)
  {
    var u := c.unit;
    match s
    case Returns(h, values, scopes) => hide Stage, Admits;
    case ReturnsResult(h, i) =>
      if !u.completed && i < |c.results| && c.results[i].aggregate < |u.aggregates| { HandleResultMoves(u, h, c.results[i]); }
      hide HandleResult;
    case Completes(result, h, timeout, w) =>
      if !u.completed {
        if result.isSuccess { StageLeftoversKeeps(u, h.(context := u.context), 0); }
        var (u1, ok) := if result.isSuccess then StageLeftovers(u, h.(context := u.context), 0) else (u, true);
        CommitChanges(u1, result, timeout, w);
      }
      hide StageLeftovers, Commit;
    case _ =>
  }

  /**
   * What the caller of a completed chain is answered: its own result where nothing was to be appended or all was; otherwise
   * a failure without a response, with the issues of a rejected batch, or else as an exception.
   */
  lemma CommitAnswers(u: Unit, result: CommandResult, timeout: Option<Timeout>, w: World)
    requires !u.completed && u.disposition.NoCommit?
    ensures var (u', r) := Commit(u, result, timeout, w);
            var rejected := u'.appends != u.appends && FateOf(Append(u.entries, u.scopes, w.reply)).Refused?;
            && u'.completed
            && (!result.isSuccess || (!u.nestedFailure && (u.entries == [] || u'.disposition.Committed?)) ==> r == result)
            && (result.isSuccess && !r.isSuccess ==>
                  && r.response == None
                  && r.hasExceptions == (!rejected || result.hasExceptions)
                  && r.issues == if rejected then Issues(Distinct(Violations(w.reply.results))) else result.issues)
  {
    hide Issues, Distinct, Violations, AllStored, AllRefused, WaitThrows;
  }

  /** A chain answers for its own correlation only. */
  lemma OtherChainsAreUnknown(context: Context, trace: seq<Step>, asked: Context)
    requires asked.correlation != context.correlation
    ensures ReportedDisposition(Run(context, trace).unit, asked) == Unknown
  {
    ContextStays(context, trace);
  }

  lemma {:induction false} ContextStays(context: Context, trace: seq<Step>)
    ensures Run(context, trace).unit.context == context
  {
    if trace != [] {
      var last := |trace| - 1;
      ContextStays(context, trace[..last]);
      RunKeeps(context, trace[..last]);
      ContextIsKept(Run(context, trace[..last]), trace[last]);
      hide Next, Inv, Counted;
    }
  }

  lemma ContextIsKept(c: Chain, s: Step)
    requires Inv(c) && Counted(c.unit.aggregates)
    ensures Next(c, s).unit.context == c.unit.context
  {
    var u := c.unit;
    match s
    case Returns(h, values, scopes) => hide Admits, Merge;
    case ReturnsResult(h, i) =>
      if !u.completed && i < |c.results| && c.results[i].aggregate < |u.aggregates| { HandleResultMoves(u, h, c.results[i]); }
      hide HandleResult;
    case Completes(result, h, timeout, w) =>
      if !u.completed {
        if result.isSuccess { StageLeftoversKeeps(u, h.(context := u.context), 0); }
        var (u1, ok) := if result.isSuccess then StageLeftovers(u, h.(context := u.context), 0) else (u, true);
        CommitChanges(u1, result, timeout, w);
      }
      hide StageLeftovers, Commit;
    case _ =>
  }
}
