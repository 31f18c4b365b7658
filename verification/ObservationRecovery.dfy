/** Recovery is bounded and makes progress: over whole lives of an entry. */
module ObservationRecovery {
  import opened Options
  import opened ObservationGate
  import opened PostgreSQLObservationManager
  import opened ObservationLifecycle
  import opened ObservationPromises
  import Routing = ObservationRouting

  function Run(t: Tenant, trace: seq<Event>): Tenant {
    if trace == [] then t else Next(Run(t, trace[..|trace| - 1]), trace[|trace| - 1])
  }

  lemma {:induction false} RunKeeps(t: Tenant, trace: seq<Event>)
    requires Inv(t)
    ensures Inv(Run(t, trace))
  {
    if trace != [] {
      RunKeeps(t, trace[..|trace| - 1]);
      hide Inv, Next;
      NextKeeps(Run(t, trace[..|trace| - 1]), trace[|trace| - 1]);
    }
  }

  lemma NextIsThrifty(t: Tenant, e: Event)
    requires Inv(t) && !e.BeatAnswered?
    ensures Thrifty(t.life, Next(t, e).life)
  {
    LogIsHistory(t, []);
    hide Inv, Step;
    StepMoves(t.(log := []), e);
  }

  /**
   * Until a heartbeat is answered, an entry starts no more recovery attempts than it has delays left: failed attempts,
   * and attempts that only reconnected, never refill the budget.
   */
  lemma {:induction false} RecoveryIsBounded(t: Tenant, trace: seq<Event>)
    requires Inv(t) && forall i :: 0 <= i < |trace| ==> !trace[i].BeatAnswered?
    ensures Run(t, trace).life.attempts + Left(Run(t, trace).life) <= t.life.attempts + Left(t.life)
    ensures Run(t, trace).life.attempts - t.life.attempts <= t.life.budget
  {
    if trace != [] {
      var last := |trace| - 1;
      RecoveryIsBounded(t, trace[..last]);
      RunKeeps(t, trace[..last]);
      hide Inv, Next;
      NextIsThrifty(Run(t, trace[..last]), trace[last]);
    }
  }

  /** The answer is to a heartbeat the entry still waits for, on the connection it still has. */
  predicate Current(t: Tenant, e: Event) {
    e.BeatAnswered? && e.generation in t.life.beats && !t.life.dead && e.generation == t.life.generation
  }

  /** A current answer comes while available and restores the whole budget; a stale one restores nothing. */
  lemma OnlyCurrentAnswersRefill(t: Tenant, generation: nat)
    requires Inv(t)
    ensures var e := BeatAnswered(generation);
      && Next(t, e).life.attempts == t.life.attempts && Next(t, e).life.budget == t.life.budget
      && (if Current(t, e) then t.life.available && Left(Next(t, e).life) == t.life.budget
          else Left(Next(t, e).life) == Left(t.life))
  {
    if Current(t, BeatAnswered(generation)) {
      assert Truthful(t.life);
    }
  }

  lemma OneEventIsPaidFor(t: Tenant, e: Event)
    requires Inv(t)
    ensures Next(t, e).life.budget == t.life.budget
    ensures Next(t, e).life.attempts + Left(Next(t, e).life)
            <= t.life.attempts + Left(t.life) + if Current(t, e) then t.life.budget else 0
  {
    hide Inv, Next;
    if e.BeatAnswered? {
      OnlyCurrentAnswersRefill(t, e.generation);
    } else {
      NextIsThrifty(t, e);
    }
  }

  /** How many current answers a run holds. */
  function Answers(t: Tenant, trace: seq<Event>): nat {
    if trace == [] then 0
    else
      var last := |trace| - 1;
      Answers(t, trace[..last]) + if Current(Run(t, trace[..last]), trace[last]) then 1 else 0
  }

  lemma NextAnswers(t: Tenant, trace: seq<Event>)
    requires trace != []
    ensures var before := trace[..|trace| - 1];
      Answers(t, trace) * t.life.budget
      == Answers(t, before) * t.life.budget + if Current(Run(t, before), trace[|trace| - 1]) then t.life.budget else 0
  {
    hide Current, Run;
  }

  /** Over any run an entry starts at most one budget of attempts, and one more for every current answer. */
  lemma {:induction false} AnswersPayForAttempts(t: Tenant, trace: seq<Event>)
    requires Inv(t)
    ensures var t1 := Run(t, trace);
      && t1.life.budget == t.life.budget
      && t1.life.attempts + Left(t1.life) <= t.life.attempts + Left(t.life) + Answers(t, trace) * t.life.budget
  {
    if trace != [] {
      var last := |trace| - 1;
      var t1, e := Run(t, trace[..last]), trace[last];
      AnswersPayForAttempts(t, trace[..last]);
      RunKeeps(t, trace[..last]);
      hide Inv, Next, Left, Current;
      OneEventIsPaidFor(t1, e);
      NextAnswers(t, trace);
    }
  }

  /** A lease whose observation has ended, or that was released, never hears of an end again. */
  lemma {:induction false} ReleasedHearsNothing(t: Tenant, trace: seq<Event>, e: Event, l: LeaseId)
    requires Inv(t) && l in t.index.leases && t.index.leases[l].released
    ensures var t1 := Run(t, trace);
            && l in t1.index.leases && t1.index.leases[l].released
            && forall i :: 0 <= i < |Next(t1, e).log| ==> !TellsEnd(Next(t1, e).log[i], l)
  {
    RunKeeps(t, trace);
    if trace != [] {
      var last := |trace| - 1;
      RunKeeps(t, trace[..last]);
      hide Inv, Next;
      ReleasedHearsNothing(t, trace[..last], trace[last], l);
      StepEndsOnce(Run(t, trace[..last]), trace[last], l);
    }
    hide Inv, Next;
    StepEndsOnce(Run(t, trace), e, l);
  }

  // ---- progress ---------------------------------------------------------------------------------

  /** How far a recovery is from its end: the attempts left, the stage of this one, and the checks it still has to make. */
  function Stages(r: Recovery): nat {
    match r
    case Backoff => 5
    case Reopening(stage, _) =>
      (match stage case AwaitBarrier(_) => 4 case AwaitFactory(_, _) => 3 case AwaitConnect(_, _) => 2 case AwaitListen(_, _) => 1)
    case Revalidating(_, _, _, _, _) => 0
  }

  function Checks(r: Recovery): nat {
    match r
    case Revalidating(_, _, todo, check, _) =>
      3 * |todo| + (match check case ReaderCheck => 3 case ListenerCheck(_) => 2 case TriggerCheck(_) => 1)
    case _ => 0
  }

  /** Lexicographically below: fewer attempts left, or a later stage of this one, or fewer checks. */
  predicate Below(left': nat, r': Recovery, left: nat, r: Recovery) {
    || left' < left
    || (left' == left && (Stages(r') < Stages(r) || (Stages(r') == Stages(r) && Checks(r') < Checks(r))))
  }

  /** The entry is still recovering, but nearer to the end; or it is available, or dead. */
  predicate Nearer(t: Tenant, t': Tenant) {
    || t'.life.dead || t'.life.available
    || (t.life.recoveries != [] && t'.life.recoveries != [] &&
        Below(Left(t'.life), t'.life.recoveries[0], Left(t.life), t.life.recoveries[0]))
  }

  lemma AttemptFailsNearer(t: Tenant, t0: Tenant, i: nat)
    requires Inv(t) && i < |t.life.recoveries| && (t.life.dead || !t.life.available)
    requires t0.life.recoveries != [] && Left(t.life) == Left(t0.life)
    ensures Nearer(t0, AttemptFails(t, i))
  {
    if !t.life.dead {
      assert Phase(t) && t.life.wasReady && |t.life.recoveries| == 1;
      LostKeeps(t);
      var t1 := if t.life.aborted then t else Lost(t);
      LostLeaves(t);
      assert Base(t1) && !t1.life.dead && t1.index.members != [];
      RetryKeeps(t1);
    }
  }

  lemma LostLeaves(t: Tenant)
    requires !t.life.dead && t.life.wasReady && !t.life.available
    ensures var r := Lost(t).life; r.recoveries == t.life.recoveries && Left(r) == Left(t.life) && !r.dead && !r.available
  {
  }

  /** Going on to the next lease uses up the rest of the list, or ends the recovery. */
  lemma {:induction false} RevalidateNearer(t: Tenant, t0: Tenant, i: nat, generation: nat, todo: seq<LeaseId>)
    requires i < |t.life.recoveries| && ((t.life.dead && Inv(t)) || Reopened(t, generation))
    requires t0.life.recoveries != [] && Left(t.life) == Left(t0.life)
    requires 0 < Stages(t0.life.recoveries[0]) || 3 * |todo| < Checks(t0.life.recoveries[0])
    ensures Nearer(t0, Revalidate(t, i, generation, todo))
    decreases |todo|
  {
    assert Reopened(t, generation) ==> t.index.members != [] && i == 0;
    hide Inv, Reopened;
    if todo != [] && (todo[0] !in t.index.leases || t.index.leases[todo[0]].released || t.index.leases[todo[0]].key.None?) {
      RevalidateNearer(t, t0, i, generation, todo[1..]);
    }
  }

  lemma RejectLeaseNearer(t: Tenant, i: nat, r: Recovery)
    requires i < |t.life.recoveries| && r.Revalidating? && Inv(t) && Reopened(t, r.generation) && t.life.recoveries[0] == r
    ensures Nearer(t, RejectLease(t, i, r))
  {
    var held := r.lease in t.index.leases && !t.index.leases[r.lease].released;
    var logged := t.(log := t.log + [Signal(Fail, [r.lease])]);
    LogIsHistory(t, logged.log);
    ReleaseKeeps(logged, r.lease);
    ReleaseLeft(logged, r.lease);
    var t1 := if held then Release(logged, r.lease) else t;
    hide Base, Release, Revalidate, Nearer;
    RevalidateNearer(t1, t, i, r.generation, r.todo);
  }

  lemma ReleaseLeft(t: Tenant, l: LeaseId)
    ensures Left(Release(t, l).life) == Left(t.life)
  {
    hide Drop;
  }

  lemma CheckPassesNearer(t: Tenant, i: nat, reply: Reply)
    requires Inv(t) && Recovering(t.life, t.net) && i < |t.life.recoveries| && t.life.recoveries[i].Revalidating?
    requires Live(t.life, t.life.recoveries[i].ctl)
    ensures var t' := CheckPasses(t, i, t.life.recoveries[i], reply); t' == t || Nearer(t, t')
  {
    var r := t.life.recoveries[i];
    assert !t.life.dead && Reopened(t, r.generation);
    if r.check.TriggerCheck? {
      if reply.Ok? { RefreshedNearer(t, i, r.check.identity); }
    } else {
      RejectLeaseNearer(t, i, r);
    }
    hide Base, RejectLease, Revalidate, SameMapping;
  }

  lemma RefreshedNearer(t: Tenant, i: nat, identity: Identity)
    requires i < |t.life.recoveries| && t.life.recoveries[i].Revalidating?
    requires t.life.recoveries[i].check == TriggerCheck(identity) && Reopened(t, t.life.recoveries[i].generation)
    ensures Nearer(t, CheckPasses(t, i, t.life.recoveries[i], Ok))
  {
    var r := t.life.recoveries[i];
    var x := RefreshedIndex(t, i, identity);
    hide Base, Revalidate, Nearer, Phase, Recovering;
    RevalidateNearer(t.(index := x), t, i, r.generation, r.todo);
  }

  /** The index after the last check of a lease. */
  lemma RefreshedIndex(t: Tenant, i: nat, identity: Identity) returns (x: Index)
    requires i < |t.life.recoveries| && t.life.recoveries[i].Revalidating?
    requires t.life.recoveries[i].check == TriggerCheck(identity) && Reopened(t, t.life.recoveries[i].generation)
    ensures var r := t.life.recoveries[i];
            && CheckPasses(t, i, r, Ok) == Revalidate(t.(index := x), i, r.generation, r.todo)
            && Reopened(t.(index := x), r.generation)
            && x.members == t.index.members
  {
    var r := t.life.recoveries[i];
    assert r.lease in t.index.leases && t.index.leases[r.lease].key == Some(identity.key);
    x := if !t.index.leases[r.lease].released
         then t.index.(identities := t.index.identities[t.index.leases[r.lease].table := identity]) else t.index;
    if !t.index.leases[r.lease].released { Routing.RefreshKeeps(t.index, r.lease, identity); }
    assert Routing.Valid(x);
    hide Routing.Valid, Revalidate;
    IndexBase(t, x);
    hide Base;
  }

  lemma CheckFailsNearer(t: Tenant, i: nat, definitive: bool)
    requires Inv(t) && !t.life.dead && Recovering(t.life, t.net) && i < |t.life.recoveries| && t.life.recoveries[i].Revalidating?
    ensures Nearer(t, CheckFails(t, i, t.life.recoveries[i], definitive))
  {
    var r := t.life.recoveries[i];
    assert t.life.wasReady && !t.life.available && Phase(t);
    assert !t.life.aborted ==> Reopened(t, r.generation);
    LostKeeps(t);
    LostLeaves(t);
    hide Base, AttemptFails, RejectLease, Lost, Nearer;
    AttemptFailsNearer(t, t, i);
    if !t.life.aborted {
      RejectLeaseNearer(t, i, r);
      AttemptFailsNearer(Lost(t), t, i);
    }
  }

  lemma ReopenNearer(t: Tenant, i: nat)
    requires Inv(t) && !t.life.dead && Recovering(t.life, t.net) && i < |t.life.recoveries| && t.life.recoveries[i].Backoff?
    ensures Nearer(t, Reopen(t, i))
  {
    hide Inv;
  }

  lemma ReopenNextNearer(t: Tenant, i: nat, stage: Stage, ctl: nat, reply: Reply)
    requires Inv(t) && !t.life.dead && Recovering(t.life, t.net) && i < |t.life.recoveries|
    requires t.life.recoveries[i] == Reopening(stage, ctl) && Live(t.life, ctl) && Fits(t, stage, reply)
    ensures Nearer(t, ReopenNext(t, i, stage, ctl, reply))
  {
    assert t.life.wasReady && i == 0;
    OpenNextKeeps(t, stage, reply);
    var (t1, o) := OpenNext(t, stage, reply);
    if o.Opened? { assert t1 == t && Reopened(t, t.life.generation); }
    if o.Onward? { StagesFall(t, stage, reply); }
    if o.Stopped? { assert Inv(t1) && !t1.life.available; }
    hide Base, OpenNext, Fits, Revalidate, AttemptFails;
    match o
    case Onward(next) =>
    case Opened => RevalidateNearer(t, t, i, t.life.generation, t.index.members);
    case Stopped => AttemptFailsNearer(t1, t, i);
  }

  lemma StagesFall(t: Tenant, stage: Stage, reply: Reply)
    requires Fits(t, stage, reply) && OpenNext(t, stage, reply).1.Onward?
    ensures Stages(Reopening(OpenNext(t, stage, reply).1.stage, 0)) < Stages(Reopening(stage, 0))
  {
  }

  /**
   * Recovery makes progress: every step the recovery takes leaves the entry available, or dead, or strictly nearer, in a
   * well-founded order, to being one of the two.
   */
  lemma EveryRecoveryStepIsNearer(t: Tenant, i: nat, reply: Reply)
    requires Inv(t) && !t.life.dead && t.life.wasReady && !t.life.available
    ensures RecoveryStep(t, i, reply) == t || Nearer(t, RecoveryStep(t, i, reply))
  {
    assert Recovering(t.life, t.net);
    hide Inv, Recovering, Reopen, AttemptFails, ReopenNext, CheckFails, CheckPasses, Fits, Nearer;
    if i < |t.life.recoveries| {
      match t.life.recoveries[i]
      case Backoff => ReopenNearer(t, i);
      case Reopening(stage, ctl) =>
        if reply.Failed? { AttemptFailsNearer(t, t, i) by { OneRecovery(t); } }
        else if Live(t.life, ctl) && Fits(t, stage, reply) { ReopenNextNearer(t, i, stage, ctl, reply); }
      case Revalidating(_, _, _, _, ctl) =>
        if reply.Failed? { CheckFailsNearer(t, i, reply.definitive); }
        else if Live(t.life, ctl) { CheckPassesNearer(t, i, reply); }
    }
  }

  lemma OneRecovery(t: Tenant)
    requires Recovering(t.life, t.net)
    ensures |t.life.recoveries| == 1
  {
  }

  /** And it is never stuck: a failure of whatever it awaits, which every bounded wait can end in, takes it on. */
  lemma RecoveryIsNeverStuck(t: Tenant)
    requires Inv(t) && !t.life.dead && t.life.wasReady && !t.life.available
    ensures |t.life.recoveries| == 1 && Nearer(t, RecoveryStep(t, 0, Failed(false)))
  {
    assert Recovering(t.life, t.net);
    hide Inv, Reopen, AttemptFails, CheckFails, Nearer;
    match t.life.recoveries[0]
    case Backoff => ReopenNearer(t, 0);
    case Reopening(_, _) => AttemptFailsNearer(t, t, 0);
    case Revalidating(_, _, _, _, _) => CheckFailsNearer(t, 0, false);
  }

  /** The recovery stands where it stood, with as many attempts left; or the entry has died. */
  predicate Undisturbed(f: Life, f': Life) {
    (f.dead ==> f'.dead) && (f'.dead || (f'.recoveries == f.recoveries && Left(f') == Left(f) && f'.available == f.available && f'.wasReady == f.wasReady))
  }

  lemma ReleaseUndisturbs(t: Tenant, l: LeaseId)
    ensures Undisturbed(t.life, Release(t, l).life)
  {
    hide Drop;
  }

  lemma LostUndisturbs(t: Tenant)
    requires t.life.wasReady && !t.life.available
    ensures Undisturbed(t.life, Lost(t).life)
  {
  }

  lemma ReadyFailsUndisturbs(t: Tenant, l: LeaseId)
    ensures Undisturbed(t.life, ReadyFails(t, l).life)
  {
    hide Release;
    ReleaseUndisturbs(t.(ready := t.ready - {l}), l);
  }

  lemma ReadyErrsUndisturbs(t: Tenant, l: LeaseId, generation: nat)
    ensures Undisturbed(t.life, ReadyTop(t, l).life)
    ensures Undisturbed(t.life, ReadyErrs(t, l, generation).life)
  {
    hide ReadyFails;
    ReadyFailsUndisturbs(t, l);
  }

  lemma ReadyStepUndisturbs(t: Tenant, l: LeaseId, reply: Reply)
    requires !t.life.dead && t.life.wasReady && !t.life.available
    ensures Undisturbed(t.life, ReadyStep(t, l, reply).life)
  {
    if l in t.ready {
      hide ReadyFails, ReadyTop, ReadyErrs, Lost, Conflicts, Undisturbed;
      StillUndisturbed(t.life);
      ReadyFailsUndisturbs(t, l);
      LostUndisturbs(t);
      match t.ready[l]
      case AwaitStartup => ReadyErrsUndisturbs(t, l, 0);
      case AwaitReadiness(i) =>
      case Checking(generation, check, ctl) =>
        ReadyErrsUndisturbs(t, l, generation);
        if check.TriggerCheck? && reply.Failed? && !reply.definitive {
          ReadyErrsUndisturbs(Lost(t), l, generation);
          UndisturbedTwice(t.life, Lost(t).life, ReadyErrs(Lost(t), l, generation).life);
        }
    }
  }

  lemma StillUndisturbed(f: Life)
    ensures Undisturbed(f, f)
  {
  }

  lemma UndisturbedTwice(f: Life, f1: Life, f2: Life)
    requires Undisturbed(f, f1) && Undisturbed(f1, f2)
    ensures Undisturbed(f, f2)
  {
  }

  /** Nothing else that happens to a recovering entry sets its recovery back. */
  lemma OnlyRecoveryMovesRecovery(t: Tenant, e: Event)
    requires Inv(t) && !t.life.dead && t.life.wasReady && !t.life.available && !e.RecoveryMoves?
    ensures Undisturbed(t.life, Step(t, e).life)
  {
    assert t.life.startup.Started?;
    assert forall b :: b in t.life.beats ==> b != t.life.generation;
    StillUndisturbed(t.life);
    LostUndisturbs(t);
    hide Inv, Release, ReadyStep, Lost, FactoryReturnsLate, CloseSettles, Awaited, Undisturbed;
    match e
    case Released(l) => ReleaseUndisturbs(t, l);
    case ReadyMoves(l, reply) => ReadyStepUndisturbs(t, l, reply);
    case Disposed => assert Undisturbed(t.life, Die(t.life)) by { DieDisturbs(t.life); }
    case _ =>
  }

  lemma DieDisturbs(f: Life)
    ensures Undisturbed(f, Die(f))
  {
  }

  // ---- every recovery ends ----------------------------------------------------------------------

  /** A recovery is in flight. */
  predicate Recovers(t: Tenant) {
    !t.life.dead && t.life.wasReady && !t.life.available
  }

  /** What happens to a recovering entry: anything but a move of its recovery, and then such a move. */
  datatype Round = Round(meanwhile: seq<Event>, reply: Reply)

  function Meanwhile(t: Tenant, rounds: nat -> Round, n: nat): Tenant {
    Run(After(t, rounds, n), rounds(n).meanwhile)
  }

  function After(t: Tenant, rounds: nat -> Round, n: nat): Tenant
    decreases n, 0
  {
    if n == 0 then t
    else Next(Run(After(t, rounds, n - 1), rounds(n - 1).meanwhile), RecoveryMoves(0, rounds(n - 1).reply))
  }

  /** Nobody but the recovery itself moves it, and when it moves, something changes. */
  ghost predicate Proceeds(t: Tenant, rounds: nat -> Round) {
    forall n: nat ::
      && (forall i :: 0 <= i < |rounds(n).meanwhile| ==> !rounds(n).meanwhile[i].RecoveryMoves?)
      && (Recovers(Meanwhile(t, rounds, n)) ==>
            RecoveryStep(Meanwhile(t, rounds, n).(log := []), 0, rounds(n).reply) != Meanwhile(t, rounds, n).(log := []))
  }

  lemma DeadStays(t: Tenant, e: Event)
    requires Inv(t) && t.life.dead
    ensures Next(t, e).life.dead
  {
    if !e.BeatAnswered? {
      LogIsHistory(t, []);
      hide Inv, Step;
      StepMoves(t.(log := []), e);
    }
  }

  lemma {:induction false} MeanwhileUndisturbed(t: Tenant, trace: seq<Event>)
    requires Inv(t) && Recovers(t)
    requires forall i :: 0 <= i < |trace| ==> !trace[i].RecoveryMoves?
    ensures Undisturbed(t.life, Run(t, trace).life)
  {
    StillUndisturbed(t.life);
    if trace != [] {
      var last := |trace| - 1;
      var u := Run(t, trace[..last]);
      MeanwhileUndisturbed(t, trace[..last]);
      RunKeeps(t, trace[..last]);
      LogIsHistory(u, []);
      hide Inv, Step;
      if u.life.dead {
        DeadStays(u, trace[last]);
      } else {
        OnlyRecoveryMovesRecovery(u.(log := []), trace[last]);
        UndisturbedTwice(t.life, u.life, Next(u, trace[last]).life);
      }
    }
  }

  lemma {:induction false} AfterKeeps(t: Tenant, rounds: nat -> Round, n: nat)
    requires Inv(t)
    ensures Inv(After(t, rounds, n)) && Inv(Meanwhile(t, rounds, n))
  {
    hide Inv, Next;
    if n != 0 {
      AfterKeeps(t, rounds, n - 1);
      NextKeeps(Meanwhile(t, rounds, n - 1), RecoveryMoves(0, rounds(n - 1).reply));
    }
    RunKeeps(After(t, rounds, n), rounds(n).meanwhile);
  }

  function Head(t: Tenant): Recovery {
    if t.life.recoveries == [] then Backoff else t.life.recoveries[0]
  }

  lemma MoveIsNearer(u: Tenant, reply: Reply)
    requires Inv(u) && Recovers(u) && RecoveryStep(u.(log := []), 0, reply) != u.(log := [])
    ensures var b := Next(u, RecoveryMoves(0, reply));
            Recovers(b) ==> Below(Left(b.life), Head(b), Left(u.life), Head(u))
  {
    LogIsHistory(u, []);
    hide Inv, RecoveryStep, Below, Left;
    EveryRecoveryStepIsNearer(u.(log := []), 0, reply);
  }

  /** A round ends a recovery, or brings it nearer to its end. */
  lemma RoundIsNearer(t: Tenant, rounds: nat -> Round, n: nat)
    requires Inv(t) && Proceeds(t, rounds) && Recovers(After(t, rounds, n))
    ensures var a, b := After(t, rounds, n), After(t, rounds, n + 1);
            Recovers(b) ==> Below(Left(b.life), Head(b), Left(a.life), Head(a))
  {
    AfterKeeps(t, rounds, n);
    AfterKeeps(t, rounds, n + 1);
    var a, u := After(t, rounds, n), Meanwhile(t, rounds, n);
    var e := RecoveryMoves(0, rounds(n).reply);
    MeanwhileUndisturbed(a, rounds(n).meanwhile);
    assert After(t, rounds, n + 1) == Next(u, e);
    assert Recovers(u) ==> RecoveryStep(u.(log := []), 0, rounds(n).reply) != u.(log := []);
    hide Inv, After, Run, RecoveryStep, Below, Meanwhile, Proceeds, Left;
    if u.life.dead {
      DeadStays(u, e);
    } else {
      assert Recovers(u);
      MoveIsNearer(u, rounds(n).reply);
    }
  }

  /**
   * So every recovery ends: however its operations settle, whatever else happens in between and however many leases join,
   * there is a round after which the entry is available again, or dead.
   */
  lemma {:induction false} RecoveryEnds(t: Tenant, rounds: nat -> Round, from: nat) returns (n: nat)
    requires Inv(t) && Proceeds(t, rounds)
    ensures from <= n && !Recovers(After(t, rounds, n))
    decreases Left(After(t, rounds, from).life), Stages(Head(After(t, rounds, from))), Checks(Head(After(t, rounds, from)))
  {
    hide Inv, After, Proceeds, Left, Stages, Checks;
    n := from;
    if Recovers(After(t, rounds, from)) {
      RoundIsNearer(t, rounds, from);
      n := from + 1;
      if Recovers(After(t, rounds, from + 1)) { n := RecoveryEnds(t, rounds, from + 1); }
    }
  }

  /**
   * An attempt that fails begins the next one while the budget lasts; when it is spent, the entry dies, and exactly the
   * leases it held are told, each once.
   */
  lemma FailedAttemptsSpendTheBudget(t: Tenant, i: nat)
    requires Inv(t) && Recovers(t) && i < |t.life.recoveries|
    ensures var t' := AttemptFails(t, i);
            && (t'.life.dead <==> Left(t.life) == 0)
            && (!t'.life.dead ==> t'.life.recoveries == [Backoff] && Left(t'.life) == Left(t.life) - 1 && t'.index == t.index
                                  && t'.log == t.log)
            && (t'.life.dead ==> t'.index.members == [] && t'.log == t.log + [Signal(Fail, t.index.members)])
    ensures Routing.Distinct(t.index.members)
    ensures forall l :: l in t.index.members <==> l in t.index.leases && !t.index.leases[l].released
  {
    assert Phase(t) && Recovering(t.life, t.net);
    LostKeeps(t);
    LostLeaves(t);
    LostSaysNothing(t);
    hide Base, Lost;
  }

  lemma LostSaysNothing(t: Tenant)
    requires Recovers(t)
    ensures Lost(t).log == t.log && Lost(t).index == t.index && !Lost(t).life.dead
    ensures Lost(t).life.budget == t.life.budget && Lost(t).life.retries == t.life.retries
  {
  }
}
