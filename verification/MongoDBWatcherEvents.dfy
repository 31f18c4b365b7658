/**
 * What each event means for the observations that share a change stream (Source/MongoDB/MongoDBWatcher.ts:83-149), said
 * of the events of a run rather than of what the watcher recorded: an event of the current stream reaches everybody who
 * listens, an error everybody who listened, and only the named events change who listens and what is open.
 */
module MongoDBWatcherEvents {
  import opened Options
  import opened MongoDBWatcher

  /** The streams whose events reached one listener. */
  function Received(delivered: seq<(nat, set<nat>)>, id: nat): seq<nat> {
    if delivered == [] then []
    else
      var last := |delivered| - 1;
      Received(delivered[..last], id) + if id in delivered[last].1 then [delivered[last].0] else []
  }

  lemma ReceivedOn(delivered: seq<(nat, set<nat>)>, stream: nat, to: set<nat>, id: nat)
    ensures Received(delivered + [(stream, to)], id) == Received(delivered, id) + if id in to then [stream] else []
  {
    assert (delivered + [(stream, to)])[..|delivered|] == delivered;
  }

  // ---- events of the stream ---------------------------------------------------------------------

  /** An event of the current stream goes to everybody who listens, and changes nothing else. */
  lemma EventsReachEveryListener(w: Watcher, s: nat)
    requires Inv(w) && w.stream == Some(s)
    ensures Next(w, Streams(s, true)) == w.(delivered := w.delivered + [(s, w.listeners)])
  {
    hide Opening, Calls, ToldOnce;
  }

  /** Whether this event is one that the listener is to be given. */
  predicate Meant(w: Watcher, e: Event, id: nat) {
    e.Streams? && e.event && w.stream == Some(e.stream) && id in w.listeners
  }

  lemma NothingElseIsDelivered(w: Watcher, e: Event)
    requires Inv(w) && !(e.Streams? && e.event && w.stream == Some(e.stream))
    ensures Next(w, e).delivered == w.delivered
  {
    hide Inv;
  }

  /** The streams of the events that came for one listener while it listened and their stream was the current one. */
  function Sent(trace: seq<Event>, id: nat): seq<nat> {
    if trace == [] then []
    else
      var last := |trace| - 1;
      Sent(trace[..last], id) + if Meant(Run(trace[..last]), trace[last], id) then [trace[last].stream] else []
  }

  /**
   * In every run a listener received, in order and once each, exactly the events that came from the current stream while
   * it was listening.
   */
  lemma {:induction false} ListenersReceiveWhatIsSent(trace: seq<Event>, id: nat)
    ensures Received(Run(trace).delivered, id) == Sent(trace, id)
  {
    if trace != [] {
      var last := |trace| - 1;
      ListenersReceiveWhatIsSent(trace[..last], id);
      RunKeeps(trace[..last]);
      DeliveredNow(Run(trace[..last]), trace[last], id);
    }
  }

  lemma DeliveredNow(w: Watcher, e: Event, id: nat)
    requires Inv(w)
    ensures Received(Next(w, e).delivered, id) == Received(w.delivered, id) + if Meant(w, e, id) then [e.stream] else []
  {
    if e.Streams? && e.event && w.stream == Some(e.stream) {
      EventsReachEveryListener(w, e.stream);
      hide Inv, Next;
      ReceivedOn(w.delivered, e.stream, w.listeners, id);
    } else {
      NothingElseIsDelivered(w, e);
      hide Inv, Next;
    }
  }

  // ---- who listens ------------------------------------------------------------------------------

  /** The start that a `listen` waits for was refused, or the watcher was disposed meanwhile. */
  predicate GivesUp(w: Watcher, id: nat) {
    id in w.calls && w.calls[id].Waiting? && w.calls[id].start < |w.starts| && !w.starts[w.calls[id].start].Asking? &&
    (w.disposed || w.starts[w.calls[id].start].Rejected?)
  }

  predicate Joins(w: Watcher, e: Event, id: nat) {
    e == Listens(id) && id !in w.calls && !w.disposed
  }

  predicate Leaves(w: Watcher, e: Event, id: nat) {
    || (e == Resumes(id) && GivesUp(w, id))
    || (e == Releases(id) && id in w.calls && w.calls[id].Resolved?)
    || (e.Streams? && !e.event && w.stream == Some(e.stream))
    || e.Disposes?
  }

  /** Whoever calls `listen` listens, until its start is refused, it is released, its stream breaks, or all is disposed. */
  lemma OnlyTheseChangeWhoListens(w: Watcher, e: Event, id: nat)
    requires Inv(w)
    ensures id in Next(w, e).listeners <==> Joins(w, e, id) || (id in w.listeners && !Leaves(w, e, id))
  {
    hide Opening, CallFits, ToldOnce;
  }

  /** The release that leaves nobody listening. */
  predicate ReleasesTheLast(w: Watcher, e: Event) {
    e.Releases? && e.id in w.calls && w.calls[e.id].Resolved? && w.listeners <= {e.id}
  }

  predicate Opens(w: Watcher, e: Event) {
    e.Answered? && e.start < |w.starts| && w.starts[e.start].Asking? && !w.disposed
  }

  predicate Ends(w: Watcher, e: Event) {
    (e.Streams? && !e.event && w.stream == Some(e.stream)) || e.Disposes? || ReleasesTheLast(w, e)
  }

  /** A stream opens when the server has answered, and stays until it breaks, its last listener leaves, or all is disposed. */
  lemma OnlyTheseChangeTheStream(w: Watcher, e: Event)
    requires Inv(w)
    ensures Next(w, e).stream == if Opens(w, e) then Some(|w.pumps|) else if Ends(w, e) then None else w.stream
  {
    if Opens(w, e) { assert Current(w, e.start); }
    hide CallFits, ToldOnce;
  }

  // ---- listening --------------------------------------------------------------------------------

  /** A `listen` waits for the start under way, or begins one; on a disposed watcher it fails at once. */
  lemma ListenersWaitForAStart(w: Watcher, id: nat)
    requires Inv(w) && id !in w.calls
    ensures var w' := Next(w, Listens(id));
            if w.disposed then id in w'.calls && w'.calls[id].Failed? && w'.listeners == w.listeners
            else
              && id in w'.calls && w'.calls[id].Waiting? && w'.opening == Some(w'.calls[id].start)
              && w'.calls[id].start < |w'.starts| && !w'.starts[w'.calls[id].start].Rejected?
              && (w.opening.Some? ==> w'.starts == w.starts && w'.opening == w.opening)
              && (w.opening.None? ==> w'.starts == w.starts + [Asking(w.generation, id)])
  {
    hide Calls, ToldOnce;
  }

  /** The server's answer opens a stream, read from then on by its own pump; the start is over. */
  lemma AnswersOpenAStream(w: Watcher, k: nat)
    requires Inv(w) && k < |w.starts| && w.starts[k].Asking? && !w.disposed
    ensures var w' := Next(w, Answered(k));
            && w'.stream == Some(|w.pumps|) && w'.pumps == w.pumps + [Reading] && w'.closes == w.closes + [0]
            && w'.starts == w.starts[k := Fulfilled] && w'.opening == Some(k)
  {
    assert Current(w, k);
    hide CallFits, ToldOnce;
  }

  /** A refusal leaves nothing under way, so that whoever listens next starts anew. */
  lemma RefusalsStartAnew(w: Watcher, k: nat, id: nat)
    requires Inv(w) && k < |w.starts| && w.starts[k].Asking? && !w.disposed
    requires id !in w.calls
    ensures var w' := Next(w, Refused(k));
            w'.opening.None? && w'.starts == w.starts[k := Rejected] && Joins(w', Listens(id), id)
    ensures var w' := Next(Next(w, Refused(k)), Listens(id));
            id in w'.calls && w'.calls[id] == Waiting(|w.starts|) && w'.starts == w.starts[k := Rejected] + [Asking(w.generation, id)]
  {
    assert Current(w, k);
    hide Calls, ToldOnce;
  }

  /** When its start is over a `listen` returns exactly if the stream was opened and nothing was disposed. */
  lemma ListensReturnExactly(w: Watcher, id: nat)
    requires id in w.calls && w.calls[id].Waiting? && w.calls[id].start < |w.starts|
    ensures var start, after := w.starts[w.calls[id].start], Next(w, Resumes(id)).calls;
            id in after && after[id] == if start.Asking? then w.calls[id] else if start.Fulfilled? && !w.disposed then Resolved else Failed
  {
  }

  /** The events by which a new `listen` succeeds: the server answers, unless it has, and the `listen` resumes. */
  function Welcome(w: Watcher, id: nat): seq<Event> {
    [Listens(id)] + (if w.stream.Some? then [] else [Answered(if w.opening.Some? then w.opening.value else |w.starts|)]) + [Resumes(id)]
  }

  function After(w: Watcher, events: seq<Event>): Watcher
    decreases |events|
  {
    if events == [] then w else After(Next(w, events[0]), events[1..])
  }

  lemma Welcomed(w: Watcher, id: nat)
    requires Inv(w) && !w.disposed && id !in w.calls
    ensures var w1 := Next(w, Listens(id));
            var k := if w.opening.Some? then w.opening.value else |w.starts|;
            && Inv(w1) && id in w1.calls && w1.calls[id] == Waiting(k) && k < |w1.starts| && id in w1.listeners
            && !w1.disposed && w1.stream == w.stream && (w.stream.Some? ==> w1.starts[k].Fulfilled?) && (w.stream.None? ==> w1.starts[k].Asking?)
  {
    NextKeeps(w, Listens(id));
    hide Inv;
  }

  lemma Answers(w: Watcher, id: nat, k: nat)
    requires Inv(w) && !w.disposed && id in w.listeners && id in w.calls && w.calls[id] == Waiting(k) && k < |w.starts| && w.starts[k].Asking?
    ensures var w1 := Next(w, Answered(k));
            && Inv(w1) && id in w1.calls && w1.calls[id] == Waiting(k) && k < |w1.starts| && w1.starts[k].Fulfilled?
            && !w1.disposed && id in w1.listeners && w1.stream.Some?
  {
    NextKeeps(w, Answered(k));
    AnswersOpenAStream(w, k);
    hide Inv;
  }

  lemma Returns(w: Watcher, id: nat, k: nat)
    requires Inv(w) && !w.disposed && id in w.listeners && id in w.calls && w.calls[id] == Waiting(k)
    requires k < |w.starts| && w.starts[k].Fulfilled? && w.stream.Some?
    ensures var w1 := Next(w, Resumes(id));
            Inv(w1) && id in w1.calls && w1.calls[id].Resolved? && id in w1.listeners && w1.stream.Some?
  {
    NextKeeps(w, Resumes(id));
    hide Inv;
  }

  /** On a watcher that is not disposed a new `listen` returns once the server has answered, and its listener hears. */
  lemma NewListenersHear(w: Watcher, id: nat)
    requires Inv(w) && !w.disposed && id !in w.calls
    ensures var w' := After(w, Welcome(w, id));
            && Inv(w') && id in w'.calls && w'.calls[id].Resolved? && id in w'.listeners && w'.stream.Some?
            && Received(Next(w', Streams(w'.stream.value, true)).delivered, id) == Received(w'.delivered, id) + [w'.stream.value]
  {
    Welcomed(w, id);
    var w1 := Next(w, Listens(id));
    var k := if w.opening.Some? then w.opening.value else |w.starts|;
    var w2 := if w.stream.Some? then w1 else Next(w1, Answered(k));
    if w.stream.None? { Answers(w1, id, k); }
    Returns(w2, id, k);
    var w3 := Next(w2, Resumes(id));
    DeliveredNow(w3, Streams(w3.stream.value, true), id);
    WelcomeRuns(w, id, w1, w2, k);
  }

  lemma WelcomeRuns(w: Watcher, id: nat, w1: Watcher, w2: Watcher, k: nat)
    requires w1 == Next(w, Listens(id)) && k == if w.opening.Some? then w.opening.value else |w.starts|
    requires w2 == if w.stream.Some? then w1 else Next(w1, Answered(k))
    ensures After(w, Welcome(w, id)) == Next(w2, Resumes(id))
  {
    hide Next;
    var rest := (if w.stream.Some? then [] else [Answered(k)]) + [Resumes(id)];
    assert Welcome(w, id) == [Listens(id)] + rest && Welcome(w, id)[1..] == rest;
    if w.stream.None? { assert rest[1..] == [Resumes(id)]; }
    assert [Resumes(id)][1..] == [];
    assert After(w2, [Resumes(id)]) == After(Next(w2, Resumes(id)), []);
    assert After(w1, rest) == Next(w2, Resumes(id));
  }

  // ---- leaving, breaking, disposal --------------------------------------------------------------

  /** A release removes its listener, and the last one closes the stream. */
  lemma ReleasesEndWithTheLast(w: Watcher, id: nat)
    requires Inv(w) && id in w.calls && w.calls[id].Resolved?
    ensures var w' := Next(w, Releases(id));
            && w'.listeners == w.listeners - {id} && id in w'.released && w'.told == w.told
            && (if w.listeners <= {id} then w'.stream.None? && w'.opening.None? && w'.generation == w.generation + 1
                else w'.stream == w.stream && w'.opening == w.opening && w'.closes == w.closes)
            && (w.stream.Some? && w.listeners <= {id} ==> w'.closes == w.closes[w.stream.value := 1])
  {
    hide CallFits, ToldOnce;
  }

  /** An error or the end of the current stream closes it, and leaves its pump owing the error to all who listened. */
  lemma BrokenStreamsOweEverybody(w: Watcher, s: nat)
    requires Inv(w) && w.stream == Some(s)
    ensures var w' := Next(w, Streams(s, false));
            && w'.stream.None? && w'.opening.None? && w'.generation == w.generation + 1 && w'.listeners == {}
            && w'.pumps == w.pumps[s := Failing(w.listeners)] && w'.closes == w.closes[s := 1] && w'.told == w.told
  {
    hide Calls, ToldOnce;
  }

  lemma {:induction false} DebtsAreKept(w: Watcher, events: seq<Event>, s: nat)
    requires s < |w.pumps| && w.pumps[s].Failing? && Closed(s) !in events
    ensures var w' := After(w, events); s < |w'.pumps| && w'.pumps[s] == w.pumps[s]
    decreases |events|
  {
    if events != [] {
      DebtIsKept(w, events[0], s);
      DebtsAreKept(Next(w, events[0]), events[1..], s);
    }
  }

  lemma DebtIsKept(w: Watcher, e: Event, s: nat)
    requires s < |w.pumps| && w.pumps[s].Failing? && e != Closed(s)
    ensures var w' := Next(w, e); s < |w'.pumps| && w'.pumps[s] == w.pumps[s]
  {
  }

  /**
   * Whatever happens between the failure of a stream and the settling of its close, the latter gives the error to all who
   * were listening when it failed, and to nobody else.
   */
  lemma BrokenStreamsTellEverybody(w: Watcher, events: seq<Event>, s: nat)
    requires Inv(w) && w.stream == Some(s) && Closed(s) !in events
    ensures var before := After(Next(w, Streams(s, false)), events);
            Next(before, Closed(s)).told == before.told + multiset(w.listeners)
  {
    BrokenStreamsOweEverybody(w, s);
    hide Inv;
    DebtsAreKept(Next(w, Streams(s, false)), events, s);
  }

  /** Disposal gives everybody who listens an error, and closes the stream. */
  lemma DisposalTellsEverybody(w: Watcher)
    requires Inv(w) && !w.disposed
    ensures var w' := Next(w, Disposes);
            && w'.disposed && w'.listeners == {} && w'.stream.None? && w'.told == w.told + multiset(w.listeners)
            && w'.closes == if w.stream.Some? then w.closes[w.stream.value := 1] else w.closes
  {
    hide Calls, ToldOnce;
  }

  /** Nothing else gives anybody an error. */
  lemma OnlyEndsAreTold(w: Watcher, e: Event)
    requires !e.Disposes? && !(e.Closed? && e.stream < |w.pumps| && w.pumps[e.stream].Failing?)
    ensures Next(w, e).told == w.told
  {
  }
}
