/**
 * One change stream shared by all observations of a tenant (Source/MongoDB/MongoDBWatcher.ts:13-150), as a state machine
 * of the steps between awaits. Suspended coroutines are values: one `starts` entry per start, one `calls` entry per
 * `listen`, one `pumps` entry per opened stream.
 */
module MongoDBWatcher {
  import opened Options

  /** A `start`, asking the server under the generation it began in for the `listen` that began it. */
  datatype Start = Asking(generation: nat, first: nat) | Fulfilled | Rejected

  /** A `listen`: awaiting a start, returned, or thrown. */
  datatype Call = Waiting(start: nat) | Resolved | Failed

  /** A `pump`: awaiting the next event, or, after an error, the close of its stream with the listeners it will tell. */
  datatype Pump = Reading | Failing(owed: set<nat>) | Ended

  /**
   * Streams are numbered as they open; `closes` counts the calls of `close`. `told` is history: who was given an error;
   * `released` likewise: whose release was called; `delivered`: which stream's event went to whom.
   */
  datatype Watcher = Watcher(
    disposed: bool, generation: nat, listeners: set<nat>, stream: Option<nat>, opening: Option<nat>,
    starts: seq<Start>, calls: map<nat, Call>, pumps: seq<Pump>, closes: seq<nat>,
    told: multiset<nat>, released: set<nat>, delivered: seq<(nat, set<nat>)>)

  function Open(): Watcher {
    Watcher(false, 0, {}, None, None, [], map[], [], [], multiset{}, {}, [])
  }

  // ---- steps ------------------------------------------------------------------------------------

  /** `stop`, up to the await of the close. */
  function Stop(w: Watcher): Watcher {
    w.(generation := w.generation + 1, stream := None, opening := None,
    closes := if w.stream.Some? && w.stream.value < |w.closes| then w.closes[w.stream.value := w.closes[w.stream.value] + 1] else w.closes)
  }

  /** `listen`, up to its await: register, and join the start under way or begin one. */
  function Listen(w: Watcher, id: nat): Watcher {
    if id in w.calls then w
    else if w.disposed then w.(calls := w.calls[id := Failed])
    else if w.opening.Some? then w.(listeners := w.listeners + {id}, calls := w.calls[id := Waiting(w.opening.value)])
    else
      var k := |w.starts|;
      w.(listeners := w.listeners + {id}, calls := w.calls[id := Waiting(k)],
      starts := w.starts + [Asking(w.generation, id)], opening := Some(k))
  }

  function Settle(w: Watcher, k: nat, s: Start): Watcher
    requires k < |w.starts|
  {
    w.(starts := w.starts[k := s])
  }

  /** The server refuses, or cannot be watched: whoever listens next starts anew. */
  function StartFails(w: Watcher, k: nat): Watcher
    requires k < |w.starts| && w.starts[k].Asking?
  {
    Settle(w.(opening := if w.starts[k].generation == w.generation then None else w.opening), k, Rejected)
  }

  /** The server answers: open the stream, unless everything changed meanwhile. */
  function StartAnswers(w: Watcher, k: nat): Watcher
    requires k < |w.starts| && w.starts[k].Asking?
  {
    if w.disposed || w.starts[k].generation != w.generation then Settle(w, k, Fulfilled)
    else if w.listeners == {} then Settle(w.(opening := None), k, Fulfilled)
    else Settle(w.(stream := Some(|w.pumps|), pumps := w.pumps + [Reading], closes := w.closes + [0]), k, Fulfilled)
  }

  /** `listen` throws: its listener is forgotten. */
  function Drop(w: Watcher, id: nat): Watcher {
    w.(listeners := w.listeners - {id}, calls := w.calls[id := Failed])
  }

  /** `listen` after its await. */
  function ListenResumes(w: Watcher, id: nat): Watcher {
    if id !in w.calls || !w.calls[id].Waiting? || |w.starts| <= w.calls[id].start then w
    else
      match w.starts[w.calls[id].start]
      case Asking(_, _) => w
      case Rejected => Drop(w, id)
      case Fulfilled =>
        if w.disposed then Drop(w, id)
        else w.(calls := w.calls[id := Resolved])
  }

  /** The release a resolved `listen` returned; it may be called again. */
  function Release(w: Watcher, id: nat): Watcher {
    if id !in w.calls || !w.calls[id].Resolved? then w else
      var w1 := w.(listeners := w.listeners - {id}, released := w.released + {id});
      if w1.listeners == {} then Stop(w1) else w1
  }

  /** The current stream fails: nobody hears of it again, and whoever listened is owed the error. */
  function PumpFails(w: Watcher, s: nat): Watcher
    requires s < |w.pumps|
  {
    Stop(w.(listeners := {}, pumps := w.pumps[s := Failing(w.listeners)]))
  }

  /** An event, an error or the end arrives at the pump of one stream. */
  function StreamAnswers(w: Watcher, s: nat, event: bool): Watcher {
    if |w.pumps| <= s || !w.pumps[s].Reading? then w
    else if event then
      if w.stream != Some(s) || w.disposed then w.(pumps := w.pumps[s := Ended])
      else w.(delivered := w.delivered + [(s, w.listeners)])
    else if w.stream == Some(s) && !w.disposed then PumpFails(w, s)
    else w.(pumps := w.pumps[s := Ended])
  }

  /** The close of a stream settles, either way: a pump that failed tells its listeners. */
  function CloseSettles(w: Watcher, s: nat): Watcher {
    if |w.pumps| <= s || !w.pumps[s].Failing? then w
    else w.(pumps := w.pumps[s := Ended], told := w.told + multiset(w.pumps[s].owed))
  }

  function Dispose(w: Watcher): Watcher {
    if w.disposed then w else
      Stop(w.(disposed := true, told := w.told + multiset(w.listeners), listeners := {}))
  }

  datatype Event =
    | Listens(id: nat)
    | Refused(start: nat)
    | Answered(start: nat)
    | Resumes(id: nat)
    | Releases(id: nat)
    | Streams(stream: nat, event: bool)
    | Closed(stream: nat)
    | Disposes

  function Next(w: Watcher, e: Event): Watcher {
    match e
    case Listens(id) => Listen(w, id)
    case Refused(k) => if k < |w.starts| && w.starts[k].Asking? then StartFails(w, k) else w
    case Answered(k) => if k < |w.starts| && w.starts[k].Asking? then StartAnswers(w, k) else w
    case Resumes(id) => ListenResumes(w, id)
    case Releases(id) => Release(w, id)
    case Streams(s, event) => StreamAnswers(w, s, event)
    case Closed(s) => CloseSettles(w, s)
    case Disposes => Dispose(w)
  }

  function Run(trace: seq<Event>): Watcher {
    if trace == [] then Open() else Next(Run(trace[..|trace| - 1]), trace[|trace| - 1])
  }

  // ---- what every run keeps ---------------------------------------------------------------------

  /** Only the current stream is open, and only its pump reads with effect. */
  ghost predicate Streaming(stream: Option<nat>, disposed: bool, pumps: seq<Pump>, closes: seq<nat>) {
    && |closes| == |pumps|
    && (stream.Some? ==> stream.value < |pumps| && pumps[stream.value].Reading? && !disposed)
    && (forall s :: 0 <= s < |closes| ==> closes[s] == if stream == Some(s) then 0 else 1)
  }

  /** The start under way, or the one that opened the current stream, is the one everybody joins. */
  ghost predicate Opening(w: Watcher) {
    && (w.opening.Some? ==>
          && w.opening.value < |w.starts| && !w.disposed && !w.starts[w.opening.value].Rejected?
          && (w.starts[w.opening.value].Fulfilled? <==> w.stream.Some?))
    && (w.stream.Some? ==> w.opening.Some?)
    && (forall k :: 0 <= k < |w.starts| && w.starts[k].Asking? ==> Current(w, k) || w.disposed)
  }

  /** A start that is still asking belongs to the present generation, and whoever began it is still listening. */
  ghost predicate Current(w: Watcher, k: nat)
    requires k < |w.starts| && w.starts[k].Asking?
  {
    && w.opening == Some(k) && w.starts[k].generation == w.generation
    && w.starts[k].first in w.listeners && w.starts[k].first in w.calls && w.calls[w.starts[k].first] == Waiting(k)
  }

  /** Somebody who will be told of an error once a stream has closed. */
  ghost predicate Owed(pumps: seq<Pump>, id: nat) {
    exists s :: 0 <= s < |pumps| && pumps[s].Failing? && id in pumps[s].owed
  }

  /** Registered with the current stream, or told of its end, or about to be. */
  ghost predicate Served(w: Watcher, id: nat) {
    (id in w.listeners && w.stream.Some?) || id in w.told || Owed(w.pumps, id)
  }

  ghost predicate CallFits(w: Watcher, id: nat)
    requires id in w.calls
  {
    match w.calls[id]
    case Failed => true
    case Resolved => id in w.released || Served(w, id)
    case Waiting(k) =>
      k < |w.starts| && id !in w.released &&
      (!w.disposed ==>
        match w.starts[k]
        case Asking(_, _) => id in w.listeners
        case Fulfilled => Served(w, id)
        case Rejected => true)
  }

  ghost predicate Calls(w: Watcher) {
    && (forall id :: id in w.calls ==> CallFits(w, id))
    && (forall id :: id in w.listeners ==> id in w.calls && !w.calls[id].Failed? && id !in w.released)
    && (forall id :: id in w.released ==> id in w.calls && w.calls[id].Resolved?)
    && (w.disposed ==> w.listeners == {})
  }

  /** Nobody is told of an error twice. */
  ghost predicate ToldOnce(w: Watcher) {
    && (forall id :: w.told[id] <= 1)
    && (forall id :: id in w.listeners ==> id !in w.told && !Owed(w.pumps, id))
    && (forall s, id :: 0 <= s < |w.pumps| && w.pumps[s].Failing? && id in w.pumps[s].owed ==> id !in w.told && id in w.calls)
    && (forall s, t, id :: 0 <= s < t < |w.pumps| && w.pumps[s].Failing? && w.pumps[t].Failing? ==> !(id in w.pumps[s].owed && id in w.pumps[t].owed))
    && (forall id :: id in w.told ==> id in w.calls)
  }

  ghost predicate Inv(w: Watcher) {
    Streaming(w.stream, w.disposed, w.pumps, w.closes) && Opening(w) && Calls(w) && ToldOnce(w)
  }

  /** A debt is kept while its pump is failing, whatever becomes of the others. */
  lemma StillOwed(pumps: seq<Pump>, pumps': seq<Pump>)
    requires |pumps| <= |pumps'| && forall s :: 0 <= s < |pumps| && pumps[s].Failing? ==> pumps'[s] == pumps[s]
    ensures forall id :: Owed(pumps, id) ==> Owed(pumps', id)
  {
    forall id | Owed(pumps, id) ensures Owed(pumps', id) {
      var s :| 0 <= s < |pumps| && pumps[s].Failing? && id in pumps[s].owed;
      assert pumps'[s].Failing? && id in pumps'[s].owed;
    }
  }

  lemma ListenOpens(w: Watcher, id: nat)
    requires Opening(w)
    ensures Opening(Listen(w, id))
  {
  }

  lemma ListenCalls(w: Watcher, id: nat)
    requires Opening(w) && Calls(w)
    ensures Calls(Listen(w, id))
  {
    hide Opening, Owed;
    if w.opening.Some? { OpeningIs(w); }
  }

  lemma OpeningIs(w: Watcher)
    requires Opening(w) && w.opening.Some?
    ensures w.opening.value < |w.starts| && !w.disposed && !w.starts[w.opening.value].Rejected?
    ensures w.starts[w.opening.value].Fulfilled? <==> w.stream.Some?
  {
  }

  lemma ListenTells(w: Watcher, id: nat)
    requires Calls(w) && ToldOnce(w)
    ensures ToldOnce(Listen(w, id))
  {
    hide CallFits;
  }

  lemma ListenKeeps(w: Watcher, id: nat)
    requires Inv(w)
    ensures Inv(Listen(w, id))
  {
    hide Opening, Calls, ToldOnce;
    ListenOpens(w, id);
    ListenCalls(w, id);
    ListenTells(w, id);
  }

  lemma StartFailsKeeps(w: Watcher, k: nat)
    requires Inv(w) && k < |w.starts| && w.starts[k].Asking?
    ensures Inv(StartFails(w, k))
  {
  }

  lemma StartAnswersKeeps(w: Watcher, k: nat)
    requires Inv(w) && k < |w.starts| && w.starts[k].Asking?
    ensures Inv(StartAnswers(w, k))
  {
    StillOwed(w.pumps, StartAnswers(w, k).pumps);
  }

  lemma DropKeeps(w: Watcher, id: nat)
    requires Inv(w) && id in w.calls && w.calls[id].Waiting?
    requires w.disposed || (w.calls[id].start < |w.starts| && w.starts[w.calls[id].start].Rejected?)
    ensures Inv(Drop(w, id))
  {
    hide Owed;
  }

  lemma ResolveKeeps(w: Watcher, id: nat)
    requires Inv(w) && id in w.calls && w.calls[id].Waiting? && !w.disposed
    requires w.calls[id].start < |w.starts| && w.starts[w.calls[id].start].Fulfilled?
    ensures Inv(w.(calls := w.calls[id := Resolved]))
  {
    assert CallFits(w, id);
    hide Owed;
  }

  lemma ListenResumesKeeps(w: Watcher, id: nat)
    requires Inv(w)
    ensures Inv(ListenResumes(w, id))
  {
    if id in w.calls && w.calls[id].Waiting? && w.calls[id].start < |w.starts| && !w.starts[w.calls[id].start].Asking? {
      if w.disposed || w.starts[w.calls[id].start].Rejected? { DropKeeps(w, id); } else { ResolveKeeps(w, id); }
    }
    hide Inv;
  }

  lemma ReleaseKeeps(w: Watcher, id: nat)
    requires Inv(w)
    ensures Inv(Release(w, id))
  {
    forall k | 0 <= k < |w.starts| && w.starts[k].Asking? && !w.disposed && id in w.calls && w.calls[id].Resolved?
      ensures w.starts[k].first in w.listeners - {id}
    {
      assert Current(w, k);
    }
  }

  lemma NobodyAsks(w: Watcher)
    requires Opening(w) && w.stream.Some?
    ensures forall k :: 0 <= k < |w.starts| ==> !w.starts[k].Asking?
  {
  }

  lemma PumpFailsKeeps(w: Watcher, s: nat)
    requires Inv(w) && s < |w.pumps| && w.pumps[s].Reading? && w.stream == Some(s)
    ensures var w' := PumpFails(w, s); Streaming(w'.stream, w'.disposed, w'.pumps, w'.closes)
    ensures Opening(PumpFails(w, s))
    ensures Calls(PumpFails(w, s))
  {
    var w' := PumpFails(w, s);
    StillOwed(w.pumps, w'.pumps);
    forall id | id in w.listeners ensures Owed(w'.pumps, id) {
      assert w'.pumps[s].Failing? && id in w'.pumps[s].owed;
    }
    NobodyAsks(w);
    hide ToldOnce;
  }

  lemma PumpFailsTells(w: Watcher, s: nat)
    requires Inv(w) && s < |w.pumps| && w.pumps[s].Reading? && w.stream == Some(s)
    ensures ToldOnce(PumpFails(w, s))
  {
    var w' := PumpFails(w, s);
    forall t, id | 0 <= t < |w'.pumps| && w'.pumps[t].Failing? && id in w'.pumps[t].owed && t != s ensures Owed(w.pumps, id) {
      assert w.pumps[t].Failing? && id in w.pumps[t].owed;
    }
    hide Opening, CallFits;
  }

  lemma StreamAnswersKeeps(w: Watcher, s: nat, event: bool)
    requires Inv(w)
    ensures Inv(StreamAnswers(w, s, event))
  {
    if s < |w.pumps| && w.pumps[s].Reading? && !event && w.stream == Some(s) {
      PumpFailsKeeps(w, s);
      PumpFailsTells(w, s);
    } else if s < |w.pumps| && w.pumps[s].Reading? && w.stream != Some(s) {
      PumpEndsKeeps(w, s);
    } else {
      assert StreamAnswers(w, s, event) == w || StreamAnswers(w, s, event) == w.(delivered := w.delivered + [(s, w.listeners)]);
      DeliveryKeeps(w, w.delivered + [(s, w.listeners)]);
    }
    hide Inv, PumpFails;
  }

  lemma DeliveryKeeps(w: Watcher, delivered: seq<(nat, set<nat>)>)
    requires Inv(w)
    ensures Inv(w.(delivered := delivered))
  {
  }

  lemma PumpEndsKeeps(w: Watcher, s: nat)
    requires Inv(w) && s < |w.pumps| && w.pumps[s].Reading? && w.stream != Some(s)
    ensures Inv(w.(pumps := w.pumps[s := Ended]))
  {
    StillOwed(w.pumps, w.pumps[s := Ended]);
    StillOwed(w.pumps[s := Ended], w.pumps);
  }

  lemma CloseSettlesKeeps(w: Watcher, s: nat)
    requires Inv(w)
    ensures Inv(CloseSettles(w, s))
  {
    var w' := CloseSettles(w, s);
    forall id | Owed(w.pumps, id) ensures id in w'.told || Owed(w'.pumps, id) {
      var t :| 0 <= t < |w.pumps| && w.pumps[t].Failing? && id in w.pumps[t].owed;
      if t != s { assert w'.pumps[t].Failing? && id in w'.pumps[t].owed; }
    }
  }

  lemma DisposeKeeps(w: Watcher)
    requires Inv(w)
    ensures Inv(Dispose(w))
  {
  }

  lemma OpenKeeps()
    ensures Inv(Open())
  {
  }

  lemma NextKeeps(w: Watcher, e: Event)
    requires Inv(w)
    ensures Inv(Next(w, e))
  {
    hide Inv, Listen, StartFails, StartAnswers, ListenResumes, Release, StreamAnswers, CloseSettles, Dispose;
    match e
    case Listens(id) => ListenKeeps(w, id);
    case Refused(k) => if k < |w.starts| && w.starts[k].Asking? { StartFailsKeeps(w, k); }
    case Answered(k) => if k < |w.starts| && w.starts[k].Asking? { StartAnswersKeeps(w, k); }
    case Resumes(id) => ListenResumesKeeps(w, id);
    case Releases(id) => ReleaseKeeps(w, id);
    case Streams(s, event) => StreamAnswersKeeps(w, s, event);
    case Closed(s) => CloseSettlesKeeps(w, s);
    case Disposes => DisposeKeeps(w);
  }

  lemma {:induction false} RunKeeps(trace: seq<Event>)
    ensures Inv(Run(trace))
  {
    OpenKeeps();
    hide Inv, Next, Open;
    if trace != [] {
      RunKeeps(trace[..|trace| - 1]);
      NextKeeps(Run(trace[..|trace| - 1]), trace[|trace| - 1]);
    }
  }

  // ---- what observers can rely on ---------------------------------------------------------------

  /**
   * In every run, a listener whose `listen` has returned and that was not released is registered with the current
   * stream, which is open and read by its own pump; or it was given an error; or a pump that failed will give it one as
   * soon as its stream has closed. And nobody is given an error twice.
   */
  lemma ListenersAreServed(trace: seq<Event>, id: nat)
    requires var w := Run(trace); id in w.calls && w.calls[id].Resolved? && id !in w.released
    ensures var w := Run(trace);
            && ((id in w.listeners && w.stream.Some? && w.stream.value < |w.pumps| && w.pumps[w.stream.value].Reading?
                 && w.stream.value < |w.closes| && w.closes[w.stream.value] == 0)
                || w.told[id] == 1 || Owed(w.pumps, id))
            && w.told[id] <= 1
  {
    RunKeeps(trace);
    hide Run, Owed;
    assert CallFits(Run(trace), id);
  }

  /** Every stream that was opened is closed at most once, and has been closed unless it is the current one. */
  lemma StreamsAreClosedOnce(trace: seq<Event>, s: nat)
    requires s < |Run(trace).pumps|
    ensures var w := Run(trace); |w.closes| == |w.pumps| && w.closes[s] == if w.stream == Some(s) then 0 else 1
  {
    RunKeeps(trace);
    hide Run, Opening, Calls, ToldOnce;
  }

  /** A pump whose stream has been replaced or closed delivers nothing, tells nobody, and stops nothing newer. */
  lemma SupersededPumpsAreHarmless(trace: seq<Event>, s: nat, event: bool)
    requires Run(trace).stream != Some(s)
    ensures var w, w' := Run(trace), Next(Run(trace), Streams(s, event));
            w' == w.(pumps := w'.pumps) && forall t :: 0 <= t < |w.pumps| && t != s ==> t < |w'.pumps| && w'.pumps[t] == w.pumps[t]
  {
    hide Run;
  }

  /** After disposal nothing is open and nobody listens; all who were served have been told, or are about to be. */
  lemma DisposalEndsEverything(trace: seq<Event>)
    requires Run(trace).disposed
    ensures var w := Run(trace);
            && w.stream.None? && w.listeners == {}
            && (forall s :: 0 <= s < |w.closes| ==> w.closes[s] == 1)
            && (forall id :: id in w.calls && w.calls[id].Resolved? ==> id in w.released || id in w.told || Owed(w.pumps, id))
  {
    RunKeeps(trace);
    hide Run, Owed, ToldOnce;
    var w := Run(trace);
    forall id | id in w.calls && w.calls[id].Resolved? ensures id in w.released || id in w.told || Owed(w.pumps, id) {
      assert CallFits(w, id);
    }
  }

  /** A start is never overtaken: while one is asking, nothing has stopped, and whoever began it still listens. */
  lemma StartsAreNotOvertaken(trace: seq<Event>, k: nat)
    requires var w := Run(trace); k < |w.starts| && w.starts[k].Asking? && !w.disposed
    ensures var w := Run(trace); w.opening == Some(k) && w.starts[k].generation == w.generation && w.listeners != {}
  {
    RunKeeps(trace);
    hide Run, Streaming, Calls, ToldOnce;
    assert Current(Run(trace), k);
  }
}
