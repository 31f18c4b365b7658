/**
 * The coalescing loop behind a joined selection (Source/MongoDB/MongoDBWatcher.ts:46-76): notifications that arrive while
 * a snapshot is being read are remembered in one flag, and none of them is lost.
 */
module MongoDBSelection {
  import opened Options

  /**
   * `begun`, `changes`, `since` and `emitted` are history: whether a read ever began, how many notifications there were,
   * how many of them preceded the latest read, and how many preceded the read that was emitted last.
   */
  datatype Selection = Selection(dirty: bool, running: bool, closed: bool, disposed: bool,
                                 begun: bool, changes: nat, since: nat, emitted: Option<nat>)

  function Open(): Selection {
    Selection(false, false, false, false, false, 0, 0, None)
  }

  /** The head of the loop, up to the await of the collections. */
  function Begin(s: Selection): Selection {
    s.(dirty := false, since := s.changes)
  }

  function ReadOf(s: Selection): Selection {
    if s.running || s.closed then s else Begin(s.(running := true, begun := true))
  }

  datatype Event = Notified | ListenResolved | ReadEnds(ok: bool) | Unsubscribes | Disposes

  function Next(s: Selection, e: Event): Selection {
    match e
    case Notified => ReadOf(s.(dirty := true, changes := s.changes + 1))
    case ListenResolved => ReadOf(s)
    case ReadEnds(ok) =>
      if !s.running then s
      else if !ok then s.(closed := true, running := false)
      else
        var s1 := if !s.closed && !s.disposed then s.(emitted := Some(s.since)) else s;
        if s1.dirty && !s1.closed && !s1.disposed then Begin(s1) else s1.(running := false)
    case Unsubscribes => s.(closed := true)
    case Disposes => s.(disposed := true)
  }

  function Run(trace: seq<Event>): Selection {
    if trace == [] then Open() else Next(Run(trace[..|trace| - 1]), trace[|trace| - 1])
  }

  ghost predicate Inv(s: Selection) {
    && s.since <= s.changes
    && (s.running && !s.closed ==> s.begun && (s.dirty <==> s.since < s.changes))
    && (!s.running && !s.closed && !s.disposed && s.begun ==> !s.dirty && s.since == s.changes && s.emitted == Some(s.since))
    && (!s.begun ==> s.changes == 0 || s.closed)
  }

  lemma {:induction false} RunKeeps(trace: seq<Event>)
    ensures Inv(Run(trace))
  {
    if trace != [] { RunKeeps(trace[..|trace| - 1]); }
  }

  /**
   * No notification is lost: whenever an open selection that has begun is not reading, the snapshot it emitted last was
   * read after the last notification, however many arrived during earlier reads.
   */
  lemma RestingSelectionIsCurrent(trace: seq<Event>)
    requires var s := Run(trace); s.begun && !s.running && !s.closed && !s.disposed
    ensures Run(trace).emitted == Some(Run(trace).changes)
  {
    RunKeeps(trace);
    hide Run;
  }

  /** A notification that arrives during a read is answered by another read, which begins when this one ends. */
  lemma NotificationsAreCoalesced(trace: seq<Event>)
    requires var s := Run(trace); s.running && !s.closed && !s.disposed
    ensures var s := Next(Next(Run(trace), Notified), ReadEnds(true)); s.running && s.since == s.changes && !s.dirty
  {
    RunKeeps(trace);
    hide Run;
  }

  // ---- what each event means --------------------------------------------------------------------

  /** How often the shared stream notified, by the events alone. */
  function Notifications(trace: seq<Event>): nat {
    if trace == [] then 0 else Notifications(trace[..|trace| - 1]) + if trace[|trace| - 1].Notified? then 1 else 0
  }

  lemma {:induction false} EveryNotificationCounts(trace: seq<Event>)
    ensures Run(trace).changes == Notifications(trace)
  {
    if trace != [] { EveryNotificationCounts(trace[..|trace| - 1]); }
  }

  /**
   * So an open selection that rests has emitted a snapshot that was read after as many notifications as ever came; and
   * one that listens rests or reads: it began at the latest when its `listen` returned.
   */
  lemma RestingSelectionSawEveryNotification(trace: seq<Event>)
    requires var s := Run(trace); !s.running && !s.closed && !s.disposed && (ListenResolved in trace || Notified in trace)
    ensures Run(trace).emitted == Some(Notifications(trace))
  {
    EveryNotificationCounts(trace);
    BegunExactly(trace);
    RestingSelectionIsCurrent(trace);
  }

  lemma {:induction false} BegunExactly(trace: seq<Event>)
    ensures !Run(trace).closed ==> (Run(trace).begun <==> ListenResolved in trace || Notified in trace)
  {
    if trace != [] {
      BegunExactly(trace[..|trace| - 1]);
      RunKeeps(trace[..|trace| - 1]);
      assert trace == trace[..|trace| - 1] + [trace[|trace| - 1]];
    }
  }

  /** A notification, or the return of `listen`, has an idle open selection read, after everything that was announced. */
  lemma IdleSelectionsRead(s: Selection, e: Event)
    requires (e.Notified? || e.ListenResolved?) && !s.running && !s.closed
    ensures var s' := Next(s, e); s'.running && s'.begun && !s'.dirty && s'.since == s'.changes && s'.emitted == s.emitted
  {
  }

  /** A good read is emitted while the selection is open; it rests unless it was notified meanwhile. */
  lemma GoodReadsAreEmitted(s: Selection)
    requires Inv(s) && s.running && !s.closed && !s.disposed
    ensures var s' := Next(s, ReadEnds(true));
            s'.emitted == Some(s.since) && (s'.running <==> s.since < s.changes) && (s'.running ==> s'.since == s.changes)
            && !s'.closed && !s'.disposed
  {
  }

  /** A failed read ends the selection; nothing is emitted by one that was ended, unsubscribed or disposed. */
  lemma EndedSelectionsAreSilent(s: Selection, e: Event)
    ensures s.running ==> Next(s, ReadEnds(false)).closed && !Next(s, ReadEnds(false)).running
    ensures Next(s, Unsubscribes).closed && Next(s, Disposes).disposed
    ensures s.closed ==> Next(s, e).closed
    ensures s.disposed ==> Next(s, e).disposed
    ensures s.closed || s.disposed || e != ReadEnds(true) ==> Next(s, e).emitted == s.emitted
  {
  }

  class SelectionReader {
    var dirty: bool
    var running: bool
    var closed: bool
    var disposed: bool
    var begun: bool
    var changes: nat
    var since: nat
    var emitted: Option<nat>

    ghost function State(): Selection
      reads this
    {
      Selection(dirty, running, closed, disposed, begun, changes, since, emitted)
    }

    constructor ()
      ensures State() == Open()
    {
      dirty, running, closed, disposed, begun, changes, since, emitted := false, false, false, false, false, 0, 0, None;
    }

    method Read()
      modifies this
      ensures State() == ReadOf(old(State()))
    {
      if running || closed { return; }
      running := true;
      begun := true;
      dirty := false;
      since := changes;
    }

    method Notified()
      modifies this
      ensures State() == Next(old(State()), Event.Notified)
    {
      changes := changes + 1;
      dirty := true;
      Read();
    }

    method ReadEnds(ok: bool)
      modifies this
      ensures State() == Next(old(State()), Event.ReadEnds(ok))
    {
      if !running { return; }
      if !ok {
        closed := true;
        running := false;
        return;
      }
      if !closed && !disposed { emitted := Some(since); }
      if dirty && !closed && !disposed {
        dirty := false;
        since := changes;
      } else {
        running := false;
      }
    }
  }
}
