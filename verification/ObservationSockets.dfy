/** Who owns a connection, and why a tenant never has two connected ones: the socket-close barrier. */
module ObservationSockets {
  import opened Options
  import opened PostgreSQLObservationManager

  /** The connection a live entry holds. */
  ghost predicate Holds(n: Net, alive: bool, c: Connection) {
    alive && n.connection == Some(c)
  }

  /** Close is scheduled at most once, settles only once scheduled, and every closable connection is held or closing. */
  ghost predicate Owned(n: Net, alive: bool) {
    && (forall c :: c in n.sockets ==>
          && n.sockets[c].closes <= 1
          && (n.sockets[c].settled ==> n.sockets[c].closes == 1)
          && (n.sockets[c].closable && n.sockets[c].closes == 0 ==> Holds(n, alive, c)))
    && (alive && n.connection.Some? ==>
          && n.connection.value in n.sockets
          && n.sockets[n.connection.value] == Socket(true, true, 0, false))
  }

  /** A connected socket that is not closed yet is the live entry's, or is the one the barrier waits for. */
  ghost predicate Barred(n: Net, alive: bool) {
    && (forall c :: c in n.sockets && n.sockets[c].connected && !n.sockets[c].settled ==>
          Holds(n, alive, c) || n.barrier == Some(c))
    && (n.barrier.Some? ==>
          n.barrier.value in n.sockets && n.sockets[n.barrier.value].closes == 1 && !n.sockets[n.barrier.value].settled)
    && (alive && n.connection.Some? ==> n.barrier.None?)
  }

  ghost predicate Valid(n: Net, alive: bool) {
    Owned(n, alive) && Barred(n, alive)
  }

  /** A connection that is in use: `connect` was called and its `close` has not settled. */
  predicate InUse(n: Net, c: Connection) {
    c in n.sockets && n.sockets[c].connected && !n.sockets[c].settled
  }

  lemma AtMostOneInUse(n: Net, alive: bool, c: Connection, d: Connection)
    requires Valid(n, alive) && InUse(n, c) && InUse(n, d)
    ensures c == d
  {
  }

  lemma GiveUpKeeps(n: Net)
    requires Valid(n, true)
    ensures Valid(GiveUp(n), false)
    ensures Valid(GiveUp(n).(connection := None), true)
  {
  }

  /** A connection nobody waits for, or of the wrong shape, is closed at once when it can be closed. */
  lemma HandKeeps(n: Net, alive: bool, factory: nat, c: Connection, closable: bool)
    requires Valid(n, alive) && c !in n.sockets
    ensures Valid(ScheduleClose(Hand(n, factory, c, closable), c, false), alive)
    ensures !closable ==> Valid(Hand(n, factory, c, closable), alive)
  {
  }

  /** Connecting is safe once the barrier is down and the entry holds nothing. */
  lemma ConnectKeeps(n: Net, factory: nat, c: Connection)
    requires Valid(n, true) && n.connection.None? && n.barrier.None? && c !in n.sockets
    ensures var h := Hand(n, factory, c, true);
            Valid(h.(connection := Some(c), sockets := h.sockets[c := Socket(true, true, 0, false)]), true)
  {
  }

  /** The barrier falls with the close it stands for, with no other, and then nothing else is in use. */
  lemma CloseSettlesKeeps(n: Net, alive: bool, c: Connection)
    requires Valid(n, alive)
    ensures Valid(CloseSettles(n, c), alive)
    ensures n.barrier.Some? ==> (CloseSettles(n, c).barrier.None? <==> n.barrier == Some(c))
    ensures n.barrier == Some(c) && (alive ==> n.connection.None?) ==> forall d :: !InUse(CloseSettles(n, c), d)
    ensures forall d :: d != c ==> (InUse(CloseSettles(n, c), d) <==> InUse(n, d))
  {
  }

  lemma CallKeeps(n: Net, alive: bool, factories: set<nat>, calls: nat)
    requires Valid(n, alive)
    ensures Valid(n.(factories := factories, calls := calls), alive)
  {
  }

  /** A dead entry's connection field means nothing to the next entry. */
  lemma NextEntryKeeps(n: Net)
    requires Valid(n, false)
    ensures Valid(n.(connection := None), true)
  {
  }
}
