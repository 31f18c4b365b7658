/**
 * The connections of a tenant as the objects they are: the entry holds one, the close barrier waits for one, and
 * whoever was handed one late closes it; its `close` is seen by all of them.
 */
module LiveSockets {
  import opened Options
  import opened Machine = PostgreSQLObservationManager
  import Maps

  class ListenerConnection {
    const id: Connection
    const closable: bool
    var connected: bool
    var closes: nat
    var settled: bool

    function Value(): Socket
      reads this
    {
      Socket(connected, closable, closes, settled)
    }

    constructor (id: Connection, closable: bool)
      ensures this.id == id && Value() == Socket(false, closable, 0, false)
    {
      this.id, this.closable, connected, closes, settled := id, closable, false, 0, false;
    }
  }

  function IdOf(c: ListenerConnection?): Option<Connection> {
    if c == null then None else Some(c.id)
  }

  class Sockets {
    /** Every connection a factory handed over. */
    var handed: map<Connection, ListenerConnection>
    /** The entry's, and the one whose close the tenant's next connection waits for. */
    var connection: ListenerConnection?
    var barrier: ListenerConnection?
    var factories: set<nat>
    var calls: nat

    predicate Mine(c: ListenerConnection)
      reads this`handed
    {
      c.id in handed && handed[c.id] == c
    }

    /** Whatever refers to a connection refers to the one object that was handed over under its id. */
    ghost predicate Valid()
      reads this`handed, this`connection, this`barrier
    {
      && (forall c :: c in handed ==> handed[c].id == c)
      && (connection != null ==> Mine(connection))
      && (barrier != null ==> Mine(barrier))
    }

    function Values(): map<Connection, Socket>
      reads this`handed, handed.Values
    {
      map c | c in handed :: handed[c].Value()
    }

    function Contents(): Net
      reads this, handed.Values
    {
      Net(IdOf(connection), IdOf(barrier), Values(), factories, calls)
    }

    constructor ()
      ensures Valid() && Contents() == Net(None, None, map[], {}, 0) && handed == map[]
    {
      handed, connection, barrier, factories, calls := map[], null, null, {}, 0;
    }

    /** One connection changes; all others keep what they are. */
    twostate lemma OnlyOne(c: ListenerConnection)
      requires old(Valid()) && handed == old(handed) && Mine(c)
      requires forall d :: d in handed && handed[d] != c ==> unchanged(handed[d])
      ensures Values() == old(Values())[c.id := c.Value()]
    {
    }

    /** `scheduleClose`; a serialized close is what the tenant's next connection waits for. */
    method ScheduleClose(c: ListenerConnection, serialize: bool)
      requires Valid() && Mine(c)
      modifies c`closes, this`barrier
      ensures Valid() && Contents() == Machine.ScheduleClose(old(Contents()), c.id, serialize)
    {
      c.closes := c.closes + 1;
      OnlyOne(c);
      if serialize { barrier := c; }
    }

    /** A connection has closed, either way: the barrier goes with it unless a later close has replaced it. */
    method CloseSettles(c: ListenerConnection)
      requires Valid() && Mine(c)
      modifies c`settled, this`barrier
      ensures Valid() && Contents() == Machine.CloseSettles(old(Contents()), c.id)
    {
      if c.closes == 0 || c.settled { return; }
      c.settled := true;
      OnlyOne(c);
      if barrier == c { barrier := null; }
    }

    /** A factory hands over a connection. */
    method Hand(factory: nat, id: Connection, closable: bool) returns (c: ListenerConnection)
      requires Valid() && id !in handed
      modifies this`factories, this`handed
      ensures Valid() && Mine(c) && c.id == id && c.closable == closable && c.Value() == Socket(false, closable, 0, false)
      ensures fresh(c) && handed == old(handed)[id := c] && handed.Values == old(handed.Values) + {c}
      ensures Contents() == Machine.Hand(old(Contents()), factory, id, closable)
    {
      c := new ListenerConnection(id, closable);
      factories := factories - {factory};
      handed := handed[id := c];
      Maps.ValuesAdded(old(handed), id, c);
      assert Values() == old(Values())[id := Socket(false, closable, 0, false)];
    }

    /** `connect` is called on a connection the entry keeps. */
    method Keep(c: ListenerConnection)
      requires Valid() && Mine(c)
      modifies c`connected, this`connection
      ensures Valid()
      ensures var n := old(Contents());
              Contents() == n.(connection := Some(c.id), sockets := n.sockets[c.id := old(c.Value()).(connected := true)])
    {
      c.connected := true;
      OnlyOne(c);
      connection := c;
    }

    /** The entry's connection is closed, and the tenant's next one has to wait for it. */
    method GiveUp()
      requires Valid()
      modifies handed.Values, this`barrier
      ensures Valid() && Contents() == Machine.GiveUp(old(Contents()))
    {
      if connection != null { ScheduleClose(connection, true); }
    }

    method Forget()
      requires Valid()
      modifies this`connection
      ensures Valid() && Contents() == old(Contents()).(connection := None)
    {
      connection := null;
    }

    method CallFactory() returns (factory: nat)
      requires Valid()
      modifies this`factories, this`calls
      ensures Valid() && factory == old(calls)
      ensures var n := old(Contents()); Contents() == n.(factories := n.factories + {n.calls}, calls := n.calls + 1)
    {
      factory := calls;
      factories := factories + {calls};
      calls := calls + 1;
    }

    /** What becomes of a connection that was handed over: kept and connected, closed at once, or left alone. */
    method Receive(dead: bool, factory: nat, id: Connection, valid: bool, closable: bool) returns (kept: bool)
      requires Valid() && id !in handed
      modifies this`factories, this`handed, this`connection, this`barrier
      ensures Valid() && old(handed.Values) <= handed.Values && fresh(handed.Values - old(handed.Values))
      ensures kept <==> !dead && valid && closable
      ensures var n := Machine.Hand(old(Contents()), factory, id, closable);
              Contents() == if kept then n.(connection := Some(id), sockets := n.sockets[id := Socket(true, true, 0, false)])
                            else if dead || closable then Machine.ScheduleClose(n, id, false) else n
    {
      hide Values, Machine.ScheduleClose, Machine.Hand;
      var c := Hand(factory, id, closable);
      kept := !dead && valid && closable;
      if kept { Keep(c); } else if dead || closable { ScheduleClose(c, false); }
    }

    /** A factory that returns after nobody waits for it any more still has its connection closed. */
    method ReturnLate(factory: nat, id: Connection, closable: bool)
      requires Valid()
      modifies this`factories, this`handed, this`barrier
      ensures Valid() && old(handed.Values) <= handed.Values && fresh(handed.Values - old(handed.Values))
      ensures Contents() == Machine.FactoryReturnsLate(old(Contents()), factory, id, closable)
    {
      assert id in handed <==> id in Contents().sockets;
      hide Values, Machine.ScheduleClose, Machine.Hand;
      if factory !in factories || id in handed { return; }
      var c := Hand(factory, id, closable);
      ScheduleClose(c, false);
    }
  }
}
