/** The connection table of the server (muduox/net/tcp/TcpServer.cpp). A connection's name is the
    server's prefix followed by the value nextConnId_ had, so the number stands for the name. */
module TcpServerModel {

  datatype Table<C> = Table(nextConnId: nat, connections: map<nat, C>)

  function Insert<C>(t: Table<C>, conn: C): Table<C> {
    Table(t.nextConnId + 1, t.connections[t.nextConnId := conn])
  }

  function Erase<C>(t: Table<C>, name: nat): (Table<C>, bool) {
    (t.(connections := t.connections - {name}), name in t.connections)
  }

  /** Every name in use was handed out before, so the next one is new. */
  ghost predicate Fresh<C(!new)>(t: Table<C>) {
    forall n <- t.connections :: n < t.nextConnId
  }

  /** The part of TcpServer that only the accept loop's thread touches. */
  class TcpServer<C(!new)> {
    var nextConnId: nat
    var connections: map<nat, C>

    constructor ()
      ensures View() == Table(1, map[])
    {
      nextConnId, connections := 1, map[];
    }

    function View(): Table<C>
      reads this
    {
      Table(nextConnId, connections)
    }

    /** The caller goes on to run or queue connectEstablished on the connection's loop. */
    method NewConnection(conn: C) returns (name: nat)
      requires Fresh(View())
      modifies this
      ensures View() == Insert(old(View()), conn) && Fresh(View())
      ensures name !in old(connections) && connections == old(connections)[name := conn]
    {
      name := nextConnId;
      nextConnId := nextConnId + 1;
      connections := connections[name := conn];
    }

    /** destroy says that connectDestroyed is to be queued on the connection's loop. */
    method RemoveConnectionInLoop(name: nat) returns (destroy: bool)
      requires Fresh(View())
      modifies this`connections
      ensures (View(), destroy) == Erase(old(View()), name) && Fresh(View())
      ensures name !in connections
    {
      destroy := name in connections;
      connections := connections - {name};
    }
  }
}
