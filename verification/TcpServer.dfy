/** TcpServer's table of connections, as it is written; its effect is that of the steps of Ownership. */
module TcpServer {
  import opened ConnectionNames
  import Pool = EventLoopThreadPool
  import O = Ownership

  class TcpServer {
    const name: string
    const ipPort: string
    const pool: Pool.EventLoopThreadPool
    var connections: map<string, O.Id>   // the connection under each name
    var nextConnId: nat

    ghost predicate Valid()
      reads this, pool
    {
      && pool.Valid() && pool.started && nextConnId == pool.calls + 1
      && forall key <- connections ::
           1 <= connections[key] < nextConnId && key == ConnName(name, ipPort, connections[key])
    }

    ghost function Table(): set<O.Id>
      reads this
    {
      connections.Values
    }

    /** The abstract server has this table, this counter and this pool. */
    ghost predicate Shows(s: O.Server)
      reads this
    {
      O.Wide(s) && s.table == Table() && s.nextConnId == nextConnId && s.threads == pool.numThreads
    }

    constructor (name: string, ipPort: string, pool: Pool.EventLoopThreadPool)
      requires pool.Valid() && pool.started && pool.calls == 0
      ensures Valid() && Shows(O.Fresh(pool.numThreads)) && this.pool == pool && this.ipPort == ipPort
    {
      this.name, this.ipPort, this.pool := name, ipPort, pool;
      connections, nextConnId := map[], 1;
    }

    /** newConnection: the connection is made for the next loop of the pool, and connectEstablished is queued there,
        or runs at once when that is the base loop. An earlier connection whose cut name is the same drops out of the
        table; none is when the new name fits, and this is then the accept step of the ownership machine. */
    method NewConnection(ghost s: O.Server) returns (id: O.Id, ioLoop: Pool.LoopId, queued: seq<O.Job>)
      requires Valid()
      modifies this, pool
      ensures Valid() && id == old(nextConnId) && nextConnId == id + 1
      ensures connections == old(connections)[ConnName(name, ipPort, id) := id]
      ensures Fits(ipPort, id) ==> id !in old(Table()) && Table() == old(Table()) + {id}
      ensures Fits(ipPort, id) && old(Shows(s)) && O.Can(s, O.Accept) ==> Shows(O.Apply(s, O.Accept))
      ensures ioLoop == O.Io(pool.numThreads, id)
      ensures queued == if ioLoop == Pool.BASE_LOOP then [] else [O.Establish(id)]
    {
      if O.Wide(s) && O.Can(s, O.Accept) {
        AcceptAddsOne(s);
      }
      hide O.Apply, O.Can, ConnName, Fits, Pool.Nth;
      ioLoop := pool.GetNextLoop();
      id := nextConnId;
      nextConnId := nextConnId + 1;
      var connName := ConnName(name, ipPort, id);
      if Fits(ipPort, id) {
        NameIsFree(connName, id);
        AddsOne(connections, connName, id);
      }
      connections := connections[connName := id];
      queued := if ioLoop == Pool.BASE_LOOP then [] else [O.Establish(id)];
    }

    // No earlier connection has the name of a new one.
    lemma NameIsFree(connName: string, id: O.Id)
      requires connName == ConnName(name, ipPort, id) && Fits(ipPort, id)
      requires forall key <- connections ::
        1 <= connections[key] < id && key == ConnName(name, ipPort, connections[key])
      ensures connName !in connections
    {
      if connName in connections {
        LongerIsLarger(connections[connName], id);
        NamesDistinct(name, ipPort, connections[connName], id);
      }
    }

    /** removeConnection: from another loop removeConnectionInLoop is queued in the base loop. */
    method RemoveConnection(id: O.Id, isInLoopThread: bool, ghost s: O.Server) returns (erased: nat, queued: seq<O.Job>)
      requires Valid() && 1 <= id < nextConnId
      modifies this`connections
      ensures Valid()
      ensures queued == if isInLoopThread then [O.Destroy(id)] else [O.RemoveInLoop(id)]
      ensures connections ==
          if isInLoopThread then old(connections) - {ConnName(name, ipPort, id)} else old(connections)
      ensures isInLoopThread && Fits(ipPort, nextConnId - 1) ==> erased == if id in old(Table()) then 1 else 0
      ensures isInLoopThread && Fits(ipPort, nextConnId - 1) && old(Shows(s)) ==> Shows(O.Remove(s, id))
    {
      erased := 0;
      if isInLoopThread {
        erased, queued := RemoveConnectionInLoop(id, s);
      } else {
        queued := [O.RemoveInLoop(id)];
      }
    }

    /** The entry with the connection's name is erased, and connectDestroyed is queued. As long as names fit, it is the
        entry of this connection and of no other: the removal step of the ownership machine. */
    method RemoveConnectionInLoop(id: O.Id, ghost s: O.Server) returns (n: nat, queued: seq<O.Job>)
      requires Valid() && 1 <= id < nextConnId
      modifies this`connections
      ensures Valid() && queued == [O.Destroy(id)]
      ensures connections == old(connections) - {ConnName(name, ipPort, id)}
      ensures n == if ConnName(name, ipPort, id) in old(connections) then 1 else 0
      ensures Fits(ipPort, nextConnId - 1)
          ==> Table() == old(Table()) - {id} && n == if id in old(Table()) then 1 else 0
      ensures Fits(ipPort, nextConnId - 1) && old(Shows(s)) ==> Shows(O.Remove(s, id))
    {
      var connName := ConnName(name, ipPort, id);
      n := if connName in connections then 1 else 0;
      if Fits(ipPort, nextConnId - 1) {
        ErasesOne(connName, id);
      }
      connections := connections - {connName};
      queued := [O.Destroy(id)];
    }

    lemma ErasesOne(connName: string, id: O.Id)
      requires Valid() && 1 <= id < nextConnId && Fits(ipPort, nextConnId - 1) && connName == ConnName(name, ipPort, id)
      ensures (connections - {connName}).Values == Table() - {id} && (connName in connections <==> id in Table())
    {
      LongerIsLarger(id, nextConnId - 1);
      hide ConnName, Decimal;
      forall key <- connections ensures key == connName <==> connections[key] == id {
        LongerIsLarger(connections[key], nextConnId - 1);
        if key == connName { NamesDistinct(name, ipPort, connections[key], id); }
      }
      TakesOne(connections, connName, id);
    }
  }

  lemma AcceptAddsOne(s: O.Server)
    requires O.Wide(s) && O.Can(s, O.Accept)
    ensures var t := O.Apply(s, O.Accept);
      O.Wide(t) && t.table == s.table + {s.nextConnId} && t.nextConnId == s.nextConnId + 1 && t.threads == s.threads
  {
  }

  lemma AddsOne(m: map<string, O.Id>, key: string, id: O.Id)
    requires key !in m
    ensures m[key := id].Values == m.Values + {id}
  {
    var n := m[key := id];
    forall x | x in m.Values + {id} ensures x in n.Values {
      if x == id { assert n[key] == x; } else { var k :| k in m && m[k] == x; assert n[k] == x; }
    }
  }

  lemma TakesOne(m: map<string, O.Id>, key: string, id: O.Id)
    requires forall k <- m :: k == key <==> m[k] == id
    ensures (m - {key}).Values == m.Values - {id} && (key in m <==> id in m.Values)
  {
    var n := m - {key};
    forall x | x in m.Values - {id} ensures x in n.Values {
      var k :| k in m && m[k] == x;
      assert n[k] == x;
    }
    assert key in m ==> m[key] in m.Values;
  }
}
