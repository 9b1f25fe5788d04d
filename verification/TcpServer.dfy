/** TcpServer: connection names and the connection map. */
module TcpServers {
  import opened ThreadPool

  type ConnId = nat

  const INT_MAX: nat := 0x7fff_ffff

  /** Decimal formatting. */
  function Digit(d: nat): char
    requires d < 10
  {
    '0' + d as char
  }

  function Decimal(n: nat): (s: string)
    ensures |s| > 0
  {
    if n < 10 then [Digit(n)] else Decimal(n / 10) + [Digit(n % 10)]
  }

  predicate Digits(s: string) {
    forall k :: 0 <= k < |s| ==> '0' <= s[k] <= '9'
  }

  /** Its inverse. */
  function Parse(s: string): nat
    requires Digits(s)
  {
    if s == [] then 0 else 10 * Parse(s[..|s| - 1]) + (s[|s| - 1] - '0') as nat
  }

  lemma {:induction false} ParseDecimal(n: nat)
    ensures Digits(Decimal(n))
    ensures Parse(Decimal(n)) == n
  {
    if n >= 10 {
      ParseDecimal(n / 10);
      var s := Decimal(n);
      assert s[..|s| - 1] == Decimal(n / 10);
    } else {
      assert Decimal(n)[..0] == [];
    }
  }

  function ConnName(server: string, id: nat): string {
    server + "#" + Decimal(id)
  }

  /** The server's name, '#', and digits that read back as the id. */
  lemma NameParts(server: string, id: nat)
    ensures var name, n := ConnName(server, id), |server|;
            && |name| > n + 1 && name[..n] == server && name[n] == '#'
            && Digits(name[n + 1..]) && Parse(name[n + 1..]) == id
  {
    ParseDecimal(id);
    assert ConnName(server, id)[|server| + 1..] == Decimal(id);
  }

  /** Names of different ids differ, so erasing by name is erasing by connection. */
  lemma NamesInjective(server: string, i: nat, j: nat)
    ensures ConnName(server, i) == ConnName(server, j) <==> i == j
  {
    if ConnName(server, i) == ConnName(server, j) {
      var p := server + "#";
      assert (p + Decimal(i))[|p|..] == Decimal(i);
      assert (p + Decimal(j))[|p|..] == Decimal(j);
      ParseDecimal(i);
      ParseDecimal(j);
    }
  }

  class TcpServer {
    const name: string
    const threadPool: EventLoopThreadPool
    var connections: map<string, ConnId>
    var nextConnId: nat
    var started: bool
    ghost var accepted: nat
    ghost var removed: nat

    ghost predicate Valid()
      reads this
    {
      && 1 <= nextConnId <= INT_MAX
      && nextConnId == accepted + 1
      && (forall s <- connections :: exists i :: 1 <= i < nextConnId && s == ConnName(name, i))
      && |connections| + removed == accepted
    }

    constructor (name: string, pool: EventLoopThreadPool)
      ensures Valid() && !started && connections == map[] && accepted == removed == 0
      ensures this.name == name && threadPool == pool
    {
      this.name, threadPool := name, pool;
      connections, nextConnId, started := map[], 1, false;
      accepted, removed := 0, 0;
    }

    /** Only the first call does anything.  (After stop() another would meet the pool's assertion
        that it is not started: the precondition.) */
    method Start(spawned: seq<LoopId>) returns (listens: bool)
      requires Valid() && threadPool.Valid()
      requires !started ==> !threadPool.started && threadPool.loops == [] && threadPool.threads == [] && |spawned| == threadPool.numThreads
      modifies this`started, threadPool
      ensures Valid() && threadPool.Valid() && started && listens == !old(started)
      ensures listens ==> threadPool.started && threadPool.loops == spawned
      ensures !listens ==> threadPool.started == old(threadPool.started) && threadPool.loops == old(threadPool.loops)
                           && threadPool.next == old(threadPool.next)
    {
      listens := !started;
      started := true;
      if listens {
        threadPool.Start(spawned);
      }
    }

    /** The new connection gets a name that no connection has, or ever had; the entry it
        stores overwrites nothing. */
    method NewConnection(conn: ConnId) returns (connName: string, ioLoop: LoopId)
      requires Valid() && nextConnId < INT_MAX && threadPool.Valid() && threadPool.started
      modifies this`connections, this`nextConnId, this`accepted, threadPool`next
      ensures Valid() && threadPool.Valid()
      ensures connName == ConnName(name, old(nextConnId)) && connName !in old(connections)
      ensures forall i :: 0 <= i < old(nextConnId) ==> connName != ConnName(name, i)
      ensures connections == old(connections)[connName := conn] && |connections| == |old(connections)| + 1
      ensures accepted == old(accepted) + 1 && nextConnId == old(nextConnId) + 1
      ensures ioLoop == if threadPool.loops == [] then threadPool.baseLoop
                        else threadPool.loops[Picks(old(threadPool.next), 1, |threadPool.loops|)[0]]
    {
      ioLoop := threadPool.GetNextLoop();
      connName := ConnName(name, nextConnId);
      forall i | 0 <= i < nextConnId ensures connName != ConnName(name, i) {
        NamesInjective(name, i, nextConnId);
      }
      nextConnId := nextConnId + 1;
      accepted := accepted + 1;
      connections := connections[connName := conn];
      assert connName == ConnName(name, nextConnId - 1);
    }

    /** Erases the entry and asks for connectDestroyed; a second removal has no effect. */
    method RemoveConnectionInLoop(connName: string) returns (destroy: bool)
      requires Valid()
      modifies this`connections, this`removed
      ensures Valid() && destroy == (connName in old(connections))
      ensures connections == old(connections) - {connName}
      ensures removed == old(removed) + if destroy then 1 else 0
      ensures !destroy ==> connections == old(connections)
    {
      destroy := connName in connections;
      if !destroy {
        assert connections - {connName} == connections;
        return;
      }
      ghost var was := connections;
      connections := connections - {connName};
      removed := removed + 1;
      assert connections.Keys == was.Keys - {connName};
      assert |connections.Keys| == |was.Keys| - 1;
    }
  }
}
