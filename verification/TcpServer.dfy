/**
 The TcpServer object: the connection map keyed by name, the connection counter and the pool,
 updated in place and proved to act on the abstract world of module Server. The names are what
 keeps the map one entry per connection.
 */
module TcpServerObject {
  import opened ByteBuffer
  import opened Epoll
  import opened Connection
  import opened LoopMachine
  import opened Server
  import opened ServerSafety
  import opened ThreadPool

  // ---------------------------------------------------------------------------
  // Names

  const NAME_BUF: nat := 64
  const INT_MAX: nat := 0x7fff_ffff

  function Digit(d: nat): char
    requires d < 10
  {
    ['0', '1', '2', '3', '4', '5', '6', '7', '8', '9'][d]
  }

  function Decimal(n: nat): (s: string)
    ensures s != []
  {
    if n < 10 then [Digit(n)] else Decimal(n / 10) + [Digit(n % 10)]
  }

  lemma {:induction false} DecimalIsInjective(m: nat, n: nat)
    requires Decimal(m) == Decimal(n)
    ensures m == n
  {
    var s, t := Decimal(m), Decimal(n);
    assert s[|s| - 1] == t[|t| - 1];
    assert m % 10 == n % 10;
    if m >= 10 && n >= 10 {
      assert s[..|s| - 1] == Decimal(m / 10) && t[..|t| - 1] == Decimal(n / 10);
      DecimalIsInjective(m / 10, n / 10);
    } else {
      assert |s| == |t|;
    }
  }

  /** The number a string of digits stands for. */
  function Value(s: string): int {
    if s == [] then 0 else 10 * Value(s[..|s| - 1]) + (s[|s| - 1] as int - '0' as int)
  }

  /** The decimal form reads back as the number, in digits only and without a leading zero. */
  lemma {:induction false} DecimalReadsBack(n: nat)
    ensures Value(Decimal(n)) == n
    ensures forall c <- Decimal(n) :: '0' <= c <= '9'
    ensures Decimal(n)[0] == '0' ==> n == 0
  {
    var s := Decimal(n);
    if n >= 10 {
      DecimalReadsBack(n / 10);
      assert s[..|s| - 1] == Decimal(n / 10);
    } else {
      assert s[..|s| - 1] == [];
    }
  }

  lemma {:induction false} DecimalIsShort(n: nat, digits: nat, bound: nat)
    requires digits > 0 && n < bound && bound == Pow10(digits)
    ensures |Decimal(n)| <= digits
    decreases digits
  {
    if n >= 10 {
      DecimalIsShort(n / 10, digits - 1, Pow10(digits - 1));
    }
  }

  function Pow10(e: nat): nat {
    if e == 0 then 1 else 10 * Pow10(e - 1)
  }

  /** snprintf into a buffer of 64: at most 63 characters survive. */
  function Snprintf(s: string): string {
    s[..Min(|s|, NAME_BUF - 1)]
  }

  lemma SnprintfCutsAt63(s: string)
    ensures Snprintf(s) <= s && |Snprintf(s)| == Min(|s|, 63)
  {
  }

  function ConnName(name: string, ipPort: string, connId: nat): string {
    name + Snprintf("-" + ipPort + "#" + Decimal(connId))
  }

  /** The name is the server's, a dash, its address, a hash and the number, as printed. */
  lemma NameReadsAsPrinted(name: string, ipPort: string, connId: nat)
    requires |ipPort| <= 21 && connId <= INT_MAX
    ensures ConnName(name, ipPort, connId) == name + "-" + ipPort + "#" + Decimal(connId)
  {
    assert Pow10(10) == 10_000_000_000;
    DecimalIsShort(connId, 10, Pow10(10));
    var tail := "-" + ipPort + "#" + Decimal(connId);
    assert tail[..|tail|] == tail;
    assert name + tail == name + "-" + ipPort + "#" + Decimal(connId);
  }

  /** An address and port take at most 21 characters, so no name is cut, and names tell connections apart. */
  lemma NamesAreDistinct(name: string, ipPort: string, i: nat, j: nat)
    requires |ipPort| <= 21 && i <= INT_MAX && j <= INT_MAX && i != j
    ensures ConnName(name, ipPort, i) != ConnName(name, ipPort, j)
  {
    var p := "-" + ipPort + "#";
    assert Pow10(10) == 10_000_000_000;
    DecimalIsShort(i, 10, Pow10(10));
    DecimalIsShort(j, 10, Pow10(10));
    if ConnName(name, ipPort, i) == ConnName(name, ipPort, j) {
      assert ConnName(name, ipPort, i)[|name| + |p|..] == Decimal(i);
      assert ConnName(name, ipPort, j)[|name| + |p|..] == Decimal(j);
      DecimalIsInjective(i, j);
    }
  }

  // ---------------------------------------------------------------------------
  // The object

  /** A TcpConnection object, whether connectDestroyed has run on it, and what its users do with it. */
  datatype Object = Object(conn: Conn, fd: int, loop: nat, destroyed: bool, users: Users)

  /** connections_; a reset shared_ptr is None. */
  type ConnectionMap = map<string, Option<nat>>

  datatype Names = Names(name: string, ipPort: string) {
    /** The name of the connection accepted with number id + 1. */
    function Of(id: nat): string {
      ConnName(name, ipPort, id + 1)
    }
  }

  /** The k-th connection, counting from 1, carries the number k. */
  lemma NamesCountFromOne(names: Names, id: nat)
    requires |names.ipPort| <= 21 && id < INT_MAX
    ensures names.Of(id) == names.name + "-" + names.ipPort + "#" + Decimal(id + 1)
  {
    NameReadsAsPrinted(names.name, names.ipPort, id + 1);
  }

  ghost predicate Distinct(nameOf: nat -> string, count: nat) {
    forall i: nat, j: nat :: i < j < count ==> nameOf(i) != nameOf(j)
  }

  lemma ShortAddressesGiveDistinctNames(names: Names, count: nat)
    requires |names.ipPort| <= 21 && count <= INT_MAX
    ensures Distinct(names.Of, count)
  {
    forall i: nat, j: nat | i < j < count ensures names.Of(i) != names.Of(j) {
      NamesAreDistinct(names.name, names.ipPort, i + 1, j + 1);
    }
  }

  ghost predicate InMap(nameOf: nat -> string, m: ConnectionMap, id: nat) {
    nameOf(id) in m && m[nameOf(id)] == Some(id)
  }

  /** Every key names one of the first `count` connections, and an entry that is not reset is that connection. */
  ghost predicate MapOk(nameOf: nat -> string, m: ConnectionMap, count: nat) {
    && (forall key <- m :: exists id: nat :: id < count && key == nameOf(id))
    && (forall key <- m :: m[key].Some? ==> m[key].value < count && key == nameOf(m[key].value))
  }

  ghost function EntryOf(nameOf: nat -> string, m: ConnectionMap, objects: seq<Object>, id: nat): Entry
    requires id < |objects|
  {
    var o := objects[id];
    Entry(o.conn, o.fd, o.loop, InMap(nameOf, m, id), o.destroyed, o.users)
  }

  ghost function Entries(nameOf: nat -> string, m: ConnectionMap, objects: seq<Object>): seq<Entry> {
    seq(|objects|, i requires 0 <= i < |objects| => EntryOf(nameOf, m, objects, i))
  }

  /** Inserting the next connection under its own name evicts nobody. */
  lemma InsertAddsOne(nameOf: nat -> string, m: ConnectionMap, objects: seq<Object>, o: Object)
    requires MapOk(nameOf, m, |objects|) && Distinct(nameOf, |objects| + 1)
    ensures var id := |objects|;
            var m' := m[nameOf(id) := Some(id)];
            && nameOf(id) !in m
            && MapOk(nameOf, m', id + 1)
            && Entries(nameOf, m', objects + [o])
            == Entries(nameOf, m, objects) + [Entry(o.conn, o.fd, o.loop, true, o.destroyed, o.users)]
  {
    var id := |objects|;
    var m' := m[nameOf(id) := Some(id)];
    forall key | key in m' ensures exists i: nat :: i < id + 1 && key == nameOf(i) {
      if key != nameOf(id) {
        var i: nat :| i < id && key == nameOf(i);
      }
    }
    forall i | 0 <= i < id ensures EntryOf(nameOf, m', objects + [o], i) == EntryOf(nameOf, m, objects, i) {
      assert nameOf(i) != nameOf(id);
    }
  }

  /** `m2` is `m` with this name erased or its pointer reset. */
  predicate Drops(m: ConnectionMap, m2: ConnectionMap, name: string) {
    m2 == m - {name} || (name in m && m2 == m[name := None])
  }

  lemma DropKeepsMapOk(nameOf: nat -> string, m: ConnectionMap, m2: ConnectionMap, count: nat, name: string)
    requires MapOk(nameOf, m, count) && Drops(m, m2, name)
    ensures MapOk(nameOf, m2, count)
  {
    forall key | key in m2 ensures exists i: nat :: i < count && key == nameOf(i) {
      assert key in m;
    }
  }

  lemma DropLeavesOthers(nameOf: nat -> string, m: ConnectionMap, m2: ConnectionMap, id: nat, i: nat)
    requires Drops(m, m2, nameOf(id)) && (i != id ==> nameOf(i) != nameOf(id))
    ensures InMap(nameOf, m2, i) <==> i != id && InMap(nameOf, m, i)
  {
  }

  /** Erasing or resetting one connection's entry takes that connection alone out of the map. */
  lemma DropTakesOne(nameOf: nat -> string, m: ConnectionMap, m2: ConnectionMap, objects: seq<Object>, id: nat)
    requires Distinct(nameOf, |objects|) && id < |objects| && Drops(m, m2, nameOf(id))
    ensures Entries(nameOf, m2, objects)
         == Entries(nameOf, m, objects)[id := EntryOf(nameOf, m, objects, id).(inMap := false)]
  {
    forall i | 0 <= i < |objects|
      ensures EntryOf(nameOf, m2, objects, i)
           == if i == id then EntryOf(nameOf, m, objects, i).(inMap := false) else EntryOf(nameOf, m, objects, i)
    {
      assert i != id ==> nameOf(i) != nameOf(id);
      DropLeavesOthers(nameOf, m, m2, id, i);
    }
  }

  class TcpServer {
    const names: Names
    const config: Config
    const threadPool: EventLoopThreadPool
    var nextConnId: nat
    var connections: ConnectionMap
    var objects: seq<Object>  // every connection object made so far
    var loops: seq<Loop>      // the base loop and the sub-loops

    ghost predicate Valid()
      reads this, threadPool
    {
      && |names.ipPort| <= 21 && nextConnId == |objects| + 1 && |objects| <= INT_MAX
      && threadPool.Valid() && threadPool.handed == |objects|
      && |loops| == |threadPool.loops| + 1
      && MapOk(names.Of, connections, |objects|)
    }

    ghost function View(): World
      reads this
    {
      World(Entries(names.Of, connections, objects), loops)
    }

    /** setThreadNum and start have run, and no connection has come yet. */
    constructor (names: Names, config: Config, pool: EventLoopThreadPool)
      requires pool.Valid() && pool.handed == 0 && |names.ipPort| <= 21
      ensures Valid() && View() == Startup(|pool.loops|) && threadPool == pool
    {
      this.names, this.config, threadPool := names, config, pool;
      nextConnId, connections, objects := 1, map[], [];
      loops := seq(1 + |pool.loops|, _ => Loop(Queue([], []), [], Waiting));
    }

    /** The acceptor's callback on the base loop. The name is new to the map: no entry is overwritten. */
    method NewConnection(sockfd: int)
      requires Valid() && nextConnId <= INT_MAX
      modifies this`nextConnId, this`connections, this`objects, this`loops
      modifies threadPool`next, threadPool`handed
      ensures Valid() && View() == Accept(old(View()), sockfd, config)
      ensures names.Of(old(|objects|)) !in old(connections)
    {
      var ioLoop := threadPool.GetNextLoop();
      var connName := ConnName(names.name, names.ipPort, nextConnId);
      nextConnId := nextConnId + 1;
      Insert(connName, Object(Born(config), sockfd, ioLoop, false, NO_USERS));
      if ioLoop == 0 {
        ConnEventNow(|objects| - 1, Establish);
      } else {
        QueueInLoop(ioLoop, RunEstablished(|objects| - 1));
      }
    }

    method Insert(connName: string, o: Object)
      requires MapOk(names.Of, connections, |objects|) && |names.ipPort| <= 21 && |objects| < INT_MAX
      requires connName == names.Of(|objects|)
      modifies this`connections, this`objects
      ensures connName !in old(connections) && |objects| == old(|objects|) + 1
      ensures MapOk(names.Of, connections, |objects|)
      ensures View().entries == old(View()).entries + [Entry(o.conn, o.fd, o.loop, true, o.destroyed, o.users)]
    {
      ShortAddressesGiveDistinctNames(names, |objects| + 1);
      InsertAddsOne(names.Of, connections, objects, o);
      connections := connections[connName := Some(|objects|)];
      objects := objects + [o];
    }

    method ConnEventNow(id: nat, e: ConnEvent)
      requires id < |objects|
      modifies this`objects
      ensures |objects| == old(|objects|) && View() == Touch(old(View()), id, e)
    {
      objects := objects[id := objects[id].(conn := Step(AsWritten, objects[id].conn, e))];
    }

    method QueueInLoop(l: nat, f: Functor)
      requires l < |loops|
      modifies this`loops
      ensures |loops| == old(|loops|) && View() == Post(old(View()), l, f)
    {
      loops := loops[l := loops[l].(queue := loops[l].queue.Push(f))];
    }

    /** removeConnection, called by the connection's loop when its handleClose ends. */
    method CloseCallback(id: nat, onBaseThread: bool)
      requires Valid() && id < |objects| && objects[id].loop < |loops|
      modifies this`connections, this`loops
      ensures Valid()
      ensures View() == if onBaseThread then RemoveConnection(old(View()), id) else Post(old(View()), 0, RunRemove(id))
    {
      if onBaseThread {
        RemoveConnectionInLoop(id);
      } else {
        QueueInLoop(0, RunRemove(id));
      }
    }

    /** Erase by name, then connectDestroyed is queued on the connection's own loop. */
    method RemoveConnectionInLoop(id: nat)
      requires Valid() && id < |objects| && objects[id].loop < |loops|
      modifies this`connections, this`loops
      ensures Valid() && View() == RemoveConnection(old(View()), id)
    {
      DropEntry(id, true);
      QueueInLoop(objects[id].loop, RunDestroyed(id));
    }

    /** The connection's map entry is erased, or its pointer reset. */
    method DropEntry(id: nat, erase: bool)
      requires Valid() && id < |objects|
      requires erase || names.Of(id) in connections
      modifies this`connections
      ensures Valid() && View() == Unmap(old(View()), id)
      ensures !erase ==> connections == old(connections)[names.Of(id) := None]
    {
      ShortAddressesGiveDistinctNames(names, |objects|);
      var dropped := if erase then connections - {names.Of(id)} else connections[names.Of(id) := None];
      DropKeepsMapOk(names.Of, connections, dropped, |objects|, names.Of(id));
      DropTakesOne(names.Of, connections, dropped, objects, id);
      connections := dropped;
    }

    /** The destructor has taken the world from `start` by `acts`, and has the entries named in `items` to go. */
    ghost predicate Destroying(start: World, acts: seq<Action>, items: set<string>)
      reads this, threadPool
    {
      && Valid() && Safe(View()) && !loops[0].phase.Passing?
      && Feasible(start, acts) && View() == Outcome(start, acts) && (forall a <- acts :: a.DestroyServerItem?)
      && items <= connections.Keys
      && forall key <- connections :: connections[key].Some? <==> key in items
    }

    /**
     The destructor, in whatever order the map is walked: a run of the world that treats each entry
     once and leaves the map without a reference.
     */
    method Destructor() returns (ghost acts: seq<Action>)
      requires Valid() && Safe(View()) && !loops[0].phase.Passing?
      requires forall key <- connections :: connections[key].Some?
      modifies this`connections, this`loops, this`objects
      ensures Valid() && Feasible(old(View()), acts) && View() == Outcome(old(View()), acts)
      ensures forall a <- acts :: a.DestroyServerItem?
      ensures forall key <- connections :: connections[key].None?
    {
      acts := [];
      ghost var start := View();
      var items := connections.Keys;
      while items != {}
        invariant Destroying(start, acts, items)
      {
        var key :| key in items;
        acts := DestroyNext(key, start, acts, items);
        items := items - {key};
      }
    }

    method DestroyNext(key: string, ghost start: World, ghost acts: seq<Action>, ghost items: set<string>)
      returns (ghost more: seq<Action>)
      requires Destroying(start, acts, items) && key in items
      modifies this`connections, this`loops, this`objects
      ensures Destroying(start, more, items - {key})
    {
      ghost var a := DestroyKey(key);
      FeasibleSnoc(start, acts, a);
      more := acts + [a];
    }

    method DestroyKey(key: string) returns (ghost a: Action)
      requires Valid() && Safe(View()) && !loops[0].phase.Passing?
      requires key in connections && connections[key].Some?
      modifies this`connections, this`loops, this`objects
      ensures Valid() && Safe(View()) && !loops[0].phase.Passing?
      ensures a.DestroyServerItem? && Allowed(old(View()), a) && View() == Result(old(View()), a)
      ensures connections == old(connections)[key := None]
    {
      var id := connections[key].value;
      a := DestroyServerItem(id);
      assert EntryOk(View(), id);
      ActionIsSafe(View(), a);
      DestroyItem(id);
    }

    /** One turn of the destructor's loop: the entry is reset, and connectDestroyed runs or is queued. */
    method DestroyItem(id: nat)
      requires Valid() && id < |objects| && InMap(names.Of, connections, id)
      requires Allowed(View(), DestroyServerItem(id))
      modifies this`connections, this`loops, this`objects
      ensures Valid() && View() == Result(old(View()), DestroyServerItem(id))
      ensures connections == old(connections)[names.Of(id) := None]
    {
      ghost var w := View();
      DropEntry(id, false);
      var ioLoop := objects[id].loop;
      if ioLoop == 0 {
        DestroyNow(id);
        assert View() == DestroyConnection(Unmap(w, id), id) == Unmap(DestroyConnection(w, id), id);
      } else {
        QueueInLoop(ioLoop, RunDestroyed(id));
      }
    }

    method DestroyNow(id: nat)
      requires id < |objects|
      modifies this`objects
      ensures |objects| == old(|objects|) && View() == DestroyConnection(old(View()), id)
    {
      ConnEventNow(id, ConnEvent.Destroy);
      objects := objects[id := objects[id].(destroyed := true)];
    }
  }

  /** A server as a user sets it up: constructed on its base loop, given its threads, and started. */
  method StartServer(names: Names, config: Config, numThreads: nat) returns (server: TcpServer)
    requires |names.ipPort| <= 21
    ensures fresh(server) && server.Valid() && server.View() == Startup(numThreads)
  {
    var pool := new EventLoopThreadPool();
    pool.SetThreadNum(numThreads);
    pool.Start();
    server := new TcpServer(names, config, pool);
  }
}
