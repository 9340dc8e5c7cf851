/**
 TcpServer.cc and the connections it owns, as an interleaving of the base loop (loop 0), the
 sub-loops, other threads and the user. Each loop's queue and phases are those of a run of module
 LoopMachine, as module ServerLoops proves.

 A connection is alive while a shared_ptr to it exists: in connections_, bound in a functor that is
 queued or belongs to the batch under way, in the guard of the dispatch it is in, or with the user.
 When the last one goes the descriptor is closed, which takes it out of the kernel's epoll set; what
 the program would do to the object after that is undefined, and a run of this model ends there.
 */
module Server {
  import opened ByteBuffer
  import opened Epoll
  import opened Connection
  import opened LoopMachine

  /** Queued functors. The first three are bound to a shared_ptr; the last to a bare `this`. */
  datatype Functor =
    | RunEstablished(id: nat)   // TcpConnection::connectEstablished
    | RunRemove(id: nat)        // TcpServer::removeConnectionInLoop
    | RunDestroyed(id: nat)     // TcpConnection::connectDestroyed
    | RunLate(id: nat, e: ConnEvent)

  /** Callbacks a dispatch pass has still to make, channel by channel. */
  datatype Todo = DoClose(id: nat) | DoRead(id: nat) | DoWrite(id: nat) | DoNotify(id: nat)

  /** In a pass, `guard` is the connection whose channel is in handleEvent. */
  datatype LoopPhase = Waiting | Passing(active: set<nat>, todo: seq<Todo>, guard: Option<nat>) | Batch

  /** `done` has run in the batch under way; doPendingFunctors keeps it until the batch ends. */
  datatype Loop = Loop(queue: Queue<Functor>, done: seq<Functor>, phase: LoopPhase)

  /**
   The user's side of a connection. `keeps`: references outside the map and the functors above, which
   include those bound in queued user callbacks. The others count threads off the loop that are
   inside send() past its check, in shutdown() past its check, and in shutdown() past its store.
   */
  datatype Users = Users(keeps: bool, sending: nat, asking: nat, storing: nat)

  const NO_USERS := Users(false, 0, 0, 0)

  /** `destroyed`: connectDestroyed has run. */
  datatype Entry = Entry(conn: Conn, fd: int, loop: nat, inMap: bool, destroyed: bool, users: Users)

  /** entries[k] is the connection accepted k-th; its number (nextConnId_) is k + 1. */
  datatype World = World(entries: seq<Entry>, loops: seq<Loop>)

  predicate Strong(f: Functor) {
    !f.RunLate?
  }

  ghost predicate Refers(loop: Loop, id: nat) {
    || (loop.phase.Passing? && loop.phase.guard == Some(id))
    || exists f <- loop.done + loop.queue.All() :: Strong(f) && f.id == id
  }

  ghost predicate Held(w: World, id: nat)
    requires id < |w.entries|
  {
    w.entries[id].inMap || w.entries[id].users.keeps || exists l :: 0 <= l < |w.loops| && Refers(w.loops[l], id)
  }

  // ---------------------------------------------------------------------------
  // What one action changes

  function SetConn(w: World, id: nat, c: Conn): World
    requires id < |w.entries|
  {
    w.(entries := w.entries[id := w.entries[id].(conn := c)])
  }

  function Touch(w: World, id: nat, e: ConnEvent): World
    requires id < |w.entries|
  {
    SetConn(w, id, Step(AsWritten, w.entries[id].conn, e))
  }

  function Post(w: World, l: nat, f: Functor): World
    requires l < |w.loops|
  {
    w.(loops := w.loops[l := w.loops[l].(queue := w.loops[l].queue.Push(f))])
  }

  function SetPhase(w: World, l: nat, p: LoopPhase): World
    requires l < |w.loops|
  {
    w.(loops := w.loops[l := w.loops[l].(phase := p)])
  }

  function SetUsers(w: World, id: nat, u: Users): World
    requires id < |w.entries|
  {
    w.(entries := w.entries[id := w.entries[id].(users := u)])
  }

  function Unmap(w: World, id: nat): World
    requires id < |w.entries|
  {
    w.(entries := w.entries[id := w.entries[id].(inMap := false)])
  }

  /** connectDestroyed on its loop. */
  function DestroyConnection(w: World, id: nat): World
    requires id < |w.entries|
  {
    var t := Touch(w, id, ConnEvent.Destroy);
    t.(entries := t.entries[id := t.entries[id].(destroyed := true)])
  }

  /** removeConnectionInLoop on the base loop: erase, then queue connectDestroyed on the connection's loop. */
  function RemoveConnection(w: World, id: nat): World
    requires id < |w.entries| && w.entries[id].loop < |w.loops|
  {
    Unmap(Post(w, w.entries[id].loop, RunDestroyed(id)), id)
  }

  /** getNextLoop for the k-th connection: the base loop alone, or round robin over the sub-loops. */
  function Placement(k: nat, numLoops: nat): nat
    requires numLoops > 0
  {
    if numLoops == 1 then 0 else 1 + k % (numLoops - 1)
  }

  /** newConnection: the map entry, then connectEstablished, at once or queued on the chosen loop. */
  function Accept(w: World, fd: int, config: Config): World
    requires |w.loops| > 0
  {
    var id, l := |w.entries|, Placement(|w.entries|, |w.loops|);
    var t := w.(entries := w.entries + [Entry(Born(config), fd, l, true, false, NO_USERS)]);
    if l == 0 then Touch(t, id, Establish) else Post(t, l, RunEstablished(id))
  }

  /** handleEventWithGuard for one reported event set. */
  function Calls(id: nat, revents: Mask): seq<Todo> {
    (if HangsUp(revents) then [DoClose(id)] else [])
    + (if revents * READ_EVENT != {} then [DoRead(id)] else [])
    + (if Out in revents then [DoWrite(id)] else [])
  }

  function Plan(report: seq<(nat, Mask)>): seq<Todo> {
    if report == [] then [] else Plan(report[..|report| - 1]) + Calls(report[|report| - 1].0, report[|report| - 1].1)
  }

  /** The plan goes through the report in its order, each channel with its own callbacks. */
  lemma {:induction false} PlanFollowsTheReport(report: seq<(nat, Mask)>, more: seq<(nat, Mask)>)
    ensures Plan(report + more) == Plan(report) + Plan(more)
    ensures |report| == 1 ==> Plan(report) == Calls(report[0].0, report[0].1)
    decreases |more|
  {
    if |report| == 1 {
      assert report[..0] == [] && Plan(report) == [] + Calls(report[0].0, report[0].1);
    }
    if more == [] {
      assert report + more == report && Plan(report) + [] == Plan(report);
    } else {
      var init, last := more[..|more| - 1], more[|more| - 1];
      assert (report + more)[..|report + more| - 1] == report + init;
      PlanFollowsTheReport(report, init);
      assert Plan(report) + Plan(more) == (Plan(report) + Plan(init)) + Calls(last.0, last.1);
    }
  }

  /** The connection events of a list of callbacks, all with these outcomes. */
  function EventsOf(calls: seq<Todo>, r: ReadResult, wr: WriteResult): seq<ConnEvent> {
    if calls == [] then [] else
      (match calls[0]
       case DoClose(_) => [Close]
       case DoRead(_) => [Read(r)]
       case DoWrite(_) => [Write(wr)]
       case DoNotify(_) => [])
      + EventsOf(calls[1..], r, wr)
  }

  /** The callbacks planned for a channel are those of its dispatch, in its order. */
  lemma PlannedCallsAreTheDispatch(id: nat, revents: Mask, r: ReadResult, wr: WriteResult)
    ensures EventsOf(Calls(id, revents), r, wr) == Dispatch(revents, r, wr, NO_REACTIONS)
  {
    var closing := if HangsUp(revents) then [DoClose(id)] else [];
    var reading := if revents * READ_EVENT != {} then [DoRead(id)] else [];
    var writing := if Out in revents then [DoWrite(id)] else [];
    EventsOfJoin(closing + reading, writing, r, wr);
    EventsOfJoin(closing, reading, r, wr);
    EventsOfOne(DoClose(id), r, wr);
    EventsOfOne(DoRead(id), r, wr);
    EventsOfOne(DoWrite(id), r, wr);
    assert EventsOf(closing, r, wr) == if HangsUp(revents) then [Close] + [] else [];
    assert EventsOf(reading, r, wr) == if revents * READ_EVENT != {} then [Read(r)] + [] else [];
    assert EventsOf(writing, r, wr) == if Out in revents then [Write(wr)] + [] else [];
  }

  lemma EventsOfOne(t: Todo, r: ReadResult, wr: WriteResult)
    ensures EventsOf([t], r, wr) == match t
                                    case DoClose(_) => [Close]
                                    case DoRead(_) => [Read(r)]
                                    case DoWrite(_) => [Write(wr)]
                                    case DoNotify(_) => []
  {
    assert [t][1..] == [];
  }

  lemma {:induction false} EventsOfJoin(a: seq<Todo>, b: seq<Todo>, r: ReadResult, wr: WriteResult)
    ensures EventsOf(a + b, r, wr) == EventsOf(a, r, wr) + EventsOf(b, r, wr)
  {
    if a == [] {
      assert a + b == b;
    } else {
      assert (a + b)[1..] == a[1..] + b;
      EventsOfJoin(a[1..], b, r, wr);
    }
  }

  /** newConnection adds the one connection, in the map, on its loop, with the descriptor and settings it was given. */
  lemma AcceptAddsOne(w: World, fd: int, config: Config)
    requires |w.loops| > 0
    ensures var t, k := Accept(w, fd, config), |w.entries|;
            && |t.entries| == k + 1 && t.entries[..k] == w.entries
            && t.entries[k].fd == fd && t.entries[k].conn.config == config
            && t.entries[k].inMap && !t.entries[k].destroyed && t.entries[k].users == Users(false, 0, 0, 0)
            && t.entries[k].loop == (if |w.loops| == 1 then 0 else 1 + k % (|w.loops| - 1))
            && (t.entries[k].conn.ups == 1 <==> |w.loops| == 1)
            && (|w.loops| > 1 ==> RunEstablished(k) in t.loops[t.entries[k].loop].queue.pending)
  {
  }

  /** handleEvent's guard outlives the callback while more of the same channel follow. */
  function PassAfter(active: set<nat>, todo: seq<Todo>, id: nat): LoopPhase {
    Passing(active, todo, if todo != [] && todo[0].id == id then Some(id) else None)
  }

  /** One callback of the pass. handleClose ends with the close callback, which DoNotify stands for. */
  function Call(w: World, l: nat, r: ReadResult, wr: WriteResult): World
    requires l < |w.loops| && w.loops[l].phase.Passing? && w.loops[l].phase.todo != []
    requires var id := w.loops[l].phase.todo[0].id; id < |w.entries| && w.entries[id].loop < |w.loops|
  {
    var todo, active := w.loops[l].phase.todo, w.loops[l].phase.active;
    var id := todo[0].id;
    var rest := SetPhase(w, l, PassAfter(active, todo[1..], id));
    var notify := SetPhase(w, l, PassAfter(active, [DoNotify(id)] + todo[1..], id));
    match todo[0]
    case DoClose(_) => Touch(notify, id, Close)
    case DoRead(_) => Touch(if r == Got([]) then notify else rest, id, Read(r))
    case DoWrite(_) => Touch(rest, id, Write(wr))
    case DoNotify(_) =>
      var posted := if l == 0 then RemoveConnection(w, id) else Post(w, 0, RunRemove(id));
      SetPhase(posted, l, PassAfter(active, todo[1..], id))
  }

  function Popped(loop: Loop): Loop
    requires loop.queue.batch != []
  {
    loop.(queue := loop.queue.Pop(), done := loop.done + [loop.queue.batch[0]])
  }

  function Pop(w: World, l: nat): World
    requires l < |w.loops| && w.loops[l].queue.batch != []
  {
    w.(loops := w.loops[l := Popped(w.loops[l])])
  }

  /** The first functor of the batch runs. */
  function RunFunctor(w: World, l: nat): World
    requires l < |w.loops| && w.loops[l].queue.batch != []
    requires var id := w.loops[l].queue.batch[0].id; id < |w.entries| && w.entries[id].loop < |w.loops|
  {
    var f := w.loops[l].queue.batch[0];
    match f
    case RunEstablished(id) => Touch(Pop(w, l), id, Establish)
    case RunRemove(id) => Pop(RemoveConnection(w, id), l)
    case RunDestroyed(id) => Pop(DestroyConnection(w, id), l)
    case RunLate(id, e) => Pop(Touch(w, id, e), l)
  }

  // ---------------------------------------------------------------------------
  // The actions

  datatype Action =
    | DoAccept(fd: int, config: Config)
    | PollReturns(l: nat, report: seq<(nat, Mask)>)
    | MakeCall(l: nat, r: ReadResult, wr: WriteResult)
    | PassEnds(l: nat)
    | RunOne(l: nat)
    | BatchEnds(l: nat)
    | UserCalls(l: nat, id: nat, e: ConnEvent)
    | UserKeeps(id: nat)
    | UserLets(id: nat)
    | SendChecks(id: nat)
    | SendPushes(id: nat, data: seq<Byte>, wr: WriteResult)
    | ShutdownChecks(id: nat)
    | ShutdownSets(id: nat, stale: bool)
    | ShutdownPushes(id: nat)
    | DestroyServerItem(id: nat)

  predicate Exists(w: World, id: nat) {
    id < |w.entries| && w.entries[id].loop < |w.loops| && w.entries[id].conn.ups > 0
  }

  /** In the kernel's set, its descriptor not closed. */
  ghost predicate Registered(w: World, id: nat) {
    id < |w.entries| && Held(w, id) && w.entries[id].conn.slot.kernel.Some?
  }

  ghost predicate Reportable(w: World, l: nat, id: nat, revents: Mask) {
    && Registered(w, id) && w.entries[id].loop == l
    && revents <= w.entries[id].conn.slot.kernel.value + {Err, Hup}
  }

  /** The thread has a reference while it is inside send() or shutdown(). */
  predicate OffLoop(w: World, id: nat) {
    Exists(w, id) && w.entries[id].users.keeps
  }

  /**
   Accept runs in a dispatch pass of the base loop, on a descriptor no open socket uses. epoll_wait
   reports any of the loop's registered descriptors, each at most once. A user acts on the
   connection's loop, in a callback or functor, or on another thread, where send() checks the state
   and then pushes, and shutdown() checks, stores and pushes. The server's destructor treats one map
   entry at a time, outside the base loop's dispatch. Nothing is done to a freed connection.
   */
  ghost predicate Allowed(w: World, a: Action) {
    match a
    case DoAccept(fd, _) =>
      && |w.loops| > 0 && w.loops[0].phase.Passing?
      && forall id :: 0 <= id < |w.entries| && Held(w, id) ==> w.entries[id].fd != fd
    case PollReturns(l, report) =>
      && l < |w.loops| && w.loops[l].phase.Waiting?
      && (forall i :: 0 <= i < |report| ==> Reportable(w, l, report[i].0, report[i].1))
      && (forall i, j :: 0 <= i < j < |report| ==> report[i].0 != report[j].0)
    case MakeCall(l, _, _) =>
      && l < |w.loops| && w.loops[l].phase.Passing? && w.loops[l].phase.todo != []
      && Exists(w, w.loops[l].phase.todo[0].id) && Held(w, w.loops[l].phase.todo[0].id)
    case PassEnds(l) => l < |w.loops| && w.loops[l].phase.Passing? && w.loops[l].phase.todo == []
    case RunOne(l) =>
      && l < |w.loops| && w.loops[l].queue.batch != []
      && var f := w.loops[l].queue.batch[0];
         f.id < |w.entries| && w.entries[f.id].loop < |w.loops| && (f.RunLate? ==> Held(w, f.id))
    case BatchEnds(l) => l < |w.loops| && w.loops[l].phase.Batch? && w.loops[l].queue.batch == []
    case UserCalls(l, id, e) => Exists(w, id) && w.entries[id].loop == l && UserEvent(e) && Held(w, id)
    case UserKeeps(id) => Exists(w, id) && Held(w, id)
    case UserLets(id) => Exists(w, id) && w.entries[id].users == Users(true, 0, 0, 0)
    case SendChecks(id) => OffLoop(w, id) && w.entries[id].conn.state.Connected?
    case SendPushes(id, _, _) => OffLoop(w, id) && w.entries[id].users.sending > 0
    case ShutdownChecks(id) => OffLoop(w, id) && w.entries[id].conn.state.Connected?
    case ShutdownSets(id, stale) =>
      OffLoop(w, id) && w.entries[id].users.asking > 0 && (stale <==> !w.entries[id].conn.state.Connected?)
    case ShutdownPushes(id) => OffLoop(w, id) && w.entries[id].users.storing > 0
    case DestroyServerItem(id) =>
      && id < |w.entries| && w.entries[id].loop < |w.loops| && |w.loops| > 0
      && w.entries[id].inMap && !w.loops[0].phase.Passing?
  }

  ghost function Result(w: World, a: Action): World
    requires Allowed(w, a)
  {
    match a
    case DoAccept(fd, config) => Accept(w, fd, config)
    case PollReturns(l, report) =>
      SetPhase(w, l, Passing(set i | 0 <= i < |report| :: report[i].0, Plan(report), None))
    case MakeCall(l, r, wr) => Call(w, l, r, wr)
    case PassEnds(l) => w.(loops := w.loops[l := Loop(w.loops[l].queue.Swap(), [], Batch)])
    case RunOne(l) => RunFunctor(w, l)
    case BatchEnds(l) => w.(loops := w.loops[l := Loop(w.loops[l].queue, [], Waiting)])
    case UserCalls(_, id, e) => Touch(w, id, e)
    case DestroyServerItem(id) =>
      if w.entries[id].loop == 0 then Unmap(DestroyConnection(w, id), id)
      else Unmap(Post(w, w.entries[id].loop, RunDestroyed(id)), id)
    case _ => OffLoopResult(w, a)
  }

  predicate IsOffLoop(a: Action) {
    || a.UserKeeps? || a.UserLets? || a.SendChecks? || a.SendPushes?
    || a.ShutdownChecks? || a.ShutdownSets? || a.ShutdownPushes?
  }

  /** What the user's references and other threads do. A store that is not stale is check and store in one. */
  ghost function OffLoopResult(w: World, a: Action): World
    requires Allowed(w, a) && IsOffLoop(a)
  {
    var id := a.id;
    var u, l := w.entries[id].users, w.entries[id].loop;
    match a
    case UserKeeps(_) => SetUsers(w, id, u.(keeps := true))
    case UserLets(_) => SetUsers(w, id, u.(keeps := false))
    case SendChecks(_) => SetUsers(w, id, u.(sending := u.sending + 1))
    case SendPushes(_, data, wr) =>
      Post(SetUsers(w, id, u.(sending := u.sending - 1)), l, RunLate(id, LateSend(data, wr)))
    case ShutdownChecks(_) => SetUsers(w, id, u.(asking := u.asking + 1))
    case ShutdownSets(_, stale) =>
      Touch(SetUsers(w, id, u.(asking := u.asking - 1, storing := u.storing + 1)), id,
            if stale then ShutdownSet else ShutdownTake)
    case ShutdownPushes(_) => Post(SetUsers(w, id, u.(storing := u.storing - 1)), l, RunLate(id, LateShutdown))
  }

  // ---------------------------------------------------------------------------
  // The invariant

  ghost function QueueOf(w: World, id: nat): seq<Functor>
    requires id < |w.entries| && w.entries[id].loop < |w.loops|
  {
    w.loops[w.entries[id].loop].queue.All()
  }

  /** Somebody will see to the connection's end: the map, or a functor on its way to connectDestroyed. */
  ghost predicate Owned(w: World, id: nat)
    requires id < |w.entries| && w.entries[id].loop < |w.loops|
  {
    || w.entries[id].inMap
    || RunRemove(id) in w.loops[0].queue.All()
    || RunDestroyed(id) in QueueOf(w, id)
  }

  /** The first queued functor about the connection establishes it, and no other does. */
  ghost predicate EstablishedFirst(q: seq<Functor>, id: nat) {
    exists p :: 0 <= p < |q| && q[p] == RunEstablished(id)
      && (forall k :: 0 <= k < p ==> q[k].id != id)
      && (forall k :: p < k < |q| ==> q[k] != RunEstablished(id))
  }

  predicate ConnOk(e: Entry) {
    if e.conn.ups == 0 then
      e.conn.state.Connecting? && e.conn.slot == FRESH && !e.destroyed
    else
      && !e.conn.state.Connecting? && Mirror(e.conn.slot)
      && (e.conn.slot.index.New? ==> e.destroyed)
      && (e.destroyed ==> !e.conn.state.Connected?)
  }

  ghost predicate EntryOk(w: World, id: nat)
    requires id < |w.entries|
  {
    var e := w.entries[id];
    && |w.loops| > 0 && e.loop == Placement(id, |w.loops|) < |w.loops|
    && (e.loop == 0 ==> e.conn.ups > 0)
    && ConnOk(e)
    && (!e.destroyed ==> Owned(w, id))
    && (e.conn.ups == 0 ==> EstablishedFirst(QueueOf(w, id), id))
    && (e.conn.ups > 0 ==> RunEstablished(id) !in QueueOf(w, id))
  }

  /** The functor is queued where it belongs. */
  predicate Placed(w: World, l: nat, f: Functor) {
    && f.id < |w.entries|
    && (if f.RunRemove? then l == 0 else w.entries[f.id].loop == l)
    && (f.RunRemove? || f.RunLate? ==> w.entries[f.id].conn.ups > 0)
    && (f.RunLate? ==> f.e.LateSend? || f.e.LateShutdown?)
  }

  /** A channel of the pass belongs to the loop, is established and is with the poller. */
  predicate ActiveOk(w: World, l: nat, id: nat) {
    id < |w.entries| && w.entries[id].loop == l && w.entries[id].conn.ups > 0 && !w.entries[id].conn.slot.index.New?
  }

  ghost predicate LoopOk(w: World, l: nat)
    requires l < |w.loops|
  {
    && (forall f <- w.loops[l].queue.All() :: Placed(w, l, f))
    && (w.loops[l].queue.batch != [] ==> w.loops[l].phase.Batch?)
    && (w.loops[l].phase.Passing? ==>
          && (forall id <- w.loops[l].phase.active :: ActiveOk(w, l, id))
          && (forall t <- w.loops[l].phase.todo :: t.id in w.loops[l].phase.active))
  }

  ghost predicate FdsOk(w: World) {
    forall i, j :: 0 <= i < j < |w.entries| && Held(w, i) && Held(w, j) ==> w.entries[i].fd != w.entries[j].fd
  }

  ghost predicate Safe(w: World) {
    && |w.loops| > 0
    && (forall id :: 0 <= id < |w.entries| ==> EntryOk(w, id))
    && (forall l :: 0 <= l < |w.loops| ==> LoopOk(w, l))
    && FdsOk(w)
  }
}
