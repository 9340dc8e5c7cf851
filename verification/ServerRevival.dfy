/**
 Runs from startup in which a connection speaks after connectDestroyed. In the first, neither anomaly
 excluded in module ServerCallbacks occurs, only the server's destructor and a shutdown that is pending.
 In the second the server lives, the connection is closed by its peer, and a stale store does it.
 */
module ServerRevival {
  import opened ByteBuffer
  import opened Epoll
  import opened Connection
  import opened LoopMachine
  import opened Server
  import opened ServerSafety
  import opened ServerCallbacks

  /** One connection, on the only sub-loop. */
  function Lone(e: Entry, base: Loop, sub: Loop): World {
    World([e], [base, sub])
  }

  const PASS := Passing({}, [], None)

  const IDLE := Loop(Queue([], []), [], Waiting)

  /** The base loop at the end of a batch. */
  const BASE := Loop(Queue([], []), [], Batch)

  /** The base loop is in a pass, and there is no connection yet. */
  const ACCEPTING := World([], [IDLE.(phase := PASS), IDLE])

  ghost predicate Goes(w: World, a: Action, t: World) {
    Allowed(w, a) && Result(w, a) == t
  }

  lemma BaseUpdates(e: Entry, base: Loop, sub: Loop, base': Loop)
    ensures var w := Lone(e, base, sub); w.(loops := w.loops[0 := base']) == Lone(e, base', sub)
  {
    assert Lone(e, base, sub).loops[0 := base'] == Lone(e, base', sub).loops;
  }

  lemma SubUpdates(e: Entry, base: Loop, sub: Loop, e': Entry, sub': Loop)
    ensures var w := Lone(e, base, sub);
            && w.(entries := w.entries[0 := e']) == Lone(e', base, sub)
            && w.(loops := w.loops[1 := sub']) == Lone(e, base, sub')
  {
    assert [e][0 := e'] == [e'];
    assert Lone(e, base, sub).loops[1 := sub'] == Lone(e, base, sub').loops;
  }

  lemma BasePasses()
    ensures Goes(Startup(1), PollReturns(0, []), ACCEPTING)
  {
    EmptyReport();
    assert Startup(1).loops == [IDLE, IDLE];
    assert [IDLE, IDLE][0 := IDLE.(phase := PASS)] == [IDLE.(phase := PASS), IDLE];
  }

  /** A wait that reports nothing starts a pass without callbacks. */
  lemma EmptyReport()
    ensures var report: seq<(nat, Mask)> := [];
            Passing(set i | 0 <= i < |report| :: report[i].0, Plan(report), None) == PASS
  {
  }

  lemma BaseAccepts(config: Config, fd: int)
    ensures Goes(ACCEPTING, DoAccept(fd, config),
                 Lone(Entry(Born(config), fd, 1, true, false, NO_USERS), IDLE.(phase := PASS),
                      Loop(Queue([RunEstablished(0)], []), [], Waiting)))
  {
    var e := Entry(Born(config), fd, 1, true, false, NO_USERS);
    assert [] + [e] == [e] && [] + [RunEstablished(0)] == [RunEstablished(0)];
    assert Placement(0, 2) == 1;
    SubUpdates(e, IDLE.(phase := PASS), IDLE, e, IDLE.(queue := IDLE.queue.Push(RunEstablished(0))));
  }

  lemma BasePassEnds(e: Entry, sub: Loop)
    ensures Goes(Lone(e, IDLE.(phase := PASS), sub), PassEnds(0), Lone(e, BASE, sub))
  {
    BaseUpdates(e, IDLE.(phase := PASS), sub, BASE);
  }

  lemma SubPasses(e: Entry, q: Queue<Functor>)
    ensures Goes(Lone(e, BASE, Loop(q, [], Waiting)), PollReturns(1, []), Lone(e, BASE, Loop(q, [], PASS)))
    ensures Goes(Lone(e, BASE, Loop(q, [], PASS)), PassEnds(1), Lone(e, BASE, Loop(q.Swap(), [], Batch)))
  {
    EmptyReport();
    SubUpdates(e, BASE, Loop(q, [], Waiting), e, Loop(q, [], PASS));
    SubUpdates(e, BASE, Loop(q, [], PASS), e, Loop(q.Swap(), [], Batch));
  }

  lemma SubEstablishes(e: Entry)
    requires e.loop == 1
    ensures var sub := Loop(Queue([], [RunEstablished(0)]), [], Batch);
            Goes(Lone(e, BASE, sub), RunOne(1), Lone(e.(conn := ConnectEstablished(e.conn)), BASE, Popped(sub)))
  {
    var sub := Loop(Queue([], [RunEstablished(0)]), [], Batch);
    SubUpdates(e, BASE, sub, e, Popped(sub));
    SubUpdates(e, BASE, Popped(sub), e.(conn := ConnectEstablished(e.conn)), sub);
  }

  lemma UserKeepsAndChecks(e: Entry, sub: Loop)
    requires e.loop == 1 && e.inMap && e.conn.ups > 0 && e.conn.state.Connected? && e.users == NO_USERS
    ensures var e1, e2 := e.(users := Users(true, 0, 0, 0)), e.(users := Users(true, 1, 0, 0));
            && Goes(Lone(e, BASE, sub), UserKeeps(0), Lone(e1, BASE, sub))
            && Goes(Lone(e1, BASE, sub), SendChecks(0), Lone(e2, BASE, sub))
            && Goes(Lone(e2, BASE, sub), ShutdownChecks(0), Lone(e.(users := Users(true, 1, 1, 0)), BASE, sub))
  {
    var e1, e2 := e.(users := Users(true, 0, 0, 0)), e.(users := Users(true, 1, 0, 0));
    SubUpdates(e, BASE, sub, e1, sub);
    SubUpdates(e1, BASE, sub, e2, sub);
    SubUpdates(e2, BASE, sub, e.(users := Users(true, 1, 1, 0)), sub);
  }

  lemma DestructorQueues(e: Entry, sub: Loop)
    requires e.loop == 1 && e.inMap
    ensures Goes(Lone(e, BASE, sub), DestroyServerItem(0),
                 Lone(e.(inMap := false), BASE, sub.(queue := sub.queue.Push(RunDestroyed(0)))))
  {
    var sub' := sub.(queue := sub.queue.Push(RunDestroyed(0)));
    SubUpdates(e, BASE, sub, e, sub');
    SubUpdates(e, BASE, sub', e.(inMap := false), sub');
  }

  lemma SendFollows(e: Entry, base: Loop, sub: Loop, data: seq<Byte>, wr: WriteResult)
    requires e.loop == 1 && e.conn.ups > 0 && e.users == Users(true, 1, 1, 0)
    ensures Goes(Lone(e, base, sub), SendPushes(0, data, wr),
                 Lone(e.(users := Users(true, 0, 1, 0)), base,
                      sub.(queue := sub.queue.Push(RunLate(0, LateSend(data, wr))))))
  {
    var e' := e.(users := Users(true, 0, 1, 0));
    SubUpdates(e, base, sub, e', sub);
    SubUpdates(e', base, sub, e', sub.(queue := sub.queue.Push(RunLate(0, LateSend(data, wr)))));
  }

  /** shutdown() stores its state, in time or not. */
  lemma ShutdownFollows(e: Entry, base: Loop, sub: Loop)
    requires e.loop == 1 && e.conn.ups > 0 && e.users == Users(true, 0, 1, 0)
    ensures Goes(Lone(e, base, sub), ShutdownSets(0, !e.conn.state.Connected?),
                 Lone(e.(conn := e.conn.(state := Disconnecting), users := Users(true, 0, 0, 1)), base, sub))
  {
    var e' := e.(users := Users(true, 0, 0, 1));
    SubUpdates(e, base, sub, e', sub);
    SubUpdates(e', base, sub, e'.(conn := e.conn.(state := Disconnecting)), sub);
  }

  lemma SubBatchEnds(e: Entry, q: seq<Functor>, done: seq<Functor>)
    ensures Goes(Lone(e, BASE, Loop(Queue(q, []), done, Batch)), BatchEnds(1),
                 Lone(e, BASE, Loop(Queue(q, []), [], Waiting)))
  {
    SubUpdates(e, BASE, Loop(Queue(q, []), done, Batch), e, Loop(Queue(q, []), [], Waiting));
  }

  /** connectDestroyed runs first; its functor, done, still refers to the connection ... */
  lemma SubDestroys(e: Entry, base: Loop, late: Functor)
    requires e.loop == 1
    ensures var sub := Loop(Queue([], [RunDestroyed(0), late]), [], Batch);
            Goes(Lone(e, base, sub), RunOne(1),
                 Lone(e.(conn := ConnectDestroyed(e.conn), destroyed := true), base, Popped(sub)))
  {
    var sub := Loop(Queue([], [RunDestroyed(0), late]), [], Batch);
    var e0 := e.(conn := ConnectDestroyed(e.conn));
    SubUpdates(e, base, sub, e0, sub);
    SubUpdates(e0, base, sub, e0.(destroyed := true), sub);
    SubUpdates(e0.(destroyed := true), base, sub, e0, Popped(sub));
  }

  lemma DoneRefers(e: Entry, base: Loop, sub: Loop)
    requires RunDestroyed(0) in sub.done
    ensures Held(Lone(e, base, sub), 0)
  {
    assert RunDestroyed(0) in sub.done + sub.queue.All();
    assert Refers(Lone(e, base, sub).loops[1], 0);
  }

  /** ... so the send behind it runs on a live object. */
  lemma SubSends(e: Entry, base: Loop, data: seq<Byte>, wr: WriteResult, sub: Loop)
    requires e.loop == 1 && RunDestroyed(0) in sub.done
    requires sub.queue.batch == [RunLate(0, LateSend(data, wr))]
    ensures Goes(Lone(e, base, sub), RunOne(1), Lone(e.(conn := SendInLoop(e.conn, data, wr)), base, Popped(sub)))
  {
    DoneRefers(e, base, sub);
    var e' := e.(conn := SendInLoop(e.conn, data, wr));
    SubUpdates(e, base, sub, e', sub);
    SubUpdates(e', base, sub, e', Popped(sub));
  }

  ghost predicate Reaches(acts: seq<Action>, w: World) {
    Feasible(Startup(1), acts) && Outcome(Startup(1), acts) == w
  }

  predicate AllCourteous(acts: seq<Action>) {
    forall a <- acts :: Courteous(a)
  }

  predicate ServerLives(acts: seq<Action>) {
    forall a <- acts :: !a.DestroyServerItem?
  }

  lemma Then(acts: seq<Action>, a: Action, t: World) returns (more: seq<Action>)
    requires Feasible(Startup(1), acts) && Goes(Outcome(Startup(1), acts), a, t)
    ensures Reaches(more, t)
    ensures AllCourteous(acts) && Courteous(a) ==> AllCourteous(more)
    ensures ServerLives(acts) && !a.DestroyServerItem? ==> ServerLives(more)
  {
    FeasibleSnoc(Startup(1), acts, a);
    more := acts + [a];
  }

  /** Established, its RunEstablished the one functor of the batch; the user holds a reference. */
  function Up(config: Config, fd: int, users: Users): World {
    Lone(Entry(ConnectEstablished(Born(config)), fd, 1, true, false, users), BASE,
         Popped(Loop(Queue([], [RunEstablished(0)]), [], Batch)))
  }

  lemma ReachEstablished(config: Config, fd: int) returns (acts: seq<Action>)
    ensures Reaches(acts, Up(config, fd, NO_USERS))
    ensures AllCourteous(acts) && ServerLives(acts)
  {
    var e := Entry(Born(config), fd, 1, true, false, NO_USERS);
    var q := Queue([RunEstablished(0)], []);
    BasePasses();
    BaseAccepts(config, fd);
    BasePassEnds(e, Loop(q, [], Waiting));
    SubPasses(e, q);
    SubEstablishes(e);
    acts := Then([], PollReturns(0, []), ACCEPTING);
    acts := Then(acts, DoAccept(fd, config), Lone(e, IDLE.(phase := PASS), Loop(q, [], Waiting)));
    acts := Then(acts, PassEnds(0), Lone(e, BASE, Loop(q, [], Waiting)));
    acts := Then(acts, PollReturns(1, []), Lone(e, BASE, Loop(q, [], PASS)));
    acts := Then(acts, PassEnds(1), Lone(e, BASE, Loop(q.Swap(), [], Batch)));
    acts := Then(acts, RunOne(1), Up(config, fd, NO_USERS));
  }

  /** Another thread is past the checks of a send() and a shutdown(). */
  lemma ReachChecked(config: Config, fd: int) returns (acts: seq<Action>)
    ensures Reaches(acts, Up(config, fd, Users(true, 1, 1, 0)))
    ensures AllCourteous(acts) && ServerLives(acts)
  {
    acts := ReachEstablished(config, fd);
    UserKeepsAndChecks(Up(config, fd, NO_USERS).entries[0], Up(config, fd, NO_USERS).loops[1]);
    acts := Then(acts, UserKeeps(0), Up(config, fd, Users(true, 0, 0, 0)));
    acts := Then(acts, SendChecks(0), Up(config, fd, Users(true, 1, 0, 0)));
    acts := Then(acts, ShutdownChecks(0), Up(config, fd, Users(true, 1, 1, 0)));
  }

  /** The connection as the destructor and the other thread leave it: out of the map, a shutdown pending. */
  function Asked(config: Config, fd: int): Entry {
    Entry(ConnectEstablished(Born(config)).(state := Disconnecting), fd, 1, false, false, Users(true, 0, 0, 1))
  }

  /** connectDestroyed and behind it the send are queued. */
  function Queued(config: Config, fd: int, data: seq<Byte>, wr: WriteResult): World {
    Lone(Asked(config, fd), BASE,
         Loop(Queue([RunDestroyed(0), RunLate(0, LateSend(data, wr))], []), [RunEstablished(0)], Batch))
  }

  lemma ReachUnmapped(config: Config, fd: int) returns (acts: seq<Action>)
    ensures Reaches(acts, Lone(Up(config, fd, Users(true, 1, 1, 0)).entries[0].(inMap := false), BASE,
                               Loop(Queue([RunDestroyed(0)], []), [RunEstablished(0)], Batch)))
    ensures AllCourteous(acts)
  {
    acts := ReachChecked(config, fd);
    var w := Up(config, fd, Users(true, 1, 1, 0));
    var e, sub := w.entries[0], w.loops[1];
    var sub' := sub.(queue := sub.queue.Push(RunDestroyed(0)));
    DestructorQueues(e, sub);
    assert sub' == Loop(Queue([RunDestroyed(0)], []), [RunEstablished(0)], Batch);
    acts := Then(acts, DestroyServerItem(0), Lone(e.(inMap := false), BASE, sub'));
  }

  lemma ReachQueued(config: Config, fd: int, data: seq<Byte>, wr: WriteResult) returns (acts: seq<Action>)
    ensures Reaches(acts, Queued(config, fd, data, wr))
    ensures AllCourteous(acts)
  {
    acts := ReachUnmapped(config, fd);
    var e := Up(config, fd, Users(true, 1, 1, 0)).entries[0].(inMap := false);
    var sub := Loop(Queue([RunDestroyed(0)], []), [RunEstablished(0)], Batch);
    var sub' := Queued(config, fd, data, wr).loops[1];
    assert sub' == sub.(queue := sub.queue.Push(RunLate(0, LateSend(data, wr))));
    SendFollows(e, BASE, sub, data, wr);
    ShutdownFollows(e.(users := Users(true, 0, 1, 0)), BASE, sub');
    acts := Then(acts, SendPushes(0, data, wr), Lone(e.(users := Users(true, 0, 1, 0)), BASE, sub'));
    acts := Then(acts, ShutdownSets(0, false), Queued(config, fd, data, wr));
  }

  /** The sub-loop's batch: connectDestroyed, and behind it the send. */
  function LastBatch(data: seq<Byte>, wr: WriteResult): Loop {
    Loop(Queue([], [RunDestroyed(0), RunLate(0, LateSend(data, wr))]), [], Batch)
  }

  lemma ReachLastBatch(config: Config, fd: int, data: seq<Byte>, wr: WriteResult) returns (acts: seq<Action>)
    ensures Reaches(acts, Lone(Asked(config, fd), BASE, LastBatch(data, wr)))
    ensures AllCourteous(acts)
  {
    var e, q := Asked(config, fd), Queued(config, fd, data, wr).loops[1].queue;
    acts := ReachQueued(config, fd, data, wr);
    SubBatchEnds(e, q.pending, [RunEstablished(0)]);
    SubPasses(e, q);
    acts := Then(acts, BatchEnds(1), Lone(e, BASE, Loop(q, [], Waiting)));
    acts := Then(acts, PollReturns(1, []), Lone(e, BASE, Loop(q, [], PASS)));
    acts := Then(acts, PassEnds(1), Lone(e, BASE, LastBatch(data, wr)));
  }

  /** The connection destroyed, and after the send that runs behind it. */
  function Destroyed(config: Config, fd: int): Entry {
    Asked(config, fd).(conn := ConnectDestroyed(Asked(config, fd).conn), destroyed := true)
  }

  function Spoken(config: Config, fd: int, data: seq<Byte>, wr: WriteResult): Entry {
    Destroyed(config, fd).(conn := SendInLoop(Destroyed(config, fd).conn, data, wr))
  }

  lemma ReachSpoken(config: Config, fd: int, data: seq<Byte>, wr: WriteResult) returns (acts: seq<Action>)
    ensures Reaches(acts, Lone(Spoken(config, fd, data, wr), BASE, Popped(Popped(LastBatch(data, wr)))))
    ensures AllCourteous(acts)
  {
    var sub := LastBatch(data, wr);
    acts := ReachLastBatch(config, fd, data, wr);
    SubDestroys(Asked(config, fd), BASE, RunLate(0, LateSend(data, wr)));
    SubSends(Destroyed(config, fd), BASE, data, wr, Popped(sub));
    acts := Then(acts, RunOne(1), Lone(Destroyed(config, fd), BASE, Popped(sub)));
    acts := Then(acts, RunOne(1), Lone(Spoken(config, fd, data, wr), BASE, Popped(Popped(sub))));
  }

  lemma SpokenReachesKernel(config: Config, fd: int, data: seq<Byte>, wr: WriteResult)
    requires data != [] && !wr.Fault?
    ensures var c := Spoken(config, fd, data, wr).conn;
            c.wire == Accepted(wr, data) && (c.slot.kernel.Some? <==> |Accepted(wr, data)| < |data|)
  {
    var c := Destroyed(config, fd).conn;
    assert c.state.Disconnecting? && Direct(c) && c.wire == [];
  }

  /**
   Silence after connectDestroyed is not a property of the code. The server's destructor queues
   connectDestroyed, a send() and a shutdown() of another thread follow, and the destroyed connection
   writes to its socket, and on a partial write comes back into the kernel's set.
   */
  lemma DestroyedSpeaks(config: Config, fd: int, data: seq<Byte>, wr: WriteResult) returns (acts: seq<Action>)
    requires data != [] && !wr.Fault?
    ensures Feasible(Startup(1), acts) && forall a <- acts :: Courteous(a)
    ensures var w := Outcome(Startup(1), acts);
            && |w.entries| == 1 && w.entries[0].destroyed && Held(w, 0)
            && w.entries[0].conn.wire == Accepted(wr, data)
            && (|Accepted(wr, data)| < |data| <==> Registered(w, 0))
  {
    acts := ReachSpoken(config, fd, data, wr);
    SpokenReachesKernel(config, fd, data, wr);
    DoneRefers(Spoken(config, fd, data, wr), BASE, Popped(Popped(LastBatch(data, wr))));
  }

  /** The other thread queues its shutdownInLoop and lets go of the connection; nothing else refers to it. */
  lemma UserLeaves(e: Entry)
    requires e.loop == 1 && e.conn.ups > 0 && e.users == Users(true, 0, 0, 1) && !e.inMap
    ensures var sub := IDLE.(queue := IDLE.queue.Push(RunLate(0, LateShutdown)));
            var e' := e.(users := Users(true, 0, 0, 0));
            && Goes(Lone(e, BASE, IDLE), ShutdownPushes(0), Lone(e', BASE, sub))
            && Goes(Lone(e', BASE, sub), UserLets(0), Lone(e.(users := NO_USERS), BASE, sub))
            && !Held(Lone(e.(users := NO_USERS), BASE, sub), 0)
  {
    var sub := IDLE.(queue := IDLE.queue.Push(RunLate(0, LateShutdown)));
    var e' := e.(users := Users(true, 0, 0, 0));
    SubUpdates(e, BASE, IDLE, e', IDLE);
    SubUpdates(e', BASE, IDLE, e', sub);
    SubUpdates(e', BASE, sub, e.(users := NO_USERS), sub);
    assert sub.done + sub.queue.All() == [RunLate(0, LateShutdown)];
  }

  lemma SpokenIsListed(config: Config, fd: int, data: seq<Byte>, wr: WriteResult)
    requires Spoken(config, fd, data, wr).conn.slot.kernel.Some?
    ensures Spoken(config, fd, data, wr).conn.slot.listed
  {
    var c := Destroyed(config, fd).conn;
    assert c.slot.kernel.None? && !c.slot.listed;
  }

  /** The connection has spoken, and nothing refers to it any more. */
  function Forgotten(config: Config, fd: int, data: seq<Byte>, wr: WriteResult): World {
    Lone(Spoken(config, fd, data, wr).(users := NO_USERS), BASE,
         IDLE.(queue := IDLE.queue.Push(RunLate(0, LateShutdown))))
  }

  lemma ReachForgotten(config: Config, fd: int, data: seq<Byte>, wr: WriteResult) returns (acts: seq<Action>)
    ensures Reaches(acts, Forgotten(config, fd, data, wr)) && !Held(Forgotten(config, fd, data, wr), 0)
    ensures AllCourteous(acts)
  {
    var e, sub := Spoken(config, fd, data, wr), IDLE.(queue := IDLE.queue.Push(RunLate(0, LateShutdown)));
    acts := ReachSpoken(config, fd, data, wr);
    assert Popped(Popped(LastBatch(data, wr)))
        == Loop(Queue([], []), [RunDestroyed(0), RunLate(0, LateSend(data, wr))], Batch);
    SubBatchEnds(e, [], [RunDestroyed(0), RunLate(0, LateSend(data, wr))]);
    UserLeaves(e);
    acts := Then(acts, BatchEnds(1), Lone(e, BASE, IDLE));
    acts := Then(acts, ShutdownPushes(0), Lone(e.(users := Users(true, 0, 0, 0)), BASE, sub));
    acts := Then(acts, UserLets(0), Forgotten(config, fd, data, wr));
  }

  /** So the descriptor may be closed while its channel is still in the poller's map. */
  lemma ReleasedWhileListed(config: Config, fd: int, data: seq<Byte>, wr: WriteResult) returns (acts: seq<Action>)
    requires !wr.Fault? && |Accepted(wr, data)| < |data|
    ensures Feasible(Startup(1), acts) && forall a <- acts :: Courteous(a)
    ensures var w := Outcome(Startup(1), acts);
            |w.entries| == 1 && !Held(w, 0) && w.entries[0].conn.slot.listed
  {
    acts := ReachForgotten(config, fd, data, wr);
    SpokenReachesKernel(config, fd, data, wr);
    SpokenIsListed(config, fd, data, wr);
  }

  // ---------------------------------------------------------------------------
  // The second run: the peer closes, and a store is stale

  /** The sub-loop's pass over the connection's channel. */
  function ReadPass(todo: seq<Todo>, guard: Option<nat>, q: seq<Functor>): Loop {
    Loop(Queue(q, []), [], Passing({0}, todo, guard))
  }

  lemma PlanOfRead()
    ensures Plan([(0, {In})]) == [DoRead(0)]
  {
    var report: seq<(nat, Mask)> := [(0, {In})];
    assert In in {In} * READ_EVENT;
    assert Calls(0, {In}) == [] + [DoRead(0)] + [];
    assert report[..0] == [] && Plan(report[..0]) == [];
    assert Plan(report) == [] + Calls(0, {In});
  }

  lemma SubReports(e: Entry)
    requires e.loop == 1 && e.inMap && e.conn.slot.kernel == Some(READ_EVENT)
    ensures Goes(Lone(e, BASE, IDLE), PollReturns(1, [(0, {In})]), Lone(e, BASE, ReadPass([DoRead(0)], None, [])))
  {
    var w, report: seq<(nat, Mask)> := Lone(e, BASE, IDLE), [(0, {In})];
    PlanOfRead();
    assert Reportable(w, 1, 0, {In});
    var active := Result(w, PollReturns(1, report)).loops[1].phase.active;
    assert report[0].0 in active;
    assert active == {0};
    SubUpdates(e, BASE, IDLE, e, ReadPass([DoRead(0)], None, []));
  }

  lemma SubReadsEnd(e: Entry)
    requires e.loop == 1 && e.inMap && e.conn.ups > 0
    ensures Goes(Lone(e, BASE, ReadPass([DoRead(0)], None, [])), MakeCall(1, Got([]), WouldBlock),
                 Lone(e.(conn := HandleClose(e.conn)), BASE, ReadPass([DoNotify(0)], Some(0), [])))
  {
    var p, p' := ReadPass([DoRead(0)], None, []), ReadPass([DoNotify(0)], Some(0), []);
    assert [DoRead(0)][1..] == [] && [DoNotify(0)] + [] == [DoNotify(0)];
    SubUpdates(e, BASE, p, e, p');
    SubUpdates(e, BASE, p', e.(conn := HandleClose(e.conn)), p');
  }

  lemma SubNotifies(e: Entry)
    requires e.loop == 1 && e.inMap && e.conn.ups > 0
    ensures Goes(Lone(e, BASE, ReadPass([DoNotify(0)], Some(0), [])), MakeCall(1, Got([]), WouldBlock),
                 Lone(e, BASE.(queue := Queue([RunRemove(0)], [])), ReadPass([], None, [])))
  {
    var base := BASE.(queue := Queue([RunRemove(0)], []));
    assert [DoNotify(0)][1..] == [] && [] + [RunRemove(0)] == [RunRemove(0)];
    BaseUpdates(e, BASE, ReadPass([DoNotify(0)], Some(0), []), base);
    SubUpdates(e, base, ReadPass([DoNotify(0)], Some(0), []), e, ReadPass([], None, []));
  }

  /** The base loop between its batches. */
  lemma BaseTurns(e: Entry, sub: Loop)
    ensures var q := Queue([RunRemove(0)], []);
            && Goes(Lone(e, BASE.(queue := q), sub), BatchEnds(0), Lone(e, Loop(q, [], Waiting), sub))
            && Goes(Lone(e, Loop(q, [], Waiting), sub), PollReturns(0, []), Lone(e, Loop(q, [], PASS), sub))
            && Goes(Lone(e, Loop(q, [], PASS), sub), PassEnds(0), Lone(e, Loop(q.Swap(), [], Batch), sub))
  {
    var q := Queue([RunRemove(0)], []);
    EmptyReport();
    BaseUpdates(e, BASE.(queue := q), sub, Loop(q, [], Waiting));
    BaseUpdates(e, Loop(q, [], Waiting), sub, Loop(q, [], PASS));
    BaseUpdates(e, Loop(q, [], PASS), sub, Loop(q.Swap(), [], Batch));
  }

  lemma BaseRemoves(e: Entry)
    requires e.loop == 1
    ensures var base := Loop(Queue([], [RunRemove(0)]), [], Batch);
            Goes(Lone(e, base, ReadPass([], None, [])), RunOne(0),
                 Lone(e.(inMap := false), Popped(base), ReadPass([], None, [RunDestroyed(0)])))
  {
    var base := Loop(Queue([], [RunRemove(0)]), [], Batch);
    var p, p' := ReadPass([], None, []), ReadPass([], None, [RunDestroyed(0)]);
    assert [] + [RunDestroyed(0)] == [RunDestroyed(0)];
    SubUpdates(e, base, p, e, p');
    SubUpdates(e, base, p', e.(inMap := false), p');
    BaseUpdates(e.(inMap := false), base, p', Popped(base));
  }

  lemma SubPassEnds(e: Entry, base: Loop, data: seq<Byte>, wr: WriteResult)
    ensures Goes(Lone(e, base, ReadPass([], None, [RunDestroyed(0), RunLate(0, LateSend(data, wr))])), PassEnds(1),
                 Lone(e, base, LastBatch(data, wr)))
  {
    var p := ReadPass([], None, [RunDestroyed(0), RunLate(0, LateSend(data, wr))]);
    SubUpdates(e, base, p, e, LastBatch(data, wr));
  }

  /** The base loop once it has removed the connection. */
  const REMOVED := Loop(Queue([], []), [RunRemove(0)], Batch)

  /** handleClose has run on an end-of-file read. */
  function ClosedEntry(config: Config, fd: int, inMap: bool, users: Users): Entry {
    Entry(HandleClose(ConnectEstablished(Born(config))), fd, 1, inMap, false, users)
  }

  lemma ReachClosed(config: Config, fd: int) returns (acts: seq<Action>)
    ensures Reaches(acts, Lone(ClosedEntry(config, fd, true, Users(true, 1, 1, 0)),
                               BASE.(queue := Queue([RunRemove(0)], [])), ReadPass([], None, [])))
    ensures ServerLives(acts)
  {
    var e := Up(config, fd, Users(true, 1, 1, 0)).entries[0];
    var e' := ClosedEntry(config, fd, true, Users(true, 1, 1, 0));
    acts := ReachChecked(config, fd);
    assert Popped(Loop(Queue([], [RunEstablished(0)]), [], Batch)) == Loop(Queue([], []), [RunEstablished(0)], Batch);
    EstablishedReads(config);
    SubBatchEnds(e, [], [RunEstablished(0)]);
    SubReports(e);
    SubReadsEnd(e);
    SubNotifies(e');
    acts := Then(acts, BatchEnds(1), Lone(e, BASE, IDLE));
    acts := Then(acts, PollReturns(1, [(0, {In})]), Lone(e, BASE, ReadPass([DoRead(0)], None, [])));
    acts := Then(acts, MakeCall(1, Got([]), WouldBlock), Lone(e', BASE, ReadPass([DoNotify(0)], Some(0), [])));
    acts := Then(acts, MakeCall(1, Got([]), WouldBlock),
                 Lone(e', BASE.(queue := Queue([RunRemove(0)], [])), ReadPass([], None, [])));
  }

  lemma EstablishedReads(config: Config)
    ensures ConnectEstablished(Born(config)).slot.kernel == Some(READ_EVENT)
  {
    assert NONE_EVENT + READ_EVENT == READ_EVENT;
  }

  lemma ReachRemoved(config: Config, fd: int) returns (acts: seq<Action>)
    ensures Reaches(acts, Lone(ClosedEntry(config, fd, false, Users(true, 1, 1, 0)), REMOVED,
                               ReadPass([], None, [RunDestroyed(0)])))
    ensures ServerLives(acts)
  {
    var e := ClosedEntry(config, fd, true, Users(true, 1, 1, 0));
    var q, sub := Queue([RunRemove(0)], []), ReadPass([], None, []);
    acts := ReachClosed(config, fd);
    assert Popped(Loop(q.Swap(), [], Batch)) == REMOVED;
    BaseTurns(e, sub);
    BaseRemoves(e);
    acts := Then(acts, BatchEnds(0), Lone(e, Loop(q, [], Waiting), sub));
    acts := Then(acts, PollReturns(0, []), Lone(e, Loop(q, [], PASS), sub));
    acts := Then(acts, PassEnds(0), Lone(e, Loop(q.Swap(), [], Batch), sub));
    acts := Then(acts, RunOne(0), Lone(e.(inMap := false), REMOVED, ReadPass([], None, [RunDestroyed(0)])));
  }

  /** The connection when the sub-loop's last batch has destroyed it: closed, and in kDisconnected. */
  function DestroyedEntry(config: Config, fd: int): Entry {
    var e := ClosedEntry(config, fd, false, Users(true, 0, 1, 0));
    e.(conn := ConnectDestroyed(e.conn), destroyed := true)
  }

  lemma ReachDestroyed(config: Config, fd: int, data: seq<Byte>, wr: WriteResult) returns (acts: seq<Action>)
    ensures Reaches(acts, Lone(DestroyedEntry(config, fd), REMOVED, Popped(LastBatch(data, wr))))
    ensures ServerLives(acts)
  {
    var e := ClosedEntry(config, fd, false, Users(true, 1, 1, 0));
    var e' := e.(users := Users(true, 0, 1, 0));
    var q := [RunDestroyed(0), RunLate(0, LateSend(data, wr))];
    acts := ReachRemoved(config, fd);
    SendFollows(e, REMOVED, ReadPass([], None, [RunDestroyed(0)]), data, wr);
    assert [RunDestroyed(0)] + [RunLate(0, LateSend(data, wr))] == q;
    SubPassEnds(e', REMOVED, data, wr);
    SubDestroys(e', REMOVED, RunLate(0, LateSend(data, wr)));
    acts := Then(acts, SendPushes(0, data, wr), Lone(e', REMOVED, ReadPass([], None, q)));
    acts := Then(acts, PassEnds(1), Lone(e', REMOVED, LastBatch(data, wr)));
    acts := Then(acts, RunOne(1), Lone(DestroyedEntry(config, fd), REMOVED, Popped(LastBatch(data, wr))));
  }

  /** The stale store comes between connectDestroyed and the send. */
  function StaleEntry(config: Config, fd: int): Entry {
    var e := DestroyedEntry(config, fd);
    e.(conn := e.conn.(state := Disconnecting), users := Users(true, 0, 0, 1))
  }

  lemma StaleReachesKernel(config: Config, fd: int, data: seq<Byte>, wr: WriteResult)
    requires data != [] && !wr.Fault?
    ensures DestroyedEntry(config, fd).conn.state.Disconnected?
    ensures var c := SendInLoop(StaleEntry(config, fd).conn, data, wr);
            && c.wire == Accepted(wr, data) && c.closes == 1 && c.downs == 1
            && (c.slot.kernel.Some? <==> |Accepted(wr, data)| < |data|)
  {
    var c := StaleEntry(config, fd).conn;
    assert c.state.Disconnecting? && Direct(c) && c.wire == [] && c.slot.kernel.None? && c.slot.index.New?;
  }

  /**
   Nor does the server's living on ensure it. The peer closes, handleClose, removal and connectDestroyed
   follow as they should, a shutdown() that checked before all this stores its state, and a send() that
   did so too runs on the destroyed connection.
   */
  lemma ClosedSpeaks(config: Config, fd: int, data: seq<Byte>, wr: WriteResult) returns (acts: seq<Action>)
    requires data != [] && !wr.Fault?
    ensures Feasible(Startup(1), acts) && forall a <- acts :: !a.DestroyServerItem?
    ensures var w := Outcome(Startup(1), acts);
            && |w.entries| == 1 && w.entries[0].destroyed && Held(w, 0)
            && w.entries[0].conn.closes == 1 && w.entries[0].conn.wire == Accepted(wr, data)
            && (|Accepted(wr, data)| < |data| <==> Registered(w, 0))
  {
    var sub, e := Popped(LastBatch(data, wr)), StaleEntry(config, fd);
    var e' := e.(conn := SendInLoop(e.conn, data, wr));
    acts := ReachDestroyed(config, fd, data, wr);
    StaleReachesKernel(config, fd, data, wr);
    ShutdownFollows(DestroyedEntry(config, fd), REMOVED, sub);
    SubSends(e, REMOVED, data, wr, sub);
    DoneRefers(e', REMOVED, Popped(sub));
    acts := Then(acts, ShutdownSets(0, true), Lone(e, REMOVED, sub));
    acts := Then(acts, RunOne(1), Lone(e', REMOVED, Popped(sub)));
  }
}
