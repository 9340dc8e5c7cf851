/**
 The ownership invariant of module Server holds in every reachable world: each kind of change keeps
 it, hence each action, hence every run.
 */
module ServerSafety {
  import opened ByteBuffer
  import opened Epoll
  import opened Connection
  import opened LoopMachine
  import opened Server

  /** Events a connection may see after connectEstablished, connectDestroyed apart: in the poller, and out of it. */
  predicate Admissible(e: Entry, ev: ConnEvent) {
    && !ev.Establish? && !ev.Destroy?
    && (e.conn.slot.index.New? ==>
          UserEvent(ev) || ev.ShutdownTake? || ev.ShutdownSet? || ev.LateSend? || ev.LateShutdown?)
  }

  lemma OpKeepsMirror(s: Slot, op: ChannelOp)
    requires Mirror(s)
    ensures Mirror(AfterOp(s, op)) && (AfterOp(s, op).index.New? <==> op.RemoveIt?)
  {
  }

  lemma SendKeepsMirror(c: Conn, data: seq<Byte>, w: WriteResult)
    requires Mirror(c.slot)
    ensures var d := SendInLoop(c, data, w); Mirror(d.slot) && (!c.slot.index.New? ==> !d.slot.index.New?)
  {
    OpKeepsMirror(c.slot, EnableWriting);
  }

  lemma WriteKeepsMirror(c: Conn, w: WriteResult)
    requires Mirror(c.slot)
    ensures var d := HandleWrite(AsWritten, c, w); Mirror(d.slot) && (!c.slot.index.New? ==> !d.slot.index.New?)
  {
    OpKeepsMirror(c.slot, DisableWriting);
  }

  lemma StepKeepsMirror(c: Conn, ev: ConnEvent)
    requires Mirror(c.slot) && !ev.Destroy?
    ensures var d := Step(AsWritten, c, ev); Mirror(d.slot) && (!c.slot.index.New? ==> !d.slot.index.New?)
  {
    match ev
    case Send(data, w) => SendKeepsMirror(c, data, w);
    case LateSend(data, w) => SendKeepsMirror(c, data, w);
    case Write(w) => WriteKeepsMirror(c, w);
    case Establish => OpKeepsMirror(c.slot, EnableReading);
    case _ => OpKeepsMirror(c.slot, DisableAll);
  }

  lemma StepKeepsState(c: Conn, ev: ConnEvent)
    requires !ev.Establish? && !c.state.Connecting?
    ensures var d := Step(AsWritten, c, ev);
            !d.state.Connecting? && (!c.state.Connected? ==> !d.state.Connected?) && d.ups == c.ups
  {
  }

  lemma EventKeepsConnOk(e: Entry, ev: ConnEvent)
    requires ConnOk(e) && e.conn.ups > 0 && Admissible(e, ev)
    ensures ConnOk(e.(conn := Step(AsWritten, e.conn, ev)))
    ensures Step(AsWritten, e.conn, ev).ups == e.conn.ups
    ensures Step(AsWritten, e.conn, ev).slot.index.New? ==> e.conn.slot.index.New?
  {
    StepKeepsMirror(e.conn, ev);
    StepKeepsState(e.conn, ev);
  }

  lemma FewerHeldKeepsFds(w: World, t: World)
    requires FdsOk(w) && |t.entries| == |w.entries|
    requires forall i :: 0 <= i < |w.entries| ==> t.entries[i].fd == w.entries[i].fd && (Held(t, i) ==> Held(w, i))
    ensures FdsOk(t)
  {
  }

  /** An established connection changes; its channel leaves the poller only outside dispatch passes of its loop. */
  lemma ChangeIsSafe(w: World, id: nat, e: Entry)
    requires Safe(w) && Exists(w, id) && ConnOk(e) && e.conn.ups == w.entries[id].conn.ups
    requires e == w.entries[id].(conn := e.conn, destroyed := e.destroyed, users := e.users)
    requires w.entries[id].destroyed ==> e.destroyed
    requires e.conn.slot.index.New? ==> w.entries[id].conn.slot.index.New? || !w.loops[e.loop].phase.Passing?
    requires e.users.keeps ==> Held(w, id)
    ensures Safe(w.(entries := w.entries[id := e]))
  {
    var t := w.(entries := w.entries[id := e]);
    forall i | 0 <= i < |t.entries| ensures EntryOk(t, i) {
      assert EntryOk(w, i);
    }
    forall l | 0 <= l < |t.loops| ensures LoopOk(t, l) {
      assert LoopOk(w, l);
    }
    FewerHeldKeepsFds(w, t);
  }

  lemma TouchIsSafe(w: World, id: nat, ev: ConnEvent)
    requires Safe(w) && Exists(w, id) && Admissible(w.entries[id], ev)
    ensures Safe(Touch(w, id, ev))
  {
    assert EntryOk(w, id);
    EventKeepsConnOk(w.entries[id], ev);
    ChangeIsSafe(w, id, w.entries[id].(conn := Step(AsWritten, w.entries[id].conn, ev)));
  }

  lemma UsersAreSafe(w: World, id: nat, u: Users)
    requires Safe(w) && Exists(w, id) && (u.keeps ==> Held(w, id))
    ensures Safe(SetUsers(w, id, u))
  {
    assert EntryOk(w, id);
    ChangeIsSafe(w, id, w.entries[id].(users := u));
  }

  lemma AllOfPush<F>(q: Queue<F>, f: F)
    ensures q.Push(f).All() == q.All() + [f]
  {
  }

  lemma FirstSurvivesPush(q: seq<Functor>, id: nat, f: Functor)
    requires EstablishedFirst(q, id) && !f.RunEstablished?
    ensures EstablishedFirst(q + [f], id)
  {
    var p :| 0 <= p < |q| && q[p] == RunEstablished(id)
      && (forall k :: 0 <= k < p ==> q[k].id != id)
      && (forall k :: p < k < |q| ==> q[k] != RunEstablished(id));
    assert (q + [f])[p] == RunEstablished(id);
  }

  lemma PostIsSafe(w: World, l: nat, f: Functor)
    requires Safe(w) && l < |w.loops| && Placed(w, l, f) && !f.RunEstablished?
    requires Strong(f) ==> Held(w, f.id)
    ensures Safe(Post(w, l, f))
    ensures f in Post(w, l, f).loops[l].queue.All()
  {
    var t := Post(w, l, f);
    AllOfPush(w.loops[l].queue, f);
    forall i | 0 <= i < |t.entries| ensures EntryOk(t, i) {
      assert EntryOk(w, i);
      if w.entries[i].loop == l && w.entries[i].conn.ups == 0 {
        FirstSurvivesPush(QueueOf(w, i), i, f);
      }
    }
    forall k | 0 <= k < |t.loops| ensures LoopOk(t, k) {
      assert LoopOk(w, k);
    }
    forall i | 0 <= i < |w.entries| && Held(t, i) ensures Held(w, i) {
      if !(Strong(f) && f.id == i) { PostHoldsNoOther(w, l, f, i); }
    }
    FewerHeldKeepsFds(w, t);
  }

  lemma PostHoldsNoOther(w: World, l: nat, f: Functor, i: nat)
    requires l < |w.loops| && i < |w.entries| && Held(Post(w, l, f), i) && !(Strong(f) && f.id == i)
    ensures Held(w, i)
  {
    AllOfPush(w.loops[l].queue, f);
    if Refers(Post(w, l, f).loops[l], i) {
      assert Refers(w.loops[l], i);
    }
  }

  lemma UnmapIsSafe(w: World, id: nat)
    requires Safe(w) && id < |w.entries| && w.entries[id].loop < |w.loops|
    requires w.entries[id].destroyed || RunRemove(id) in w.loops[0].queue.All() || RunDestroyed(id) in QueueOf(w, id)
    ensures Safe(Unmap(w, id))
  {
    var t := Unmap(w, id);
    forall i | 0 <= i < |t.entries| ensures EntryOk(t, i) {
      assert EntryOk(w, i);
    }
    forall l | 0 <= l < |t.loops| ensures LoopOk(t, l) {
      assert LoopOk(w, l);
    }
    FewerHeldKeepsFds(w, t);
  }

  lemma RemoveIsSafe(w: World, id: nat)
    requires Safe(w) && Exists(w, id) && Held(w, id)
    ensures Safe(RemoveConnection(w, id))
    ensures RunDestroyed(id) in QueueOf(RemoveConnection(w, id), id)
  {
    assert EntryOk(w, id);
    PostIsSafe(w, w.entries[id].loop, RunDestroyed(id));
    UnmapIsSafe(Post(w, w.entries[id].loop, RunDestroyed(id)), id);
  }

  /** A loop moves on with the same functors ahead and no new reference. */
  lemma LoopIsSafe(w: World, l: nat, loop: Loop)
    requires Safe(w) && l < |w.loops| && loop.queue.All() == w.loops[l].queue.All()
    requires forall id :: 0 <= id < |w.entries| && Refers(loop, id) ==> Held(w, id)
    requires LoopOk(w.(loops := w.loops[l := loop]), l)
    ensures Safe(w.(loops := w.loops[l := loop]))
  {
    var t := w.(loops := w.loops[l := loop]);
    forall i | 0 <= i < |t.entries| ensures EntryOk(t, i) {
      assert EntryOk(w, i);
    }
    forall k | 0 <= k < |t.loops| ensures LoopOk(t, k) {
      assert LoopOk(w, k);
    }
    FewerHeldKeepsFds(w, t);
  }

  lemma PhaseIsSafe(w: World, l: nat, p: LoopPhase)
    requires Safe(w) && l < |w.loops|
    requires p.Passing? && p.guard.Some? ==> p.guard.value < |w.entries| && Held(w, p.guard.value)
    requires LoopOk(SetPhase(w, l, p), l)
    ensures Safe(SetPhase(w, l, p))
  {
    forall id | 0 <= id < |w.entries| && Refers(w.loops[l].(phase := p), id) ensures Held(w, id) {
      assert (p.Passing? && p.guard == Some(id)) || Refers(w.loops[l], id);
    }
    LoopIsSafe(w, l, w.loops[l].(phase := p));
  }

  lemma SwapIsSafe(w: World, l: nat)
    requires Safe(w) && Allowed(w, PassEnds(l))
    ensures Safe(Result(w, PassEnds(l)))
  {
    var loop := Loop(w.loops[l].queue.Swap(), [], Batch);
    assert LoopOk(w, l);
    assert loop.queue.All() == w.loops[l].queue.All();
    forall id | 0 <= id < |w.entries| && Refers(loop, id) ensures Held(w, id) {
      assert Refers(w.loops[l], id);
    }
    LoopIsSafe(w, l, loop);
  }

  lemma BatchEndIsSafe(w: World, l: nat)
    requires Safe(w) && Allowed(w, BatchEnds(l))
    ensures Safe(Result(w, BatchEnds(l)))
  {
    var loop := Loop(w.loops[l].queue, [], Waiting);
    assert LoopOk(w, l);
    forall id | 0 <= id < |w.entries| && Refers(loop, id) ensures Held(w, id) {
      assert Refers(w.loops[l], id);
    }
    LoopIsSafe(w, l, loop);
  }

  lemma AllOfPop<F>(q: Queue<F>)
    requires q.batch != []
    ensures q.All() == [q.batch[0]] + q.Pop().All()
  {
  }

  lemma FirstSurvivesPop(q: seq<Functor>, id: nat)
    requires q != [] && EstablishedFirst(q, id) && q[0] != RunEstablished(id)
    ensures EstablishedFirst(q[1..], id)
  {
    var p :| 0 <= p < |q| && q[p] == RunEstablished(id)
      && (forall k :: 0 <= k < p ==> q[k].id != id)
      && (forall k :: p < k < |q| ==> q[k] != RunEstablished(id));
    assert q[1..][p - 1] == RunEstablished(id);
    assert forall k :: 0 <= k < p - 1 ==> q[1..][k] == q[k + 1];
    assert forall k :: p - 1 < k < |q| - 1 ==> q[1..][k] == q[k + 1];
  }

  /** The functor's work is done: dropping it from the queue orphans nobody. */
  ghost predicate Spent(w: World, f: Functor)
    requires f.id < |w.entries| && w.entries[f.id].loop < |w.loops|
  {
    match f
    case RunEstablished(_) => false
    case RunRemove(id) => RunDestroyed(id) in QueueOf(w, id)
    case RunDestroyed(id) => w.entries[id].destroyed
    case RunLate(_, _) => true
  }

  /** What has run in a batch still refers to its connection. */
  lemma PoppedRefers(loop: Loop, id: nat)
    requires loop.queue.batch != [] && Refers(Popped(loop), id)
    ensures Refers(loop, id)
  {
    AllOfPop(loop.queue);
    assert Popped(loop).done + Popped(loop).queue.All() == loop.done + loop.queue.All();
  }

  lemma PopHoldsNoOther(w: World, l: nat, i: nat)
    requires l < |w.loops| && w.loops[l].queue.batch != [] && i < |w.entries| && Held(Pop(w, l), i)
    ensures Held(w, i)
  {
    if Refers(Pop(w, l).loops[l], i) {
      PoppedRefers(w.loops[l], i);
    }
  }

  /** Connections the head of the batch is not about do not miss it. */
  lemma OthersSurvivePop(w: World, l: nat, i: nat)
    requires Safe(w) && l < |w.loops| && w.loops[l].queue.batch != [] && i < |w.entries|
    requires w.loops[l].queue.batch[0].id != i
    ensures EntryOk(Pop(w, l), i)
  {
    var t := Pop(w, l);
    var q, q' := w.loops[l].queue.All(), t.loops[l].queue.All();
    AllOfPop(w.loops[l].queue);
    assert q[1..] == q' && q[0] == w.loops[l].queue.batch[0];
    assert EntryOk(w, i);
    if w.entries[i].loop == l && w.entries[i].conn.ups == 0 {
      FirstSurvivesPop(q, i);
    }
    assert !t.entries[i].destroyed ==> Owned(t, i);
  }

  lemma PopIsSafe(w: World, l: nat)
    requires Safe(w) && l < |w.loops| && w.loops[l].queue.batch != []
    requires var f := w.loops[l].queue.batch[0];
             f.id < |w.entries| && w.entries[f.id].loop < |w.loops| && Spent(w, f)
    ensures Safe(Pop(w, l))
  {
    var t, f := Pop(w, l), w.loops[l].queue.batch[0];
    AllOfPop(w.loops[l].queue);
    var q, q' := w.loops[l].queue.All(), t.loops[l].queue.All();
    assert q[1..] == q' && q[0] == f;
    forall i | 0 <= i < |t.entries| ensures EntryOk(t, i) {
      assert EntryOk(w, i);
      if w.entries[i].loop == l && w.entries[i].conn.ups == 0 {
        FirstSurvivesPop(q, i);
      }
      assert !t.entries[i].destroyed ==> Owned(t, i);
    }
    forall k | 0 <= k < |t.loops| ensures LoopOk(t, k) {
      assert LoopOk(w, k);
      assert forall g <- t.loops[k].queue.All() :: g in w.loops[k].queue.All();
    }
    forall i | 0 <= i < |w.entries| && Held(t, i) ensures Held(w, i) {
      PopHoldsNoOther(w, l, i);
    }
    FewerHeldKeepsFds(w, t);
  }

  /** Before connectEstablished no functor about the connection but that one is at the head of its queue. */
  lemma HeadEstablishes(w: World, l: nat)
    requires Safe(w) && l < |w.loops| && w.loops[l].queue.batch != []
    ensures var f := w.loops[l].queue.batch[0];
            && Placed(w, l, f)
            && (w.entries[f.id].conn.ups == 0 && !f.RunRemove? ==> f == RunEstablished(f.id))
            && (f.RunEstablished? ==> w.entries[f.id].conn.ups == 0)
  {
    var f := w.loops[l].queue.batch[0];
    assert LoopOk(w, l);
    assert f == w.loops[l].queue.All()[0];
    assert f in w.loops[l].queue.All();
    assert EntryOk(w, f.id);
  }

  /** connectEstablished runs as the head of its queue. */
  lemma EstablishIsSafe(w: World, l: nat)
    requires Safe(w) && l < |w.loops| && w.loops[l].queue.batch != [] && w.loops[l].queue.batch[0].RunEstablished?
    requires w.loops[l].queue.batch[0].id < |w.entries|
    ensures Safe(Touch(Pop(w, l), w.loops[l].queue.batch[0].id, Establish))
  {
    var id := w.loops[l].queue.batch[0].id;
    HeadEstablishes(w, l);
    assert EntryOk(w, id);
    EstablishedIsOk(w.entries[id]);
    HeadChangeIsSafe(w, l, Step(AsWritten, w.entries[id].conn, Establish));
  }

  lemma EstablishedIsOk(e: Entry)
    requires ConnOk(e) && e.conn.ups == 0
    ensures ConnOk(e.(conn := Step(AsWritten, e.conn, Establish))) && Step(AsWritten, e.conn, Establish).ups > 0
  {
  }

  lemma HeadChangeIsSafe(w: World, l: nat, c: Conn)
    requires Safe(w) && l < |w.loops| && w.loops[l].queue.batch != [] && w.loops[l].queue.batch[0].RunEstablished?
    requires var id := w.loops[l].queue.batch[0].id;
             id < |w.entries| && ConnOk(w.entries[id].(conn := c)) && c.ups > 0 && w.entries[id].conn.ups == 0
    ensures Safe(SetConn(Pop(w, l), w.loops[l].queue.batch[0].id, c))
  {
    var id := w.loops[l].queue.batch[0].id;
    var t := SetConn(Pop(w, l), id, c);
    HeadEstablishes(w, l);
    assert EntryOk(w, id);
    AllOfPop(w.loops[l].queue);
    var q, q' := w.loops[l].queue.All(), t.loops[l].queue.All();
    assert q[1..] == q' && q[0] == RunEstablished(id);
    forall i | 0 <= i < |t.entries| ensures EntryOk(t, i) {
      if i != id {
        OthersSurvivePop(w, l, i);
        assert EntryOk(Pop(w, l), i);
      } else {
        assert !t.entries[i].destroyed ==> Owned(t, i);
      }
    }
    forall k | 0 <= k < |t.loops| ensures LoopOk(t, k) {
      assert LoopOk(w, k);
      assert forall g <- t.loops[k].queue.All() :: g in w.loops[k].queue.All();
    }
    forall i | 0 <= i < |w.entries| && Held(t, i) ensures Held(w, i) {
      assert Held(Pop(w, l), i);
      PopHoldsNoOther(w, l, i);
    }
    FewerHeldKeepsFds(w, t);
  }

  /** connectDestroyed runs while the connection's loop is not in a dispatch pass. */
  lemma DestroyIsSafe(w: World, id: nat)
    requires Safe(w) && Exists(w, id) && !w.loops[w.entries[id].loop].phase.Passing?
    ensures Safe(DestroyConnection(w, id)) && DestroyConnection(w, id).entries[id].destroyed
  {
    assert EntryOk(w, id);
    var e := w.entries[id].(conn := Step(AsWritten, w.entries[id].conn, ConnEvent.Destroy), destroyed := true);
    DestroyKeepsConnOk(w.entries[id]);
    ChangeIsSafe(w, id, e);
    assert DestroyConnection(w, id) == w.(entries := w.entries[id := e]);
  }

  lemma DestroyKeepsConnOk(e: Entry)
    requires ConnOk(e) && e.conn.ups > 0
    ensures ConnOk(e.(conn := Step(AsWritten, e.conn, ConnEvent.Destroy), destroyed := true))
    ensures Step(AsWritten, e.conn, ConnEvent.Destroy).ups == e.conn.ups
  {
  }

  lemma RunIsSafe(w: World, l: nat)
    requires Safe(w) && l < |w.loops| && w.loops[l].queue.batch != []
    requires var id := w.loops[l].queue.batch[0].id; id < |w.entries| && w.entries[id].loop < |w.loops|
    ensures Safe(RunFunctor(w, l))
  {
    var f := w.loops[l].queue.batch[0];
    HeadEstablishes(w, l);
    assert LoopOk(w, l);
    assert f in w.loops[l].queue.All();
    match f
    case RunEstablished(id) => EstablishIsSafe(w, l);
    case RunRemove(id) =>
      assert Held(w, id);
      RemoveIsSafe(w, id);
      PopIsSafe(RemoveConnection(w, id), l);
    case RunDestroyed(id) =>
      DestroyIsSafe(w, id);
      PopIsSafe(DestroyConnection(w, id), l);
    case RunLate(id, e) =>
      TouchIsSafe(w, id, e);
      PopIsSafe(Touch(w, id, e), l);
  }

  lemma PlacementIsALoop(k: nat, numLoops: nat)
    requires numLoops > 0
    ensures Placement(k, numLoops) < numLoops
    ensures Placement(k, numLoops) == 0 <==> numLoops == 1
  {
  }

  lemma EstablishedFirstInPost(q: seq<Functor>, id: nat)
    requires forall f <- q :: f.id < id
    ensures EstablishedFirst(q + [RunEstablished(id)], id)
  {
    assert (q + [RunEstablished(id)])[|q|] == RunEstablished(id);
  }

  lemma FirstSurvivesOtherPost(q: seq<Functor>, id: nat, f: Functor)
    requires EstablishedFirst(q, id) && f.id != id
    ensures EstablishedFirst(q + [f], id)
  {
    var p :| 0 <= p < |q| && q[p] == RunEstablished(id)
      && (forall k :: 0 <= k < p ==> q[k].id != id)
      && (forall k :: p < k < |q| ==> q[k] != RunEstablished(id));
    assert (q + [f])[p] == RunEstablished(id);
  }

  lemma AcceptHoldsNoOther(w: World, fd: int, config: Config, i: nat)
    requires |w.loops| > 0 && i < |w.entries| && Held(Accept(w, fd, config), i)
    ensures Held(w, i)
  {
    var id, l := |w.entries|, Placement(|w.entries|, |w.loops|);
    PlacementIsALoop(id, |w.loops|);
    if l != 0 {
      var t := w.(entries := Accept(w, fd, config).entries);
      assert Accept(w, fd, config) == Post(t, l, RunEstablished(id));
      PostHoldsNoOther(t, l, RunEstablished(id), i);
    }
  }

  lemma AcceptKeepsFds(w: World, fd: int, config: Config)
    requires FdsOk(w) && Allowed(w, DoAccept(fd, config))
    ensures FdsOk(Accept(w, fd, config))
  {
    var t := Accept(w, fd, config);
    forall i, j | 0 <= i < j < |t.entries| && Held(t, i) && Held(t, j) ensures t.entries[i].fd != t.entries[j].fd {
      AcceptHoldsNoOther(w, fd, config, i);
      if j < |w.entries| { AcceptHoldsNoOther(w, fd, config, j); }
    }
  }

  lemma AcceptKeepsLoops(w: World, fd: int, config: Config, k: nat)
    requires Safe(w) && k < |w.loops|
    ensures k < |Accept(w, fd, config).loops| && LoopOk(Accept(w, fd, config), k)
  {
    var id, l := |w.entries|, Placement(|w.entries|, |w.loops|);
    PlacementIsALoop(id, |w.loops|);
    assert LoopOk(w, k);
    AllOfPush(w.loops[l].queue, RunEstablished(id));
  }

  lemma AcceptKeepsEntry(w: World, fd: int, config: Config, i: nat)
    requires Safe(w) && i < |w.entries|
    ensures EntryOk(Accept(w, fd, config), i)
  {
    var id, l := |w.entries|, Placement(|w.entries|, |w.loops|);
    PlacementIsALoop(id, |w.loops|);
    AllOfPush(w.loops[l].queue, RunEstablished(id));
    assert EntryOk(w, i);
    if w.entries[i].loop == l && w.entries[i].conn.ups == 0 && l != 0 {
      FirstSurvivesOtherPost(QueueOf(w, i), i, RunEstablished(id));
    }
  }

  lemma AcceptedIsOk(w: World, fd: int, config: Config)
    requires Safe(w)
    ensures EntryOk(Accept(w, fd, config), |w.entries|)
  {
    var id, l := |w.entries|, Placement(|w.entries|, |w.loops|);
    PlacementIsALoop(id, |w.loops|);
    AllOfPush(w.loops[l].queue, RunEstablished(id));
    assert LoopOk(w, l);
    EstablishedFirstInPost(w.loops[l].queue.All(), id);
  }

  lemma AcceptIsSafe(w: World, fd: int, config: Config)
    requires Safe(w) && Allowed(w, DoAccept(fd, config))
    ensures Safe(Accept(w, fd, config))
  {
    var t := Accept(w, fd, config);
    forall k | 0 <= k < |t.loops| ensures LoopOk(t, k) {
      AcceptKeepsLoops(w, fd, config, k);
    }
    forall i | 0 <= i < |t.entries| ensures EntryOk(t, i) {
      if i < |w.entries| { AcceptKeepsEntry(w, fd, config, i); } else { AcceptedIsOk(w, fd, config); }
    }
    AcceptKeepsFds(w, fd, config);
  }

  lemma {:induction false} PlanNamesTheReported(report: seq<(nat, Mask)>)
    ensures forall t <- Plan(report) :: exists i :: 0 <= i < |report| && report[i].0 == t.id
  {
    if report != [] {
      var init, last := report[..|report| - 1], report[|report| - 1];
      PlanNamesTheReported(init);
      forall t | t in Plan(report) ensures exists i :: 0 <= i < |report| && report[i].0 == t.id {
        if t in Plan(init) {
          var i :| 0 <= i < |init| && init[i].0 == t.id;
          assert report[i].0 == t.id;
        } else {
          assert t in Calls(last.0, last.1);
          assert report[|report| - 1].0 == t.id;
        }
      }
    }
  }

  lemma PollIsSafe(w: World, l: nat, report: seq<(nat, Mask)>)
    requires Safe(w) && Allowed(w, PollReturns(l, report))
    ensures Safe(Result(w, PollReturns(l, report)))
  {
    PlanNamesTheReported(report);
    assert LoopOk(w, l);
    var p := Passing(set i | 0 <= i < |report| :: report[i].0, Plan(report), None);
    forall id | id in p.active ensures ActiveOk(SetPhase(w, l, p), l, id) {
      var i :| 0 <= i < |report| && report[i].0 == id;
      assert Reportable(w, l, report[i].0, report[i].1);
      assert EntryOk(w, id);
    }
    PhaseIsSafe(w, l, p);
  }

  /** removeConnection, called under the guard of the dispatch. */
  lemma NotifyIsSafe(w: World, l: nat)
    requires Safe(w) && Allowed(w, MakeCall(l, Failed, WouldBlock)) && w.loops[l].phase.todo[0].DoNotify?
    ensures Safe(Call(w, l, Failed, WouldBlock))
  {
    var id := w.loops[l].phase.todo[0].id;
    var t := if l == 0 then RemoveConnection(w, id) else Post(w, 0, RunRemove(id));
    assert LoopOk(w, l) && w.loops[l].phase.todo[0] in w.loops[l].phase.todo && ActiveOk(w, l, id);
    if l == 0 { RemoveIsSafe(w, id); } else { PostIsSafe(w, 0, RunRemove(id)); }
    assert LoopOk(t, l);
    NotifiedIsHeld(t, id);
    PhaseIsSafe(t, l, PassAfter(w.loops[l].phase.active, w.loops[l].phase.todo[1..], id));
  }

  lemma NotifiedIsHeld(w: World, id: nat)
    requires id < |w.entries| && |w.loops| > 0
    requires RunRemove(id) in w.loops[0].queue.All() || RunDestroyed(id) in w.loops[0].queue.All()
    ensures Held(w, id)
  {
    assert Refers(w.loops[0], id);
  }

  lemma CallIsSafe(w: World, l: nat, r: ReadResult, wr: WriteResult)
    requires Safe(w) && Allowed(w, MakeCall(l, r, wr))
    ensures Safe(Call(w, l, r, wr))
  {
    var todo, active := w.loops[l].phase.todo, w.loops[l].phase.active;
    var id := todo[0].id;
    assert LoopOk(w, l);
    assert todo[0] in todo && ActiveOk(w, l, id);
    if todo[0].DoNotify? {
      NotifyIsSafe(w, l);
    } else {
      var notifies := todo[0].DoClose? || (todo[0].DoRead? && r == Got([]));
      var p := PassAfter(active, (if notifies then [DoNotify(id)] else []) + todo[1..], id);
      assert [] + todo[1..] == todo[1..];
      PhaseIsSafe(w, l, p);
      TouchIsSafe(SetPhase(w, l, p), id,
                  if todo[0].DoClose? then Close else if todo[0].DoRead? then Read(r) else Write(wr));
    }
  }

  lemma OwnedIsHeld(w: World, id: nat)
    requires |w.loops| > 0 && id < |w.entries| && w.entries[id].loop < |w.loops| && Owned(w, id)
    ensures Held(w, id)
  {
    assert RunRemove(id) in w.loops[0].queue.All() ==> Held(w, id);
    assert RunDestroyed(id) in w.loops[w.entries[id].loop].queue.All() ==> Held(w, id);
  }

  /** The destructor's treatment of one map entry. */
  lemma ServerItemIsSafe(w: World, id: nat)
    requires Safe(w) && Allowed(w, DestroyServerItem(id))
    ensures Safe(Result(w, DestroyServerItem(id)))
  {
    var l := w.entries[id].loop;
    assert EntryOk(w, id);
    if l == 0 {
      DestroyIsSafe(w, id);
      UnmapIsSafe(DestroyConnection(w, id), id);
    } else {
      PostIsSafe(w, l, RunDestroyed(id));
      UnmapIsSafe(Post(w, l, RunDestroyed(id)), id);
    }
  }

  lemma ActionIsSafe(w: World, a: Action)
    requires Safe(w) && Allowed(w, a)
    ensures Safe(Result(w, a))
  {
    match a
    case DoAccept(fd, config) => AcceptIsSafe(w, fd, config);
    case PollReturns(l, report) => PollIsSafe(w, l, report);
    case MakeCall(l, r, wr) => CallIsSafe(w, l, r, wr);
    case PassEnds(l) => SwapIsSafe(w, l);
    case RunOne(l) => RunIsSafe(w, l);
    case BatchEnds(l) => BatchEndIsSafe(w, l);
    case UserCalls(_, id, e) => TouchIsSafe(w, id, e);
    case DestroyServerItem(id) => ServerItemIsSafe(w, id);
    case _ => OffLoopIsSafe(w, a);
  }

  lemma PushIsSafe(w: World, id: nat, u: Users, e: ConnEvent)
    requires Safe(w) && OffLoop(w, id) && (e.LateSend? || e.LateShutdown?)
    ensures Safe(Post(SetUsers(w, id, u), w.entries[id].loop, RunLate(id, e)))
  {
    UsersAreSafe(w, id, u);
    PostIsSafe(SetUsers(w, id, u), w.entries[id].loop, RunLate(id, e));
  }

  lemma OffLoopIsSafe(w: World, a: Action)
    requires Safe(w) && Allowed(w, a) && IsOffLoop(a)
    ensures Safe(Result(w, a))
  {
    var id, u := a.id, w.entries[a.id].users;
    match a
    case UserKeeps(_) => UsersAreSafe(w, id, u.(keeps := true));
    case UserLets(_) => UsersAreSafe(w, id, u.(keeps := false));
    case SendChecks(_) => UsersAreSafe(w, id, u.(sending := u.sending + 1));
    case SendPushes(_, data, wr) => PushIsSafe(w, id, u.(sending := u.sending - 1), LateSend(data, wr));
    case ShutdownChecks(_) => UsersAreSafe(w, id, u.(asking := u.asking + 1));
    case ShutdownSets(_, stale) =>
      var u' := u.(asking := u.asking - 1, storing := u.storing + 1);
      UsersAreSafe(w, id, u');
      TouchIsSafe(SetUsers(w, id, u'), id, if stale then ShutdownSet else ShutdownTake);
    case ShutdownPushes(_) => PushIsSafe(w, id, u.(storing := u.storing - 1), LateShutdown);
  }

  // ---------------------------------------------------------------------------
  // What an action does to one connection

  /** The event the action is for this connection, if it is one. */
  ghost function EventOn(w: World, a: Action, id: nat): Option<ConnEvent>
    requires Allowed(w, a)
  {
    match a
    case MakeCall(l, r, wr) =>
      var t := w.loops[l].phase.todo[0];
      if t.id == id then CallbackEvent(t, r, wr) else None
    case RunOne(l) => if w.loops[l].queue.batch[0].id == id then FunctorEvent(w.loops[l].queue.batch[0]) else None
    case UserCalls(_, i, e) => if i == id then Some(e) else None
    case ShutdownSets(i, stale) => if i == id then Some(if stale then ShutdownSet else ShutdownTake) else None
    case DestroyServerItem(i) => if i == id && w.entries[i].loop == 0 then Some(ConnEvent.Destroy) else None
    case _ => None
  }

  function CallbackEvent(t: Todo, r: ReadResult, wr: WriteResult): Option<ConnEvent> {
    match t
    case DoClose(_) => Some(Close)
    case DoRead(_) => Some(Read(r))
    case DoWrite(_) => Some(Write(wr))
    case DoNotify(_) => None
  }

  function FunctorEvent(f: Functor): Option<ConnEvent> {
    match f
    case RunEstablished(_) => Some(Establish)
    case RunRemove(_) => None
    case RunDestroyed(_) => Some(ConnEvent.Destroy)
    case RunLate(_, e) => Some(e)
  }

  lemma NoEventOnStrangers(w: World, a: Action, id: nat)
    requires Allowed(w, a) && |w.entries| <= id
    ensures EventOn(w, a, id).None?
  {
  }

  /** `f` is `e` after this event, or after none. */
  predicate Follows(e: Entry, f: Entry, ev: Option<ConnEvent>) {
    && f.conn == (if ev.None? then e.conn else Step(AsWritten, e.conn, ev.value))
    && f.fd == e.fd && f.loop == e.loop
    && (f.destroyed <==> e.destroyed || ev == Some(ConnEvent.Destroy))
  }

  lemma OffLoopFollows(w: World, a: Action, id: nat)
    requires Allowed(w, a) && IsOffLoop(a) && id < |w.entries|
    ensures |OffLoopResult(w, a).entries| == |w.entries|
    ensures Follows(w.entries[id], OffLoopResult(w, a).entries[id], EventOn(w, a, id))
  {
  }

  lemma RestFollows(w: World, a: Action, id: nat)
    requires Allowed(w, a) && !IsOffLoop(a) && !a.MakeCall? && !a.RunOne? && id < |w.entries|
    ensures |Result(w, a).entries| >= |w.entries|
    ensures Follows(w.entries[id], Result(w, a).entries[id], EventOn(w, a, id))
  {
  }

  lemma CallFollows(w: World, l: nat, r: ReadResult, wr: WriteResult, id: nat)
    requires Allowed(w, MakeCall(l, r, wr)) && id < |w.entries|
    ensures |Call(w, l, r, wr).entries| == |w.entries|
    ensures Follows(w.entries[id], Call(w, l, r, wr).entries[id], EventOn(w, MakeCall(l, r, wr), id))
  {
  }

  lemma RunFollows(w: World, l: nat, id: nat)
    requires Safe(w) && Allowed(w, RunOne(l)) && id < |w.entries|
    ensures |RunFunctor(w, l).entries| == |w.entries|
    ensures Follows(w.entries[id], RunFunctor(w, l).entries[id], EventOn(w, RunOne(l), id))
  {
    HeadEstablishes(w, l);
  }

  lemma ActionFollows(w: World, a: Action, id: nat)
    requires Safe(w) && Allowed(w, a) && id < |w.entries|
    ensures |Result(w, a).entries| >= |w.entries|
    ensures Follows(w.entries[id], Result(w, a).entries[id], EventOn(w, a, id))
  {
    if a.MakeCall? {
      CallFollows(w, a.l, a.r, a.wr, id);
    } else if a.RunOne? {
      RunFollows(w, a.l, id);
    } else if IsOffLoop(a) {
      OffLoopFollows(w, a, id);
    } else {
      RestFollows(w, a, id);
    }
  }

  /** The event comes to the connection when it may. */
  predicate Fits(e: Entry, ev: ConnEvent) {
    if ev.Establish? then e.conn.ups == 0 else e.conn.ups > 0 && (ev.Destroy? || Admissible(e, ev))
  }

  /** Reading, writing and hanging up happen in dispatch; the stale store is other threads'. */
  predicate ComesFrom(a: Action, ev: ConnEvent) {
    && (ev.Close? || ev.Read? || ev.Write? ==> a.MakeCall?)
    && (ev.ShutdownSet? ==> a.ShutdownSets? && a.stale)
  }

  /** connectDestroyed runs in a batch of the connection's loop, or in the server's destructor outside dispatch. */
  ghost predicate DestroysOutsideDispatch(w: World, a: Action, id: nat)
    requires id < |w.entries|
  {
    var l := w.entries[id].loop;
    && l < |w.loops| && !w.loops[l].phase.Passing?
    && ((a == RunOne(l) && w.loops[l].phase.Batch?) || (a == DestroyServerItem(id) && l == 0))
  }

  lemma EventFits(w: World, a: Action, id: nat)
    requires Safe(w) && Allowed(w, a) && EventOn(w, a, id).Some? && id < |w.entries|
    ensures Fits(w.entries[id], EventOn(w, a, id).value) && ComesFrom(a, EventOn(w, a, id).value)
    ensures EventOn(w, a, id).value.Destroy? ==> DestroysOutsideDispatch(w, a, id)
  {
    assert EntryOk(w, id);
    match a
    case MakeCall(l, r, wr) =>
      assert LoopOk(w, l) && w.loops[l].phase.todo[0] in w.loops[l].phase.todo && ActiveOk(w, l, id);
    case RunOne(l) =>
      HeadEstablishes(w, l);
      assert LoopOk(w, l);
    case _ =>
  }

  lemma NotifyBringsNothing(id: nat, rest: seq<Todo>, r: ReadResult, wr: WriteResult)
    ensures EventsOf([DoNotify(id)] + rest, r, wr) == EventsOf(rest, r, wr)
  {
    assert ([DoNotify(id)] + rest)[1..] == rest;
    assert [] + EventsOf(rest, r, wr) == EventsOf(rest, r, wr);
  }

  lemma CallLeavesTodo(w: World, l: nat, r: ReadResult, wr: WriteResult)
    requires Allowed(w, MakeCall(l, r, wr))
    ensures l < |Call(w, l, r, wr).loops| && Call(w, l, r, wr).loops[l].phase.Passing?
    ensures var todo, ev := w.loops[l].phase.todo, EventOn(w, MakeCall(l, r, wr), w.loops[l].phase.todo[0].id);
            Call(w, l, r, wr).loops[l].phase.todo
            == (if ev.Some? && (ev.value.Close? || ev.value == Read(Got([]))) then [DoNotify(todo[0].id)] else [])
               + todo[1..]
  {
    var todo := w.loops[l].phase.todo;
    assert [] + todo[1..] == todo[1..];
  }

  /**
   A pass makes the callbacks it planned: each brings its connection the next event of the plan, for
   whatever the kernel answers, and leaves the rest of it, with the close callback first after a
   handleClose.
   */
  lemma PassMakesItsCalls(w: World, l: nat, r: ReadResult, wr: WriteResult)
    requires Allowed(w, MakeCall(l, r, wr))
    ensures l < |Result(w, MakeCall(l, r, wr)).loops| && Result(w, MakeCall(l, r, wr)).loops[l].phase.Passing?
    ensures var todo, todo' := w.loops[l].phase.todo, Result(w, MakeCall(l, r, wr)).loops[l].phase.todo;
            var id := todo[0].id;
            var ev := EventOn(w, MakeCall(l, r, wr), id);
            && EventsOf(todo, r, wr) == (if ev.Some? then [ev.value] else []) + EventsOf(todo', r, wr)
            && todo' == (if ev.Some? && (ev.value.Close? || ev.value == Read(Got([]))) then [DoNotify(id)] else [])
                        + todo[1..]
  {
    var todo := w.loops[l].phase.todo;
    CallLeavesTodo(w, l, r, wr);
    NotifyBringsNothing(todo[0].id, todo[1..], r, wr);
    assert [] + todo[1..] == todo[1..];
  }

  /** handleEvent's guard: between two callbacks of one channel its connection is referenced, whatever users drop. */
  lemma GuardOutlivesTheCallback(w: World, l: nat, r: ReadResult, wr: WriteResult)
    requires Allowed(w, MakeCall(l, r, wr))
    ensures var t, id := Result(w, MakeCall(l, r, wr)), w.loops[l].phase.todo[0].id;
            && l < |t.loops| && t.loops[l].phase.Passing? && id < |t.entries|
            && (t.loops[l].phase.todo != [] && t.loops[l].phase.todo[0].id == id ==>
                  Held(t.(entries := t.entries[id := t.entries[id].(inMap := false, users := NO_USERS)]), id))
  {
    var t, id := Result(w, MakeCall(l, r, wr)), w.loops[l].phase.todo[0].id;
    if t.loops[l].phase.todo != [] && t.loops[l].phase.todo[0].id == id {
      assert Refers(t.loops[l], id);
    }
  }

  // ---------------------------------------------------------------------------
  // Whole runs

  ghost predicate Feasible(w: World, acts: seq<Action>)
    decreases |acts|
  {
    acts == [] || (Allowed(w, acts[0]) && Feasible(Result(w, acts[0]), acts[1..]))
  }

  ghost function Outcome(w: World, acts: seq<Action>): World
    requires Feasible(w, acts)
    decreases |acts|
  {
    if acts == [] then w else Outcome(Result(w, acts[0]), acts[1..])
  }

  lemma {:induction false} FeasibleSnoc(w: World, acts: seq<Action>, a: Action)
    requires Feasible(w, acts) && Allowed(Outcome(w, acts), a)
    ensures Feasible(w, acts + [a]) && Outcome(w, acts + [a]) == Result(Outcome(w, acts), a)
    decreases |acts|
  {
    if acts == [] {
      assert acts + [a] == [a];
      assert Feasible(Result(w, a), [a][1..]);
    } else {
      assert (acts + [a])[1..] == acts[1..] + [a];
      FeasibleSnoc(Result(w, acts[0]), acts[1..], a);
    }
  }

  /** A started server: a base loop and the sub-loops of its pool, no connection yet. */
  function Startup(numThreads: nat): World {
    World([], seq(1 + numThreads, _ => Loop(Queue([], []), [], Waiting)))
  }

  lemma StartupIsSafe(numThreads: nat)
    ensures Safe(Startup(numThreads))
  {
  }

  lemma {:induction false} RunsAreSafe(w: World, acts: seq<Action>)
    requires Safe(w) && Feasible(w, acts)
    ensures Safe(Outcome(w, acts))
    decreases |acts|
  {
    if acts != [] {
      ActionIsSafe(w, acts[0]);
      RunsAreSafe(Result(w, acts[0]), acts[1..]);
    }
  }

  lemma EntriesOnlyGrow(w: World, a: Action)
    requires Allowed(w, a)
    ensures |Result(w, a).entries| >= |w.entries|
  {
  }

  lemma {:induction false} LoopsStay(w: World, acts: seq<Action>)
    requires Feasible(w, acts)
    ensures |Outcome(w, acts).loops| == |w.loops|
    decreases |acts|
  {
    if acts != [] {
      LoopsStay(Result(w, acts[0]), acts[1..]);
    }
  }
}
