/**
 The ordinary end of a connection, the server living on: handleClose comes first, then the removal
 from connections_, then connectDestroyed, and nothing brings the connection back.
 */
module ServerClosing {
  import opened ByteBuffer
  import opened Epoll
  import opened Connection
  import opened LoopMachine
  import opened Server
  import opened ServerSafety
  import opened ServerOwnership
  import opened ServerCallbacks

  predicate HasClosed(w: World, id: nat) {
    id < |w.entries| && w.entries[id].conn.closes > 0
  }

  ghost predicate QueueAfterClose(w: World, q: seq<Functor>) {
    forall f <- q :: f.RunRemove? || f.RunDestroyed? ==> HasClosed(w, f.id)
  }

  /** Removal is under way only for connections whose handleClose has run. */
  ghost predicate EndsAfterClose(w: World) {
    && Safe(w)
    && (forall l :: 0 <= l < |w.loops| ==> QueueAfterClose(w, w.loops[l].queue.All()))
    && (forall l, t :: 0 <= l < |w.loops| && w.loops[l].phase.Passing? && t in w.loops[l].phase.todo && t.DoNotify? ==>
          HasClosed(w, t.id))
    && (forall id :: 0 <= id < |w.entries| && (w.entries[id].destroyed || !w.entries[id].inMap) ==> HasClosed(w, id))
  }

  lemma ClosesOnlyGrow(w: World, a: Action, id: nat)
    requires Safe(w) && Allowed(w, a) && HasClosed(w, id)
    ensures HasClosed(Result(w, a), id)
  {
    ActionCloses(w, a, id);
  }

  lemma PostAddsOne(q: Queue<Functor>, w: World, f: Functor)
    requires QueueAfterClose(w, q.All()) && (f.RunRemove? || f.RunDestroyed? ==> HasClosed(w, f.id))
    ensures QueueAfterClose(w, q.Push(f).All())
  {
    AllOfPush(q, f);
  }

  lemma PopAddsNone(q: Queue<Functor>, w: World)
    requires QueueAfterClose(w, q.All()) && q.batch != []
    ensures QueueAfterClose(w, q.Pop().All())
  {
    AllOfPop(q);
  }

  lemma CallQueuesAfterClose(w: World, l: nat, r: ReadResult, wr: WriteResult, k: nat)
    requires EndsAfterClose(w) && Allowed(w, MakeCall(l, r, wr)) && k < |w.loops|
    ensures QueueAfterClose(w, Call(w, l, r, wr).loops[k].queue.All())
  {
    var head := w.loops[l].phase.todo[0];
    assert head in w.loops[l].phase.todo;
    if head.DoNotify? {
      PostAddsOne(w.loops[k].queue, w, if l == 0 then RunDestroyed(head.id) else RunRemove(head.id));
    }
  }

  lemma RunQueuesAfterClose(w: World, l: nat, k: nat)
    requires EndsAfterClose(w) && Allowed(w, RunOne(l)) && k < |w.loops|
    ensures QueueAfterClose(w, RunFunctor(w, l).loops[k].queue.All())
  {
    var head := w.loops[l].queue.batch[0];
    assert head in w.loops[l].queue.All() && QueueAfterClose(w, w.loops[l].queue.All());
    var q := w.loops[k].queue;
    if head.RunRemove? {
      var q' := if w.entries[head.id].loop == k then q.Push(RunDestroyed(head.id)) else q;
      PostAddsOne(q, w, RunDestroyed(head.id));
      if k == l { PopAddsNone(q', w); }
    } else if k == l {
      PopAddsNone(q, w);
    }
  }

  lemma QueuesAfterClose(w: World, a: Action, l: nat)
    requires EndsAfterClose(w) && Allowed(w, a) && !a.DestroyServerItem? && l < |w.loops| == |Result(w, a).loops|
    ensures QueueAfterClose(w, Result(w, a).loops[l].queue.All())
  {
    match a
    case MakeCall(k, r, wr) => CallQueuesAfterClose(w, k, r, wr, l);
    case RunOne(k) => RunQueuesAfterClose(w, k, l);
    case _ =>
  }

  lemma CallNotifiesAfterClose(w: World, l: nat, r: ReadResult, wr: WriteResult, u: Todo)
    requires EndsAfterClose(w) && Allowed(w, MakeCall(l, r, wr))
    requires Call(w, l, r, wr).loops[l].phase.Passing?
    requires u in Call(w, l, r, wr).loops[l].phase.todo && u.DoNotify?
    ensures HasClosed(Call(w, l, r, wr), u.id)
  {
    assert Result(w, MakeCall(l, r, wr)) == Call(w, l, r, wr);
    var todo := w.loops[l].phase.todo;
    if u in todo {
      ClosesOnlyGrow(w, MakeCall(l, r, wr), u.id);
    } else {
      assert Closing(todo[0]) && u.id == todo[0].id;
      ActionCloses(w, MakeCall(l, r, wr), u.id);
    }
  }

  lemma NotifiesAfterClose(w: World, a: Action, l: nat, u: Todo)
    requires EndsAfterClose(w) && Allowed(w, a) && l < |w.loops| == |Result(w, a).loops|
    requires Result(w, a).loops[l].phase.Passing? && u in Result(w, a).loops[l].phase.todo && u.DoNotify?
    ensures HasClosed(Result(w, a), u.id)
  {
    if a.MakeCall? && a.l == l {
      CallNotifiesAfterClose(w, l, a.r, a.wr, u);
    } else if a.PollReturns? && a.l == l {
      PlanHasNoNotify(a.report);
    } else {
      OtherActionsKeepPass(w, a, l);
      ClosesOnlyGrow(w, a, u.id);
    }
  }

  lemma {:induction false} PlanHasNoNotify(report: seq<(nat, Mask)>)
    ensures forall t <- Plan(report) :: !t.DoNotify?
  {
    if report != [] {
      PlanHasNoNotify(report[..|report| - 1]);
    }
  }

  /** The action takes the connection out of the map, or runs its connectDestroyed. */
  ghost predicate EndsIt(w: World, a: Action, id: nat) {
    match a
    case MakeCall(l, _, _) =>
      l < |w.loops| && w.loops[l].phase.Passing? && DoNotify(id) in w.loops[l].phase.todo
    case RunOne(l) =>
      l < |w.loops| && (RunRemove(id) in w.loops[l].queue.All() || RunDestroyed(id) in w.loops[l].queue.All())
    case _ => false
  }

  predicate SameEnding(e: Entry, f: Entry) {
    e.inMap == f.inMap && e.destroyed == f.destroyed
  }

  lemma CallEnds(w: World, l: nat, r: ReadResult, wr: WriteResult, id: nat)
    requires Allowed(w, MakeCall(l, r, wr)) && id < |w.entries|
    ensures |Call(w, l, r, wr).entries| == |w.entries|
    ensures SameEnding(w.entries[id], Call(w, l, r, wr).entries[id]) || DoNotify(id) in w.loops[l].phase.todo
  {
    assert w.loops[l].phase.todo[0] in w.loops[l].phase.todo;
  }

  lemma RunEnds(w: World, l: nat, id: nat)
    requires Allowed(w, RunOne(l)) && id < |w.entries|
    ensures |RunFunctor(w, l).entries| == |w.entries|
    ensures SameEnding(w.entries[id], RunFunctor(w, l).entries[id]) || EndsIt(w, RunOne(l), id)
  {
    assert w.loops[l].queue.batch[0] in w.loops[l].queue.All();
  }

  lemma OnlyEndingsEnd(w: World, a: Action, id: nat)
    requires Allowed(w, a) && !a.DestroyServerItem? && id < |w.entries| && id < |Result(w, a).entries|
    ensures SameEnding(w.entries[id], Result(w, a).entries[id]) || EndsIt(w, a, id)
  {
    match a
    case MakeCall(l, r, wr) => CallEnds(w, l, r, wr, id);
    case RunOne(l) => RunEnds(w, l, id);
    case _ =>
  }

  lemma EndingIsAfterClose(w: World, a: Action, id: nat)
    requires EndsAfterClose(w) && EndsIt(w, a, id)
    ensures HasClosed(w, id)
  {
    if a.RunOne? { assert QueueAfterClose(w, w.loops[a.l].queue.All()); }
  }

  lemma EntriesEndAfterClose(w: World, a: Action, id: nat)
    requires EndsAfterClose(w) && Allowed(w, a) && !a.DestroyServerItem? && id < |w.entries| <= |Result(w, a).entries|
    requires Result(w, a).entries[id].destroyed || !Result(w, a).entries[id].inMap
    ensures HasClosed(Result(w, a), id)
  {
    if w.entries[id].inMap && !w.entries[id].destroyed {
      OnlyEndingsEnd(w, a, id);
      EndingIsAfterClose(w, a, id);
    }
    ClosesOnlyGrow(w, a, id);
  }

  lemma ActionEndsAfterClose(w: World, a: Action)
    requires EndsAfterClose(w) && Allowed(w, a) && !a.DestroyServerItem?
    ensures EndsAfterClose(Result(w, a))
  {
    var t := Result(w, a);
    ActionIsSafe(w, a);
    LoopsStay(w, [a]);
    EntriesOnlyGrow(w, a);
    forall l | 0 <= l < |t.loops| ensures QueueAfterClose(t, t.loops[l].queue.All()) {
      QueuesAfterClose(w, a, l);
      forall f | f in t.loops[l].queue.All() && (f.RunRemove? || f.RunDestroyed?) ensures HasClosed(t, f.id) {
        ClosesOnlyGrow(w, a, f.id);
      }
    }
    forall l, u | 0 <= l < |t.loops| && t.loops[l].phase.Passing? && u in t.loops[l].phase.todo && u.DoNotify?
      ensures HasClosed(t, u.id)
    {
      NotifiesAfterClose(w, a, l, u);
    }
    forall id | 0 <= id < |t.entries| && (t.entries[id].destroyed || !t.entries[id].inMap) ensures HasClosed(t, id) {
      if id < |w.entries| { EntriesEndAfterClose(w, a, id); }
    }
  }

  lemma {:induction false} RunsEndAfterClose(w: World, acts: seq<Action>)
    requires EndsAfterClose(w) && Feasible(w, acts) && forall a <- acts :: !a.DestroyServerItem?
    ensures EndsAfterClose(Outcome(w, acts))
    decreases |acts|
  {
    if acts != [] {
      ActionEndsAfterClose(w, acts[0]);
      RunsEndAfterClose(Result(w, acts[0]), acts[1..]);
    }
  }

  /** Closed, and not taken back to kDisconnecting since. */
  predicate ClosedIsDisconnected(w: World, id: nat) {
    HasClosed(w, id) ==> w.entries[id].conn.state.Disconnected? && w.entries[id].conn.ups > 0
  }

  lemma EventKeepsDisconnected(c: Conn, e: ConnEvent)
    requires !e.Establish? && !e.ShutdownSet? && (c.state.Disconnected? || ClosingEvent(e))
    ensures Step(AsWritten, c, e).state.Disconnected? && Step(AsWritten, c, e).ups == c.ups
  {
  }

  lemma ActionKeepsDisconnected(w: World, a: Action, id: nat)
    requires Safe(w) && Allowed(w, a) && ClosedIsDisconnected(w, id) && a != ShutdownSets(id, true)
    ensures ClosedIsDisconnected(Result(w, a), id)
  {
    if id < |w.entries| {
      var ev := EventOn(w, a, id);
      ActionFollows(w, a, id);
      ActionCloses(w, a, id);
      if ev.Some? {
        EventFits(w, a, id);
        if HasClosed(w, id) || ClosingEvent(ev.value) { EventKeepsDisconnected(w.entries[id].conn, ev.value); }
      }
    } else {
      NewcomersAreNotClosed(w, a, id);
    }
  }

  lemma NewcomersAreNotClosed(w: World, a: Action, id: nat)
    requires Allowed(w, a) && |w.entries| <= id
    ensures !HasClosed(Result(w, a), id)
  {
  }

  /** A closed connection is past sending, so without a stale store no late send can revive it. */
  lemma {:induction false} CloseIsRevivedOnlyByStores(w: World, acts: seq<Action>, id: nat)
    requires EndsAfterClose(w) && Feasible(w, acts) && ClosedIsDisconnected(w, id)
    requires forall a <- acts :: !a.DestroyServerItem? && a != ShutdownSets(id, true)
    ensures !Revived(w, acts, id)
    decreases |acts|
  {
    if acts != [] {
      var a := acts[0];
      assert a in acts;
      assert !Revives(w, a, id) by {
        if id < |w.entries| && w.entries[id].destroyed { assert HasClosed(w, id); }
      }
      ActionKeepsDisconnected(w, a, id);
      ActionEndsAfterClose(w, a);
      CloseIsRevivedOnlyByStores(Result(w, a), acts[1..], id);
    }
  }

  /**
   While the server itself is not destroyed, a connection leaves connections_ only after its
   handleClose has run. Late sends then revive only connections that have suffered a stale store: what
   ServerOwnership says of ownership and deferred destruction holds of all others. On the courteous
   runs "down" has fired exactly once when connectDestroyed has run.
   */
  lemma ConnectionsEndByClosing(numThreads: nat, acts: seq<Action>)
    requires Feasible(Startup(numThreads), acts) && forall a <- acts :: !a.DestroyServerItem?
    ensures var w := Outcome(Startup(numThreads), acts);
            && (forall id :: 0 <= id < |w.entries| && w.entries[id].conn.closes == 0 ==>
                  w.entries[id].inMap && !w.entries[id].destroyed)
            && (forall id: nat :: Revived(Startup(numThreads), acts, id) ==> ShutdownSets(id, true) in acts)
            && ((forall a <- acts :: Courteous(a)) ==>
                  forall id :: 0 <= id < |w.entries| && w.entries[id].destroyed ==> w.entries[id].conn.downs == 1)
  {
    var w := Outcome(Startup(numThreads), acts);
    RunsEndAfterClose(Startup(numThreads), acts);
    forall id | 0 <= id < |w.entries| && w.entries[id].conn.closes == 0
      ensures w.entries[id].inMap && !w.entries[id].destroyed
    {
      assert !HasClosed(w, id);
    }
    forall id: nat | ShutdownSets(id, true) !in acts ensures !Revived(Startup(numThreads), acts, id) {
      CloseIsRevivedOnlyByStores(Startup(numThreads), acts, id);
    }
    if forall a <- acts :: Courteous(a) {
      RunsArePolite(Startup(numThreads), acts);
      forall id | 0 <= id < |w.entries| && w.entries[id].destroyed ensures w.entries[id].conn.downs == 1 {
        assert HasClosed(w, id) && LifeOk(w.entries[id].conn);
      }
    }
  }
}
