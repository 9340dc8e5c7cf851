/**
 A close leads to removal: from the moment handleClose has run, the next step on the way to
 connectDestroyed is pending, over all runs, and the map is left when removeConnectionInLoop runs.
 */
module ServerRemoval {
  import opened ByteBuffer
  import opened Connection
  import opened Server
  import opened ServerSafety
  import opened ServerLoops
  import opened ServerCallbacks

  /** The functor is queued on the loop. */
  ghost predicate Queued(w: World, l: nat, f: Functor) {
    l < |w.loops| && f in w.loops[l].queue.All()
  }

  /** The close callback of the connection is still to be made, in the pass of its loop. */
  ghost predicate Notifying(w: World, id: nat) {
    && id < |w.entries| && w.entries[id].loop < |w.loops|
    && var p := w.loops[w.entries[id].loop].phase; p.Passing? && DoNotify(id) in p.todo
  }

  /** It is, or removeConnectionInLoop is queued on the base loop. */
  ghost predicate Removing(w: World, id: nat) {
    Notifying(w, id) || Queued(w, 0, RunRemove(id))
  }

  /** A closed connection is destroyed or on its way there, and while in the map on its way out of it. */
  ghost predicate OnItsWay(w: World, id: nat) {
    id < |w.entries| && w.entries[id].conn.closes > 0 ==>
      && (w.entries[id].destroyed || Removing(w, id) || Queued(w, w.entries[id].loop, RunDestroyed(id)))
      && (w.entries[id].inMap ==> Removing(w, id))
  }

  // ---------------------------------------------------------------------------
  // What is pending stays so until it is done

  lemma QueuedStays(w: World, a: Action, l: nat, f: Functor)
    requires Safe(w) && Allowed(w, a) && Queued(w, l, f)
    ensures Queued(Result(w, a), l, f) || (RunsOn(a, l) && w.loops[l].queue.batch[0] == f)
  {
    ActionMovesLoop(w, a, l);
    assert LoopOk(w, l);
    var q, g := w.loops[l].queue, Posts(w, a, l);
    if a == PassEnds(l) { assert q.batch == [] && q.Swap().All() == q.All(); }
    if RunsOn(a, l) { AllOfPop(q); }
    if g.Some? { AllOfPush(Moved(q, a, l), g.value); }
  }

  lemma PostIsQueued(w: World, a: Action, l: nat)
    requires Safe(w) && Allowed(w, a) && l < |w.loops| && Posts(w, a, l).Some?
    ensures Queued(Result(w, a), l, Posts(w, a, l).value)
  {
    ActionMovesLoop(w, a, l);
    AllOfPush(Moved(w.loops[l].queue, a, l), Posts(w, a, l).value);
  }

  /** The action makes this callback. */
  predicate Makes(w: World, a: Action, t: Todo) {
    a.MakeCall? && a.l < |w.loops| && w.loops[a.l].phase.Passing? && w.loops[a.l].phase.todo != []
    && w.loops[a.l].phase.todo[0] == t
  }

  lemma CallKeepsTodo(w: World, k: nat, r: ReadResult, wr: WriteResult, l: nat, t: Todo)
    requires Allowed(w, MakeCall(k, r, wr))
    requires l < |w.loops| && w.loops[l].phase.Passing? && t in w.loops[l].phase.todo
    ensures l < |Call(w, k, r, wr).loops|
    ensures var p := Call(w, k, r, wr).loops[l].phase;
            (k == l && w.loops[l].phase.todo[0] == t) || (p.Passing? && t in p.todo)
  {
    if k == l {
      var todo := w.loops[l].phase.todo;
      assert todo == [todo[0]] + todo[1..];
      PassMakesItsCalls(w, l, r, wr);
    }
  }

  lemma TodoStays(w: World, a: Action, l: nat, t: Todo)
    requires Safe(w) && Allowed(w, a) && l < |w.loops| && w.loops[l].phase.Passing? && t in w.loops[l].phase.todo
    ensures l < |Result(w, a).loops|
    ensures Makes(w, a, t) || (Result(w, a).loops[l].phase.Passing? && t in Result(w, a).loops[l].phase.todo)
  {
    if a.MakeCall? {
      CallKeepsTodo(w, a.l, a.r, a.wr, l, t);
    } else {
      ActionMovesLoop(w, a, l);
      OthersKeepTodo(w, a, l, t);
    }
  }

  lemma OthersKeepTodo(w: World, a: Action, l: nat, t: Todo)
    requires Allowed(w, a) && !a.MakeCall? && l < |w.loops| && l < |Result(w, a).loops|
    requires w.loops[l].phase.Passing? && t in w.loops[l].phase.todo
    ensures Result(w, a).loops[l].phase == w.loops[l].phase
  {
    if a.RunOne? {
      RunKeepsPhases(w, a.l, l);
    } else if IsOffLoop(a) {
      OffLoopKeepsPhases(w, a, l);
    }
  }

  lemma RunKeepsPhases(w: World, k: nat, l: nat)
    requires Allowed(w, RunOne(k)) && l < |w.loops| && l < |RunFunctor(w, k).loops|
    ensures RunFunctor(w, k).loops[l].phase == w.loops[l].phase
  {
  }

  lemma OffLoopKeepsPhases(w: World, a: Action, l: nat)
    requires Allowed(w, a) && IsOffLoop(a) && l < |w.loops| && l < |OffLoopResult(w, a).loops|
    ensures OffLoopResult(w, a).loops[l].phase == w.loops[l].phase
  {
  }

  lemma NotifyingStays(w: World, a: Action, id: nat)
    requires Safe(w) && Allowed(w, a) && Notifying(w, id)
    ensures Notifying(Result(w, a), id) || Makes(w, a, DoNotify(id))
  {
    ActionFollows(w, a, id);
    TodoStays(w, a, w.entries[id].loop, DoNotify(id));
  }

  // ---------------------------------------------------------------------------
  // What is done leads on

  /** handleClose is followed by its close callback. */
  lemma CloseNotifies(w: World, a: Action, id: nat)
    requires Safe(w) && Allowed(w, a) && id < |w.entries|
    requires EventOn(w, a, id).Some? && ClosingEvent(EventOn(w, a, id).value)
    ensures Notifying(Result(w, a), id)
  {
    EventFits(w, a, id);
    ActionFollows(w, a, id);
    assert LoopOk(w, a.l) && w.loops[a.l].phase.todo[0] in w.loops[a.l].phase.todo && ActiveOk(w, a.l, id);
  }

  /** The close callback removes the connection, or queues that on the base loop. */
  lemma NotifyRemoves(w: World, a: Action, id: nat)
    requires Safe(w) && Allowed(w, a) && Makes(w, a, DoNotify(id)) && id < |w.entries|
    ensures id < |Result(w, a).entries|
    ensures var t := Result(w, a);
            Queued(t, 0, RunRemove(id)) || (Queued(t, t.entries[id].loop, RunDestroyed(id)) && !t.entries[id].inMap)
  {
    assert LoopOk(w, a.l) && w.loops[a.l].phase.todo[0] in w.loops[a.l].phase.todo && ActiveOk(w, a.l, id);
    ActionFollows(w, a, id);
    PostIsQueued(w, a, 0);
  }

  /** removeConnectionInLoop takes the connection out of the map and queues connectDestroyed. */
  lemma RemoveLeadsOn(w: World, a: Action, id: nat)
    requires Safe(w) && Allowed(w, a) && RunsOn(a, 0) && w.loops[0].queue.batch[0] == RunRemove(id) && id < |w.entries|
    ensures id < |Result(w, a).entries|
    ensures var t := Result(w, a); Queued(t, t.entries[id].loop, RunDestroyed(id)) && !t.entries[id].inMap
  {
    ActionFollows(w, a, id);
    PostIsQueued(w, a, w.entries[id].loop);
  }

  lemma DestroyLeadsOn(w: World, a: Action, id: nat)
    requires Safe(w) && Allowed(w, a) && id < |w.entries|
    requires RunsOn(a, w.entries[id].loop) && w.loops[w.entries[id].loop].queue.batch[0] == RunDestroyed(id)
    ensures id < |Result(w, a).entries| && Result(w, a).entries[id].destroyed
  {
    ActionFollows(w, a, id);
  }

  /** The server's destructor takes each entry out of the map, and destroys it or queues that on its loop. */
  lemma DestructorLeadsToDestruction(w: World, id: nat)
    requires Safe(w) && Allowed(w, DestroyServerItem(id))
    ensures var t := Result(w, DestroyServerItem(id));
            && id < |t.entries| && !t.entries[id].inMap
            && (t.entries[id].destroyed || Queued(t, t.entries[id].loop, RunDestroyed(id)))
  {
    ActionFollows(w, DestroyServerItem(id), id);
    if w.entries[id].loop != 0 { PostIsQueued(w, DestroyServerItem(id), w.entries[id].loop); }
  }

  lemma MapOnlyLoses(w: World, a: Action, id: nat)
    requires Allowed(w, a) && id < |w.entries| <= |Result(w, a).entries|
    ensures Result(w, a).entries[id].inMap ==> w.entries[id].inMap
  {
  }

  // ---------------------------------------------------------------------------
  // Whole runs

  lemma RemovingStays(w: World, a: Action, id: nat)
    requires Safe(w) && Allowed(w, a) && id < |w.entries| && Removing(w, id)
    ensures id < |Result(w, a).entries|
    ensures var t := Result(w, a);
            Removing(t, id) || (!t.entries[id].inMap && Queued(t, t.entries[id].loop, RunDestroyed(id)))
  {
    ActionFollows(w, a, id);
    if Notifying(w, id) {
      NotifyingStays(w, a, id);
      if Makes(w, a, DoNotify(id)) { NotifyRemoves(w, a, id); }
    } else {
      QueuedStays(w, a, 0, RunRemove(id));
      if RunsOn(a, 0) && w.loops[0].queue.batch[0] == RunRemove(id) { RemoveLeadsOn(w, a, id); }
    }
  }

  lemma ActionKeepsOnItsWay(w: World, a: Action, id: nat)
    requires Safe(w) && Allowed(w, a) && OnItsWay(w, id)
    ensures OnItsWay(Result(w, a), id)
  {
    if id < |w.entries| {
      var ev, l := EventOn(w, a, id), w.entries[id].loop;
      ActionFollows(w, a, id);
      ActionCloses(w, a, id);
      MapOnlyLoses(w, a, id);
      if ev.Some? && ClosingEvent(ev.value) {
        CloseNotifies(w, a, id);
      } else if w.entries[id].conn.closes > 0 {
        if Removing(w, id) { RemovingStays(w, a, id); }
        if Queued(w, l, RunDestroyed(id)) {
          QueuedStays(w, a, l, RunDestroyed(id));
          if RunsOn(a, l) && w.loops[l].queue.batch[0] == RunDestroyed(id) { DestroyLeadsOn(w, a, id); }
        }
      }
    } else if id < |Result(w, a).entries| {
      NewcomersAreOpen(w, a, id);
    }
  }

  lemma NewcomersAreOpen(w: World, a: Action, id: nat)
    requires Allowed(w, a) && |w.entries| <= id < |Result(w, a).entries|
    ensures Result(w, a).entries[id].conn.closes == 0
  {
  }

  lemma {:induction false} RunKeepsOnItsWay(w: World, acts: seq<Action>, id: nat)
    requires Safe(w) && Feasible(w, acts) && OnItsWay(w, id)
    ensures OnItsWay(Outcome(w, acts), id)
    decreases |acts|
  {
    if acts != [] {
      ActionIsSafe(w, acts[0]);
      ActionKeepsOnItsWay(w, acts[0], id);
      RunKeepsOnItsWay(Result(w, acts[0]), acts[1..], id);
    }
  }

  /** Nothing is left to do: every loop waits with nothing queued. */
  predicate AtRest(w: World) {
    forall loop <- w.loops :: loop.phase.Waiting? && loop.queue.pending == [] && loop.queue.batch == []
  }

  /**
   On every run, whatever the server's destructor, threads and stale stores do, a connection whose
   handleClose has run is destroyed, or its close callback is still to be made, or its removal is queued
   on the base loop, or its connectDestroyed on its own; while it is in the map it is one of the first
   two that is pending. So when every loop has come to rest it is out of the map, and destroyed.
   */
  lemma CloseLeadsToRemoval(numThreads: nat, acts: seq<Action>, id: nat)
    requires Feasible(Startup(numThreads), acts)
    requires id < |Outcome(Startup(numThreads), acts).entries|
    requires Outcome(Startup(numThreads), acts).entries[id].conn.closes > 0
    ensures var w := Outcome(Startup(numThreads), acts);
            var e := w.entries[id];
            && (|| e.destroyed || Notifying(w, id)
                || Queued(w, 0, RunRemove(id)) || Queued(w, e.loop, RunDestroyed(id)))
            && (e.inMap ==> Notifying(w, id) || Queued(w, 0, RunRemove(id)))
            && (AtRest(w) ==> e.destroyed && !e.inMap)
  {
    StartupIsSafe(numThreads);
    RunKeepsOnItsWay(Startup(numThreads), acts, id);
  }
}
