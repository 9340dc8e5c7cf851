/**
 Ownership over whole runs of the server, single-loop and multi-loop, whatever threads, users and
 the server's destructor do. A connection lives until connectDestroyed has run and then leaves its
 poller for good, exactly unless a late send revives it: connectDestroyed overlooks kDisconnecting,
 so a send still queued can put the channel back.
 */
module ServerOwnership {
  import opened ByteBuffer
  import opened Epoll
  import opened Connection
  import opened Server
  import opened ServerSafety

  /** This late send puts a channel that is out of the poller back: it leaves bytes to wait for EPOLLOUT. */
  predicate Reregisters(c: Conn, e: ConnEvent) {
    && e.LateSend? && !c.state.Disconnected? && !IsWriting(c)
    && if c.output == [] then !e.w.Fault? && |Accepted(e.w, e.data)| < |e.data| else e.data != []
  }

  lemma OnlyLateSendsReregister(c: Conn, e: ConnEvent)
    requires c.slot.index.New? && !c.state.Connected?
    requires UserEvent(e) || e.ShutdownTake? || e.ShutdownSet? || e.LateSend? || e.LateShutdown?
    ensures Step(AsWritten, c, e).slot.index.New? <==> !Reregisters(c, e)
  {
  }

  /** The action runs such a send on a connection that connectDestroyed has taken out of the poller. */
  ghost predicate Revives(w: World, a: Action, id: nat)
    requires Allowed(w, a)
  {
    && id < |w.entries| && w.entries[id].destroyed && EventOn(w, a, id).Some?
    && Reregisters(w.entries[id].conn, EventOn(w, a, id).value)
  }

  ghost predicate Revived(w: World, acts: seq<Action>, id: nat)
    requires Feasible(w, acts)
    decreases |acts|
  {
    acts != [] && (Revives(w, acts[0], id) || Revived(Result(w, acts[0]), acts[1..], id))
  }

  /** Once connectDestroyed has run the channel is out of the poller. */
  predicate OutOnceDestroyed(w: World, id: nat) {
    id < |w.entries| && w.entries[id].destroyed ==> w.entries[id].conn.slot.index.New?
  }

  ghost predicate AlwaysOut(w: World, acts: seq<Action>, id: nat)
    requires Feasible(w, acts)
    decreases |acts|
  {
    OutOnceDestroyed(w, id) && (acts != [] ==> AlwaysOut(Result(w, acts[0]), acts[1..], id))
  }

  lemma StepStaysOut(w: World, a: Action, id: nat)
    requires Safe(w) && Allowed(w, a) && OutOnceDestroyed(w, id)
    ensures OutOnceDestroyed(Result(w, a), id) <==> !Revives(w, a, id)
  {
    if id < |w.entries| {
      var e := w.entries[id];
      assert EntryOk(w, id);
      ActionFollows(w, a, id);
      if EventOn(w, a, id).Some? {
        EventFits(w, a, id);
        var ev := EventOn(w, a, id).value;
        if e.destroyed && !ev.Destroy? {
          OnlyLateSendsReregister(e.conn, ev);
        }
      }
    } else if id < |Result(w, a).entries| {
      NewcomersAreNotDestroyed(w, a, id);
    }
  }

  lemma NewcomersAreNotDestroyed(w: World, a: Action, id: nat)
    requires Allowed(w, a) && |w.entries| <= id < |Result(w, a).entries|
    ensures !Result(w, a).entries[id].destroyed
  {
  }

  /**
   The exact condition: over a whole run connectDestroyed takes the channel out of the poller for
   good iff no late send puts it back.
   */
  lemma {:induction false} DestroyedStaysOutExactly(w: World, acts: seq<Action>, id: nat)
    requires Safe(w) && Feasible(w, acts) && OutOnceDestroyed(w, id)
    ensures AlwaysOut(w, acts, id) <==> !Revived(w, acts, id)
    ensures !Revived(w, acts, id) ==> OutOnceDestroyed(Outcome(w, acts), id)
    decreases |acts|
  {
    if acts != [] {
      var t := Result(w, acts[0]);
      ActionIsSafe(w, acts[0]);
      StepStaysOut(w, acts[0], id);
      if !Revives(w, acts[0], id) {
        DestroyedStaysOutExactly(t, acts[1..], id);
      } else {
        assert !OutOnceDestroyed(t, id) && !AlwaysOut(t, acts[1..], id);
      }
    }
  }

  /** A late send has revived the connection since connectDestroyed last ran on it; `back` says so of the start. */
  ghost predicate Back(w: World, acts: seq<Action>, id: nat, back: bool)
    requires Feasible(w, acts)
    decreases |acts|
  {
    if acts == [] then back else Back(Result(w, acts[0]), acts[1..], id, BackAfter(w, acts[0], id, back))
  }

  ghost predicate BackAfter(w: World, a: Action, id: nat, back: bool)
    requires Allowed(w, a)
  {
    EventOn(w, a, id) != Some(ConnEvent.Destroy) && (back || Revives(w, a, id))
  }

  /** A destroyed connection is out of the poller unless it is back. */
  predicate OutUnlessBack(w: World, id: nat, back: bool) {
    if id < |w.entries| && w.entries[id].destroyed then w.entries[id].conn.slot.index.New? <==> !back else !back
  }

  lemma StepKeepsBack(w: World, a: Action, id: nat, back: bool)
    requires Safe(w) && Allowed(w, a) && OutUnlessBack(w, id, back)
    ensures OutUnlessBack(Result(w, a), id, BackAfter(w, a, id, back))
  {
    if id < |w.entries| {
      var e := w.entries[id];
      assert EntryOk(w, id);
      ActionFollows(w, a, id);
      if EventOn(w, a, id).Some? {
        EventFits(w, a, id);
        var ev := EventOn(w, a, id).value;
        if e.destroyed && !ev.Destroy? {
          if e.conn.slot.index.New? { OnlyLateSendsReregister(e.conn, ev); } else { StepKeepsMirror(e.conn, ev); }
        }
      }
    } else {
      NoEventOnStrangers(w, a, id);
      if id < |Result(w, a).entries| { NewcomersAreNotDestroyed(w, a, id); }
    }
  }

  lemma {:induction false} RunKeepsBack(w: World, acts: seq<Action>, id: nat, back: bool)
    requires Safe(w) && Feasible(w, acts) && OutUnlessBack(w, id, back)
    ensures OutUnlessBack(Outcome(w, acts), id, Back(w, acts, id, back))
    decreases |acts|
  {
    if acts != [] {
      ActionIsSafe(w, acts[0]);
      StepKeepsBack(w, acts[0], id, back);
      RunKeepsBack(Result(w, acts[0]), acts[1..], id, BackAfter(w, acts[0], id, back));
    }
  }

  lemma {:induction false} OnlyTheRevivedAreBack(w: World, acts: seq<Action>, id: nat)
    requires Feasible(w, acts)
    ensures Back(w, acts, id, false) ==> Revived(w, acts, id)
    decreases |acts|
  {
    if acts != [] && !Revives(w, acts[0], id) {
      OnlyTheRevivedAreBack(Result(w, acts[0]), acts[1..], id);
    }
  }

  /**
   Until connectDestroyed has run a connection is referenced; open descriptors are pairwise distinct,
   so two registered channels never share one; connectDestroyed never precedes connectEstablished;
   and a destroyed connection, hence a released one whose descriptor is closed, has left poller and
   kernel exactly if no late send has revived it since it was last destroyed.
   */
  lemma ConnectionsAreOwnedUntilDestroyed(numThreads: nat, acts: seq<Action>)
    requires Feasible(Startup(numThreads), acts)
    ensures var w := Outcome(Startup(numThreads), acts);
            && (forall id :: 0 <= id < |w.entries| && !w.entries[id].destroyed ==> Held(w, id))
            && (forall i, j :: 0 <= i < j < |w.entries| && Held(w, i) && Held(w, j)
                  ==> w.entries[i].fd != w.entries[j].fd)
            && (forall i, j :: 0 <= i < j < |w.entries| && Registered(w, i) && Registered(w, j)
                  ==> w.entries[i].fd != w.entries[j].fd)
            && (forall id :: 0 <= id < |w.entries| && w.entries[id].destroyed ==> w.entries[id].conn.ups > 0)
            && (forall id :: 0 <= id < |w.entries| && (w.entries[id].destroyed || !Held(w, id)) ==>
                  var s := w.entries[id].conn.slot;
                  (s.index.New? && !s.listed && s.kernel.None?) <==> !Back(Startup(numThreads), acts, id, false))
            && (forall id :: 0 <= id < |w.entries| && Back(Startup(numThreads), acts, id, false) ==>
                  Revived(Startup(numThreads), acts, id))
  {
    var w := Outcome(Startup(numThreads), acts);
    RunsAreSafe(Startup(numThreads), acts);
    forall id | 0 <= id < |w.entries| && !w.entries[id].destroyed ensures Held(w, id) {
      assert EntryOk(w, id);
      OwnedIsHeld(w, id);
    }
    forall id | 0 <= id < |w.entries| && w.entries[id].destroyed
      ensures w.entries[id].conn.ups > 0 && Mirror(w.entries[id].conn.slot)
    {
      assert EntryOk(w, id);
    }
    forall id | 0 <= id < |w.entries| ensures OutUnlessBack(w, id, Back(Startup(numThreads), acts, id, false)) {
      RunKeepsBack(Startup(numThreads), acts, id, false);
    }
    forall id | 0 <= id < |w.entries| && Back(Startup(numThreads), acts, id, false)
      ensures Revived(Startup(numThreads), acts, id)
    {
      OnlyTheRevivedAreBack(Startup(numThreads), acts, id);
    }
  }

  /**
   Deferred destruction. In every reachable world the channels of a dispatch pass under way are still
   with the poller; and their connections are referenced, but for those a late send has brought back.
   */
  lemma ActiveChannelsStay(numThreads: nat, acts: seq<Action>, l: nat, id: nat)
    requires Feasible(Startup(numThreads), acts)
    requires var w := Outcome(Startup(numThreads), acts);
             l < |w.loops| && w.loops[l].phase.Passing? && id in w.loops[l].phase.active
    ensures var w := Outcome(Startup(numThreads), acts);
            && id < |w.entries| && !w.entries[id].conn.slot.index.New?
            && (!Back(Startup(numThreads), acts, id, false) ==> Held(w, id))
  {
    var w := Outcome(Startup(numThreads), acts);
    RunsAreSafe(Startup(numThreads), acts);
    assert LoopOk(w, l) && ActiveOk(w, l, id) && EntryOk(w, id);
    RunKeepsBack(Startup(numThreads), acts, id, false);
    if !w.entries[id].destroyed {
      OwnedIsHeld(w, id);
    }
  }

  /**
   ... because connectDestroyed only ever runs in a batch of the connection's loop, or from the
   server's destructor while the base loop dispatches nothing.
   */
  lemma DestructionIsDeferred(numThreads: nat, acts: seq<Action>, a: Action, id: nat)
    requires Feasible(Startup(numThreads), acts) && Allowed(Outcome(Startup(numThreads), acts), a)
    requires var w := Outcome(Startup(numThreads), acts); id < |w.entries| && !w.entries[id].destroyed
    ensures var w := Outcome(Startup(numThreads), acts);
            id < |Result(w, a).entries| && (Result(w, a).entries[id].destroyed ==> DestroysOutsideDispatch(w, a, id))
  {
    var w := Outcome(Startup(numThreads), acts);
    RunsAreSafe(Startup(numThreads), acts);
    ActionFollows(w, a, id);
    if EventOn(w, a, id).Some? { EventFits(w, a, id); }
  }

  lemma EntryIsPlaced(w: World, id: nat)
    requires Safe(w) && id < |w.entries|
    ensures w.entries[id].loop == Placement(id, |w.loops|)
  {
    assert EntryOk(w, id);
  }

  /** The k-th accepted connection is on the loop round robin gives it. */
  lemma PlacementOverRuns(numThreads: nat, acts: seq<Action>)
    requires Feasible(Startup(numThreads), acts)
    ensures var w := Outcome(Startup(numThreads), acts);
            forall id :: 0 <= id < |w.entries| ==>
              w.entries[id].loop == if numThreads == 0 then 0 else 1 + id % numThreads
  {
    var w := Outcome(Startup(numThreads), acts);
    RunsAreSafe(Startup(numThreads), acts);
    LoopsStay(Startup(numThreads), acts);
    assert |w.loops| == 1 + numThreads;
    forall id | 0 <= id < |w.entries| ensures w.entries[id].loop == if numThreads == 0 then 0 else 1 + id % numThreads {
      EntryIsPlaced(w, id);
    }
  }
}
