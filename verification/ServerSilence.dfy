/**
 After handleClose and after connectDestroyed. connectDestroyed tests for kConnected only, so a
 shutdown that is pending then stays pending; another thread's stale store can make one pending at
 any time; and a sendInLoop still in a queue then passes its own test. Here is exactly when a closed
 or destroyed connection speaks again, over all runs; module ServerRevival has runs in which it does.
 */
module ServerSilence {
  import opened ByteBuffer
  import opened Epoll
  import opened Connection
  import opened Server
  import opened ServerSafety
  import opened ServerCallbacks
  import opened ServerHistory

  /** At every moment of the run the kernel has accepted just these bytes and its set lacks the connection. */
  ghost predicate Silent(w: World, acts: seq<Action>, id: nat, wire: seq<Byte>)
    requires Feasible(w, acts)
    decreases |acts|
  {
    && id < |w.entries| && w.entries[id].conn.wire == wire && w.entries[id].conn.slot.kernel.None?
    && (acts != [] ==> Silent(Result(w, acts[0]), acts[1..], id, wire))
  }

  // ---------------------------------------------------------------------------
  // After handleClose

  lemma StaysSilentStarts(c: Conn, es: seq<ConnEvent>, rest: seq<ConnEvent>, wire: seq<Byte>)
    requires |es| <= 1
    ensures StaysSilent(AsWritten, c, es + rest, wire)
       <==> c.wire == wire && c.slot.kernel.None? && StaysSilent(AsWritten, After(AsWritten, c, es), rest, wire)
  {
    if es == [] {
      assert es + rest == rest;
    } else {
      assert es == [es[0]] && (es + rest)[1..] == rest;
      AfterOne(AsWritten, c, es[0]);
    }
  }

  lemma {:induction false} SilentIsStaysSilent(w: World, acts: seq<Action>, id: nat, wire: seq<Byte>)
    requires Safe(w) && Feasible(w, acts) && id < |w.entries|
    ensures Silent(w, acts, id, wire) <==> StaysSilent(AsWritten, w.entries[id].conn, History(w, acts, id), wire)
    decreases |acts|
  {
    if acts != [] {
      var t := Result(w, acts[0]);
      ActionIsSafe(w, acts[0]);
      EventsAtFollow(w, acts[0], id);
      SilentIsStaysSilent(t, acts[1..], id, wire);
      StaysSilentStarts(w.entries[id].conn, EventsAt(w, acts[0], id), History(t, acts[1..], id), wire);
    }
  }

  /**
   From the moment a handleClose has run on a registered channel, the connection writes no byte and
   stays out of the kernel's set, over all runs, exactly as long as handleClose does not run again and
   no stale store is followed by a queued send of some data that does not fault at once.
   */
  lemma ClosedStaysSilentExactly(numThreads: nat, acts: seq<Action>, a: Action, later: seq<Action>, id: nat)
    requires Feasible(Startup(numThreads), acts) && Allowed(Outcome(Startup(numThreads), acts), a)
    requires Feasible(Result(Outcome(Startup(numThreads), acts), a), later)
    requires var w := Outcome(Startup(numThreads), acts);
             && id < |w.entries| && w.entries[id].conn.slot.index.Added?
             && EventOn(w, a, id).Some? && ClosingEvent(EventOn(w, a, id).value)
    ensures var w := Outcome(Startup(numThreads), acts);
            var c, es := w.entries[id].conn, History(Result(w, a), later, id);
            Silent(Result(w, a), later, id, c.wire)
            <==> && (forall e <- es :: !ClosingEvent(e))
                 && (forall i, j :: 0 <= i < j < |es| && es[i].ShutdownSet? ==> !SendsThrough(c.output, es[j]))
  {
    var w := Outcome(Startup(numThreads), acts);
    var t := Result(w, a);
    RunsAreSafe(Startup(numThreads), acts);
    ActionIsSafe(w, a);
    ActionFollows(w, a, id);
    assert EntryOk(w, id);
    ClosingCloses(w.entries[id].conn, EventOn(w, a, id).value);
    SilentIsStaysSilent(t, later, id, t.entries[id].conn.wire);
    ClosedIsAbsorbingExactly(AsWritten, t.entries[id].conn, History(t, later, id));
    EventFits(w, a, id);
    EstablishedOnce(t, later, id);
  }

  lemma ClosingCloses(c: Conn, e: ConnEvent)
    requires Mirror(c.slot) && c.slot.index.Added? && ClosingEvent(e)
    ensures var d := Step(AsWritten, c, e);
            Closed(d) && d.wire == c.wire && d.output == c.output && d.ups == c.ups
  {
  }

  lemma {:induction false} EstablishedOnce(w: World, acts: seq<Action>, id: nat)
    requires Safe(w) && Feasible(w, acts) && id < |w.entries| && w.entries[id].conn.ups > 0
    ensures forall e <- History(w, acts, id) :: !e.Establish?
    decreases |acts|
  {
    if acts != [] {
      var a := acts[0];
      ActionIsSafe(w, a);
      ActionFollows(w, a, id);
      if EventOn(w, a, id).Some? {
        EventFits(w, a, id);
        StepKeepsUps(w.entries[id].conn, EventOn(w, a, id).value);
      }
      EstablishedOnce(Result(w, a), acts[1..], id);
    }
  }

  lemma StepKeepsUps(c: Conn, e: ConnEvent)
    ensures Step(AsWritten, c, e).ups >= c.ups
  {
  }

  // ---------------------------------------------------------------------------
  // After connectDestroyed

  /** While a channel that is out of the poller still wants EPOLLOUT, a late send only adds to the backlog. */
  lemma EventOnWaiting(c: Conn, ev: ConnEvent)
    requires c.slot.index.New? && Mirror(c.slot) && IsWriting(c) && !c.state.Connected?
    requires Quiet(ev) || ev.ShutdownSet? || ev.Destroy?
    ensures var d := Step(AsWritten, c, ev);
            d.slot.index.New? && d.slot.kernel.None? && IsWriting(d) && d.wire == c.wire
  {
  }

  /** No late send of these events gets past a channel left in this state. */
  predicate Muted(c: Conn, es: seq<ConnEvent>) {
    IsWriting(c) || NoneThrough(es, c.output, c.state.Disconnecting?)
  }

  /** The event is a send that gets through to the socket or the poller. */
  predicate GoesThrough(c: Conn, ev: Option<ConnEvent>) {
    !IsWriting(c) && c.state.Disconnecting? && ev.Some? && SendsThrough(c.output, ev.value)
  }

  /** Silent, out of the poller, and as able to speak as before but for a store. */
  predicate StaysMute(c: Conn, d: Conn, ev: Option<ConnEvent>) {
    && d.slot.index.New? && d.wire == c.wire && d.ups > 0 && (IsWriting(d) <==> IsWriting(c))
    && (!IsWriting(c) ==>
          && d.output == c.output
          && (d.state.Disconnecting? <==> c.state.Disconnecting? || ev == Some(ShutdownSet)))
  }

  lemma ActionOnGone(w: World, a: Action, id: nat)
    requires Safe(w) && Allowed(w, a)
    requires id < |w.entries| && w.entries[id].conn.ups > 0 && w.entries[id].conn.slot.index.New?
    ensures id < |Result(w, a).entries|
    ensures var c, d, ev := w.entries[id].conn, Result(w, a).entries[id].conn, EventOn(w, a, id);
            if GoesThrough(c, ev) then d.slot.kernel.Some? || d.wire != c.wire else StaysMute(c, d, ev)
  {
    var c, ev := w.entries[id].conn, EventOn(w, a, id);
    assert EntryOk(w, id);
    ActionFollows(w, a, id);
    if ev.Some? {
      EventFits(w, a, id);
      StepKeepsUps(c, ev.value);
      if IsWriting(c) { EventOnWaiting(c, ev.value); } else { EventOnShut(AsWritten, c, ev.value); }
    }
  }

  /** From one action to the next, what is left of the history mutes the connection as the whole does. */
  lemma MutedOn(c: Conn, d: Conn, ev: Option<ConnEvent>, rest: seq<ConnEvent>)
    requires !GoesThrough(c, ev) ==> StaysMute(c, d, ev)
    ensures var es := (if ev.Some? then [ev.value] else []) + rest;
            if GoesThrough(c, ev) then !Muted(c, es) else (Muted(c, es) <==> Muted(d, rest))
  {
    if ev.Some? {
      NoneThroughUnfolds([ev.value] + rest, c.output, c.state.Disconnecting?);
      assert ([ev.value] + rest)[1..] == rest;
    } else {
      assert [] + rest == rest;
    }
  }

  lemma {:induction false} GoneStaysSilentExactly(w: World, acts: seq<Action>, id: nat)
    requires Safe(w) && Feasible(w, acts)
    requires id < |w.entries| && w.entries[id].conn.ups > 0 && w.entries[id].conn.slot.index.New?
    ensures Silent(w, acts, id, w.entries[id].conn.wire) <==> Muted(w.entries[id].conn, History(w, acts, id))
    decreases |acts|
  {
    assert EntryOk(w, id);
    if acts != [] {
      var a, t := acts[0], Result(w, acts[0]);
      var c, ev, rest := w.entries[id].conn, EventOn(w, a, id), History(t, acts[1..], id);
      ActionOnGone(w, a, id);
      ActionIsSafe(w, a);
      var d := t.entries[id].conn;
      MutedOn(c, d, ev, rest);
      if GoesThrough(c, ev) {
        assert !Silent(t, acts[1..], id, c.wire);
      } else {
        GoneStaysSilentExactly(t, acts[1..], id);
      }
    }
  }

  /** connectDestroyed writes nothing; it leaves a pending shutdown and, but in kConnected, the interest as they are. */
  lemma DestroyedIsGone(w: World, a: Action, id: nat)
    requires Safe(w) && Allowed(w, a) && id < |w.entries| && EventOn(w, a, id) == Some(ConnEvent.Destroy)
    ensures id < |Result(w, a).entries|
    ensures var c, d := w.entries[id].conn, Result(w, a).entries[id].conn;
            && d.ups > 0 && d.slot.index.New? && d.wire == c.wire && d.output == c.output
            && (d.state.Disconnecting? <==> c.state.Disconnecting?)
            && (IsWriting(d) <==> IsWriting(c) && !c.state.Connected?)
  {
    ActionFollows(w, a, id);
    EventFits(w, a, id);
  }

  /**
   From the moment connectDestroyed has run the connection writes no byte and stays out of the kernel's
   set, over all runs, exactly if it was destroyed, not in kConnected, while waiting for EPOLLOUT, or no
   queued send of some data that does not fault at once runs while the state is kDisconnecting, be it
   from a shutdown that was pending at the destroy or from a stale store since.
   */
  lemma DestroyedStaysSilentExactly(numThreads: nat, acts: seq<Action>, a: Action, later: seq<Action>, id: nat)
    requires Feasible(Startup(numThreads), acts) && Allowed(Outcome(Startup(numThreads), acts), a)
    requires Feasible(Result(Outcome(Startup(numThreads), acts), a), later)
    requires var w := Outcome(Startup(numThreads), acts);
             id < |w.entries| && EventOn(w, a, id) == Some(ConnEvent.Destroy)
    ensures var w := Outcome(Startup(numThreads), acts);
            var c, es := w.entries[id].conn, History(Result(w, a), later, id);
            Silent(Result(w, a), later, id, c.wire)
            <==> (IsWriting(c) && !c.state.Connected?) || NoneThrough(es, c.output, c.state.Disconnecting?)
  {
    var w := Outcome(Startup(numThreads), acts);
    RunsAreSafe(Startup(numThreads), acts);
    ActionIsSafe(w, a);
    DestroyedIsGone(w, a, id);
    GoneStaysSilentExactly(Result(w, a), later, id);
  }

  // ---------------------------------------------------------------------------
  // Without stale stores

  /** A shutdown is pending and nothing is queued before the next send. */
  predicate MaySpeak(c: Conn) {
    c.state.Disconnecting? && c.output == []
  }

  /** Some queued send of data runs without a fault. */
  predicate LateSendRuns(es: seq<ConnEvent>) {
    exists e <- es :: e.LateSend? && e.data != [] && !e.w.Fault?
  }

  lemma {:induction false} CourteousHistoryStoresNothing(w: World, acts: seq<Action>, id: nat)
    requires Safe(w) && Feasible(w, acts) && id < |w.entries| && forall a <- acts :: Courteous(a)
    ensures forall e <- History(w, acts, id) :: !e.ShutdownSet?
    decreases |acts|
  {
    if acts != [] {
      var a := acts[0];
      assert a in acts;
      ActionIsSafe(w, a);
      EntriesOnlyGrow(w, a);
      if EventOn(w, a, id).Some? { EventFits(w, a, id); }
      CourteousHistoryStoresNothing(Result(w, a), acts[1..], id);
    }
  }

  lemma MutedWithoutStores(c: Conn, es: seq<ConnEvent>)
    requires (c.state.Disconnecting? ==> InterestIsBacklog(c)) && forall e <- es :: !e.ShutdownSet?
    ensures IsWriting(c) || NoneThrough(es, c.output, c.state.Disconnecting?) || (MaySpeak(c) && LateSendRuns(es))
    ensures MaySpeak(c) && LateSendRuns(es) ==> !IsWriting(c) && !NoneThrough(es, c.output, c.state.Disconnecting?)
  {
    if MaySpeak(c) && LateSendRuns(es) {
      var e :| e in es && e.LateSend? && e.data != [] && !e.w.Fault?;
      var j :| 0 <= j < |es| && es[j] == e;
      assert SendsThrough(c.output, es[j]);
    }
  }

  /**
   So on the runs without stale stores a destroyed connection speaks exactly if it was destroyed with a
   shutdown pending and no backlog, and a queued send of some data runs behind it without a fault.
   */
  lemma DestroyedSpeaksOnlyIfPending(numThreads: nat, acts: seq<Action>, a: Action, later: seq<Action>, id: nat)
    requires Feasible(Startup(numThreads), acts) && Allowed(Outcome(Startup(numThreads), acts), a)
    requires Feasible(Result(Outcome(Startup(numThreads), acts), a), later)
    requires (forall b <- acts :: Courteous(b)) && Courteous(a) && forall b <- later :: Courteous(b)
    requires var w := Outcome(Startup(numThreads), acts);
             id < |w.entries| && EventOn(w, a, id) == Some(ConnEvent.Destroy)
    ensures var w := Outcome(Startup(numThreads), acts);
            Silent(Result(w, a), later, id, w.entries[id].conn.wire)
            <==> !(MaySpeak(w.entries[id].conn) && LateSendRuns(History(Result(w, a), later, id)))
  {
    var w := Outcome(Startup(numThreads), acts);
    RunsArePolite(Startup(numThreads), acts);
    ActionIsPolite(w, a);
    DestroyedIsGone(w, a, id);
    var d := Result(w, a).entries[id].conn;
    assert LifeOk(d);
    GoneStaysSilentExactly(Result(w, a), later, id);
    CourteousHistoryStoresNothing(Result(w, a), later, id);
    MutedWithoutStores(d, History(Result(w, a), later, id));
  }
}
