/**
 The events of one connection over a run of the server. A connection is where its events take it, so
 what module Connection proves of event sequences holds of every connection of every run.
 */
module ServerHistory {
  import opened Connection
  import opened Server
  import opened ServerSafety

  /** What the action is for connection `id`; on a single loop an accepted connection is established at once. */
  ghost function EventsAt(w: World, a: Action, id: nat): seq<ConnEvent>
    requires Allowed(w, a)
  {
    if a.DoAccept? && id == |w.entries| && Placement(id, |w.loops|) == 0 then [Establish]
    else if EventOn(w, a, id).Some? then [EventOn(w, a, id).value]
    else []
  }

  /** What running a functor does to each connection. */
  lemma FunctorsTakeEffect(w: World, l: nat, id: nat)
    requires Safe(w) && Allowed(w, RunOne(l)) && id < |w.entries|
    ensures |Result(w, RunOne(l)).entries| == |w.entries|
    ensures var f, e, t := w.loops[l].queue.batch[0], w.entries[id], Result(w, RunOne(l)).entries[id];
            if f.id != id then t == e
            else match f
              case RunEstablished(_) => t == e.(conn := Step(AsWritten, e.conn, Establish))
              case RunRemove(_) => t == e.(inMap := false)
              case RunDestroyed(_) => t == e.(conn := Step(AsWritten, e.conn, ConnEvent.Destroy), destroyed := true)
              case RunLate(_, ev) => t == e.(conn := Step(AsWritten, e.conn, ev))
  {
  }

  /**
   Off the loop the connection itself changes by the store of shutdown() alone, stale or not; and the
   threads inside send() and shutdown() are those past a check and not yet past the push.
   */
  lemma OffLoopOnlyStores(w: World, a: Action, id: nat)
    requires Allowed(w, a) && IsOffLoop(a) && id < |w.entries|
    ensures |Result(w, a).entries| == |w.entries|
    ensures var c, d := w.entries[id].conn, Result(w, a).entries[id].conn;
            d == if a.ShutdownSets? && a.id == id then c.(state := Disconnecting) else c
    ensures var u, v := w.entries[id].users, Result(w, a).entries[id].users;
            if a.id != id then v == u
            else
              && v.keeps == (a.UserKeeps? || (u.keeps && !a.UserLets?))
              && v.sending == u.sending + (if a.SendChecks? then 1 else if a.SendPushes? then -1 else 0)
              && v.asking == u.asking + (if a.ShutdownChecks? then 1 else if a.ShutdownSets? then -1 else 0)
              && v.storing == u.storing + (if a.ShutdownSets? then 1 else if a.ShutdownPushes? then -1 else 0)
  {
  }

  /** A user's call in a callback or functor is the connection's next event, and changes nothing else. */
  lemma UserCallsTakeEffect(w: World, l: nat, id: nat, e: ConnEvent)
    requires Allowed(w, UserCalls(l, id, e))
    ensures EventsAt(w, UserCalls(l, id, e), id) == [e]
    ensures var t := Result(w, UserCalls(l, id, e));
            && t.loops == w.loops && |t.entries| == |w.entries|
            && forall i :: 0 <= i < |w.entries| ==>
                 t.entries[i] == if i == id then w.entries[i].(conn := Step(AsWritten, w.entries[i].conn, e))
                                 else w.entries[i]
  {
  }

  ghost function History(w: World, acts: seq<Action>, id: nat): seq<ConnEvent>
    requires Feasible(w, acts)
    decreases |acts|
  {
    if acts == [] then [] else EventsAt(w, acts[0], id) + History(Result(w, acts[0]), acts[1..], id)
  }

  lemma EventsAtFollow(w: World, a: Action, id: nat)
    requires Safe(w) && Allowed(w, a) && id < |w.entries|
    ensures id < |Result(w, a).entries|
    ensures Result(w, a).entries[id].conn == After(AsWritten, w.entries[id].conn, EventsAt(w, a, id))
  {
    ActionFollows(w, a, id);
    if EventOn(w, a, id).Some? { AfterOne(AsWritten, w.entries[id].conn, EventOn(w, a, id).value); }
  }

  lemma {:induction false} HistoryFollows(w: World, acts: seq<Action>, id: nat)
    requires Safe(w) && Feasible(w, acts) && id < |w.entries|
    ensures id < |Outcome(w, acts).entries|
    ensures Outcome(w, acts).entries[id].conn == After(AsWritten, w.entries[id].conn, History(w, acts, id))
    decreases |acts|
  {
    if acts != [] {
      var t := Result(w, acts[0]);
      ActionIsSafe(w, acts[0]);
      EventsAtFollow(w, acts[0], id);
      HistoryFollows(t, acts[1..], id);
      AfterAppend(AsWritten, w.entries[id].conn, EventsAt(w, acts[0], id), History(t, acts[1..], id));
    }
  }

  /** The connection is what these events make of a new one. */
  predicate Made(c: Conn, es: seq<ConnEvent>) {
    c == After(AsWritten, Born(c.config), es)
  }

  lemma MadeOn(c: Conn, es: seq<ConnEvent>, d: Conn, fs: seq<ConnEvent>)
    requires Made(c, es) && d == After(AsWritten, c, fs)
    ensures Made(d, es + fs)
  {
    AfterAppend(AsWritten, Born(c.config), es, fs);
    AfterKeepsConfig(AsWritten, c, fs);
  }

  lemma OnlyAcceptAdds(w: World, a: Action, id: nat)
    requires Allowed(w, a) && |w.entries| <= id < |Result(w, a).entries|
    ensures a.DoAccept? && id == |w.entries|
    ensures Result(w, a).entries[id].conn
         == if Placement(id, |w.loops|) == 0 then Step(AsWritten, Born(a.config), Establish) else Born(a.config)
  {
  }

  lemma AcceptedIsMade(w: World, a: Action, id: nat)
    requires Safe(w) && Allowed(w, a) && |w.entries| <= id < |Result(w, a).entries|
    ensures Made(Result(w, a).entries[id].conn, EventsAt(w, a, id))
  {
    OnlyAcceptAdds(w, a, id);
    NoEventOnStrangers(w, a, id);
    AfterOne(AsWritten, Born(a.config), Establish);
    AfterKeepsConfig(AsWritten, Born(a.config), [Establish]);
  }

  lemma NothingBefore(w: World, a: Action, id: nat)
    requires Allowed(w, a) && id >= |Result(w, a).entries|
    ensures EventsAt(w, a, id) == [] && id >= |w.entries|
  {
    EntriesOnlyGrow(w, a);
    NoEventOnStrangers(w, a, id);
  }

  /** The first action of the run accepts the connection. */
  lemma AcceptedHistoryIsMade(w: World, acts: seq<Action>, id: nat)
    requires Safe(w) && Feasible(w, acts) && acts != [] && |w.entries| <= id < |Result(w, acts[0]).entries|
    ensures id < |Outcome(w, acts).entries| && Made(Outcome(w, acts).entries[id].conn, History(w, acts, id))
  {
    var a, t, rest := acts[0], Result(w, acts[0]), acts[1..];
    ActionIsSafe(w, a);
    AcceptedIsMade(w, a, id);
    HistoryFollows(t, rest, id);
    MadeOn(t.entries[id].conn, EventsAt(w, a, id), Outcome(t, rest).entries[id].conn, History(t, rest, id));
  }

  lemma {:induction false} NewcomerIsMade(w: World, acts: seq<Action>, id: nat)
    requires Safe(w) && Feasible(w, acts) && |w.entries| <= id < |Outcome(w, acts).entries|
    ensures Made(Outcome(w, acts).entries[id].conn, History(w, acts, id))
    decreases |acts|
  {
    assert acts != [];
    var a, t := acts[0], Result(w, acts[0]);
    if id < |t.entries| {
      AcceptedHistoryIsMade(w, acts, id);
    } else {
      ActionIsSafe(w, a);
      NewcomerIsMade(t, acts[1..], id);
      NothingBefore(w, a, id);
      assert History(w, acts, id) == [] + History(t, acts[1..], id) == History(t, acts[1..], id);
    }
  }

  /**
   On every run each connection of the server is what its events make of a new one; so, for one, what
   its socket has accepted followed by its backlog is the payloads of those events, in order.
   */
  lemma ConnectionsFollowTheirEvents(numThreads: nat, acts: seq<Action>, id: nat)
    requires Feasible(Startup(numThreads), acts) && id < |Outcome(Startup(numThreads), acts).entries|
    ensures var c, es := Outcome(Startup(numThreads), acts).entries[id].conn, History(Startup(numThreads), acts, id);
            && c == After(AsWritten, Born(c.config), es)
            && c.wire + c.output == Payloads(AsWritten, Born(c.config), es)
  {
    StartupIsSafe(numThreads);
    NewcomerIsMade(Startup(numThreads), acts, id);
    var c := Outcome(Startup(numThreads), acts).entries[id].conn;
    OutboundConservation(AsWritten, Born(c.config), History(Startup(numThreads), acts, id));
  }
}
