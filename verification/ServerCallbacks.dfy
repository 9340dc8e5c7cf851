/**
 What a connection's user sees over a whole run of the server: "up" once, then "down" at most once,
 the state moving forward only, and nothing written after the close. This holds on the runs without
 the two anomalies that module Connection shows to break it: another thread's shutdown() storing a
 stale state, and EPOLLHUP reported with EPOLLPRI but without EPOLLIN.
 */
module ServerCallbacks {
  import opened ByteBuffer
  import opened Epoll
  import opened Connection
  import opened Server
  import opened ServerSafety

  predicate Courteous(a: Action) {
    && !(a.ShutdownSets? && a.stale)
    && (a.PollReturns? ==> forall i :: 0 <= i < |a.report| ==> !(HangsUp(a.report[i].1) && Pri in a.report[i].1))
  }

  /** connectDestroyed has taken the channel out of the poller. A shutdown may still be pending. */
  predicate Gone(c: Conn) {
    && c.slot.index.New? && Mirror(c.slot) && !c.state.Connecting? && !c.state.Connected?
    && (c.state.Disconnecting? ==> c.downs == 0 && InterestIsBacklog(c))
  }

  predicate LifeOk(c: Conn) {
    && c.closes <= c.downs <= c.ups <= 1
    && if c.ups == 0 then c == Born(c.config)
       else if c.slot.index.New? then Gone(c)
       else if c.closes == 0 then Live(c) && c.downs == 0
       else Closed(c) && Mirror(c.slot)
  }

  predicate Closing(t: Todo) {
    t.DoClose? || t.DoRead?
  }

  predicate OneClosingEach(todo: seq<Todo>) {
    forall i, j :: 0 <= i < j < |todo| && Closing(todo[i]) && Closing(todo[j]) ==> todo[i].id != todo[j].id
  }

  /** A pass has at most one callback left per channel that can close it, and none for a closed one. */
  predicate TodoOk(w: World, todo: seq<Todo>) {
    && (forall t <- todo :: Closing(t) ==> t.id < |w.entries| && w.entries[t.id].conn.closes == 0)
    && OneClosingEach(todo)
  }

  ghost predicate Polite(w: World) {
    && Safe(w)
    && (forall id :: 0 <= id < |w.entries| ==> LifeOk(w.entries[id].conn))
    && (forall l :: 0 <= l < |w.loops| && w.loops[l].phase.Passing? ==> TodoOk(w, w.loops[l].phase.todo))
  }

  /** From `c` to `d`: established and closed at most once, forward only, and silent once closed. */
  predicate Proceeds(c: Conn, d: Conn) {
    && LifeOk(d)
    && c.ups <= d.ups && c.downs <= d.downs && c.closes <= d.closes
    && Rank(c.state) <= Rank(d.state)
    && (c.closes > 0 ==> d.wire == c.wire && d.slot.kernel.None?)
  }

  predicate Quiet(ev: ConnEvent) {
    UserEvent(ev) || ev.ShutdownTake? || ev.LateSend? || ev.LateShutdown?
  }

  /** Events other than the closing ones, in the poller ... */
  lemma LiveEventProceeds(c: Conn, ev: ConnEvent)
    requires LifeOk(c) && c.ups > 0 && !c.slot.index.New? && c.closes == 0
    requires Quiet(ev) || ev.Write? || (ev.Read? && ev.r != Got([]))
    ensures Proceeds(c, Step(AsWritten, c, ev))
  {
    LiveStep(AsWritten, c, ev);
  }

  lemma ClosedEventProceeds(c: Conn, ev: ConnEvent)
    requires LifeOk(c) && c.ups > 0 && !c.slot.index.New? && c.closes > 0
    requires Quiet(ev) || ev.Write? || (ev.Read? && ev.r != Got([]))
    ensures Proceeds(c, Step(AsWritten, c, ev))
  {
  }

  /** ... and out of it, where a late send may put the channel back. */
  lemma GoneEventProceeds(c: Conn, ev: ConnEvent)
    requires LifeOk(c) && c.ups > 0 && c.slot.index.New? && Quiet(ev)
    ensures Proceeds(c, Step(AsWritten, c, ev))
  {
  }

  lemma CloseProceeds(c: Conn, ev: ConnEvent)
    requires LifeOk(c) && c.ups > 0 && !c.slot.index.New? && c.closes == 0
    requires ev.Close? || ev == Read(Got([]))
    ensures Proceeds(c, Step(AsWritten, c, ev))
  {
  }

  lemma DestroyProceeds(c: Conn)
    requires LifeOk(c) && c.ups > 0
    ensures Proceeds(c, Step(AsWritten, c, ConnEvent.Destroy))
  {
  }

  lemma EstablishProceeds(c: Conn)
    requires LifeOk(c) && c.ups == 0
    ensures Proceeds(c, Step(AsWritten, c, Establish))
  {
  }

  lemma StepKeepsCloses(c: Conn, e: ConnEvent)
    ensures Step(AsWritten, c, e).closes == c.closes + if ClosingEvent(e) then 1 else 0
  {
  }

  predicate ClosingEvent(e: ConnEvent) {
    e.Close? || e == Read(Got([]))
  }

  /** The event is a closing one only for the connection at the head of a pass that is not closed yet. */
  lemma ClosingEventIsFirst(w: World, a: Action, id: nat)
    requires Polite(w) && Allowed(w, a) && id < |w.entries|
    requires EventOn(w, a, id).Some? && ClosingEvent(EventOn(w, a, id).value)
    ensures a.MakeCall? && Closing(w.loops[a.l].phase.todo[0]) && w.loops[a.l].phase.todo[0].id == id
    ensures w.entries[id].conn.closes == 0
  {
    EventFits(w, a, id);
    var todo := w.loops[a.l].phase.todo;
    assert TodoOk(w, todo) && todo[0] in todo;
  }

  lemma EventProceeds(c: Conn, ev: ConnEvent)
    requires LifeOk(c) && !ev.ShutdownSet? && (ClosingEvent(ev) ==> c.closes == 0)
    requires if ev.Establish? then c.ups == 0 else c.ups > 0
    requires c.slot.index.New? ==> Quiet(ev) || ev.Establish? || ev.Destroy?
    ensures Proceeds(c, Step(AsWritten, c, ev))
  {
    if ev.Establish? {
      EstablishProceeds(c);
    } else if ev.Destroy? {
      DestroyProceeds(c);
    } else if c.slot.index.New? {
      GoneEventProceeds(c, ev);
    } else if ClosingEvent(ev) {
      CloseProceeds(c, ev);
    } else if c.closes == 0 {
      LiveEventProceeds(c, ev);
    } else {
      ClosedEventProceeds(c, ev);
    }
  }

  lemma ActionProceeds(w: World, a: Action, id: nat)
    requires Polite(w) && Allowed(w, a) && Courteous(a) && id < |w.entries|
    ensures |Result(w, a).entries| >= |w.entries|
    ensures Proceeds(w.entries[id].conn, Result(w, a).entries[id].conn)
  {
    ActionFollows(w, a, id);
    var ev := EventOn(w, a, id);
    if ev.Some? {
      EventFits(w, a, id);
      if ClosingEvent(ev.value) { ClosingEventIsFirst(w, a, id); }
      EventProceeds(w.entries[id].conn, ev.value);
    }
  }

  /** The count of close callbacks moves with the closing events. */
  lemma ActionCloses(w: World, a: Action, id: nat)
    requires Safe(w) && Allowed(w, a) && id < |w.entries|
    ensures |Result(w, a).entries| >= |w.entries|
    ensures Result(w, a).entries[id].conn.closes == w.entries[id].conn.closes
              + if EventOn(w, a, id).Some? && ClosingEvent(EventOn(w, a, id).value) then 1 else 0
  {
    ActionFollows(w, a, id);
    if EventOn(w, a, id).Some? { StepKeepsCloses(w.entries[id].conn, EventOn(w, a, id).value); }
  }

  lemma AcceptedIsLifeOk(config: Config)
    ensures LifeOk(Born(config)) && LifeOk(Step(AsWritten, Born(config), Establish))
  {
  }

  // ---------------------------------------------------------------------------
  // The callbacks still to be made

  predicate CourteousReport(report: seq<(nat, Mask)>) {
    && (forall i :: 0 <= i < |report| ==> !(HangsUp(report[i].1) && Pri in report[i].1))
    && (forall i, j :: 0 <= i < j < |report| ==> report[i].0 != report[j].0)
  }

  lemma CallsCloseOnce(id: nat, revents: Mask)
    requires !(HangsUp(revents) && Pri in revents)
    ensures OneClosingEach(Calls(id, revents)) && forall t <- Calls(id, revents) :: t.id == id
  {
    assert !(HangsUp(revents) && revents * READ_EVENT != {});
  }

  lemma JoinClosesOnce(a: seq<Todo>, b: seq<Todo>)
    requires OneClosingEach(a) && OneClosingEach(b)
    requires forall t <- a, u <- b :: t.id != u.id
    ensures OneClosingEach(a + b)
  {
  }

  lemma {:induction false} PlanClosesOnce(report: seq<(nat, Mask)>)
    requires CourteousReport(report)
    ensures OneClosingEach(Plan(report))
  {
    if report != [] {
      var init, last := report[..|report| - 1], report[|report| - 1];
      PlanClosesOnce(init);
      PlanNamesTheReported(init);
      CallsCloseOnce(last.0, last.1);
      JoinClosesOnce(Plan(init), Calls(last.0, last.1));
    }
  }

  lemma PollTodoOk(w: World, l: nat, report: seq<(nat, Mask)>)
    requires Polite(w) && Allowed(w, PollReturns(l, report)) && Courteous(PollReturns(l, report))
    ensures TodoOk(w, Plan(report))
  {
    PlanClosesOnce(report);
    PlanNamesTheReported(report);
    forall t | t in Plan(report) ensures t.id < |w.entries| && w.entries[t.id].conn.closes == 0 {
      var i :| 0 <= i < |report| && report[i].0 == t.id;
      assert Reportable(w, l, report[i].0, report[i].1);
      assert EntryOk(w, t.id);
    }
  }

  /** Passes of other loops are about other connections. */
  lemma PassesAreApart(w: World, k: nat, l: nat, t: Todo, u: Todo)
    requires Safe(w) && k < |w.loops| && l < |w.loops| && k != l
    requires w.loops[k].phase.Passing? && t in w.loops[k].phase.todo
    requires w.loops[l].phase.Passing? && u in w.loops[l].phase.todo
    ensures t.id != u.id
  {
    assert LoopOk(w, k) && LoopOk(w, l);
    assert ActiveOk(w, k, t.id) && ActiveOk(w, l, u.id);
  }

  lemma DroppingHeadClosesOnce(todo: seq<Todo>, t: Todo)
    requires todo != [] && OneClosingEach(todo) && !Closing(t)
    ensures OneClosingEach(todo[1..]) && OneClosingEach([t] + todo[1..])
  {
  }

  /** The rest of the pass whose callback has run. */
  lemma CalledPassClosesOnce(w: World, l: nat, r: ReadResult, wr: WriteResult)
    requires Polite(w) && Allowed(w, MakeCall(l, r, wr))
    ensures l < |Call(w, l, r, wr).loops| && Call(w, l, r, wr).loops[l].phase.Passing?
    ensures var todo, todo' := w.loops[l].phase.todo, Call(w, l, r, wr).loops[l].phase.todo;
            OneClosingEach(todo') && forall u <- todo' :: Closing(u) ==> u in todo[1..]
  {
    var todo := w.loops[l].phase.todo;
    assert TodoOk(w, todo);
    DroppingHeadClosesOnce(todo, DoNotify(todo[0].id));
  }

  /** A pass only moves on by its own loop's poll and calls. */
  lemma OtherActionsKeepPass(w: World, a: Action, l: nat)
    requires Allowed(w, a) && l < |w.loops| == |Result(w, a).loops|
    requires !(a.MakeCall? && a.l == l) && !(a.PollReturns? && a.l == l) && Result(w, a).loops[l].phase.Passing?
    ensures w.loops[l].phase == Result(w, a).loops[l].phase
  {
  }

  /** No callback that is left concerns a connection the action has just closed. */
  lemma TodoSurvives(w: World, a: Action, l: nat, todo: seq<Todo>, u: Todo)
    requires Polite(w) && Allowed(w, a) && l < |w.loops| && w.loops[l].phase.Passing?
    requires u in todo && Closing(u) && TodoOk(w, w.loops[l].phase.todo)
    requires todo == if a.MakeCall? && a.l == l then w.loops[l].phase.todo[1..] else w.loops[l].phase.todo
    ensures u.id < |Result(w, a).entries| && Result(w, a).entries[u.id].conn.closes == 0
  {
    var all := w.loops[l].phase.todo;
    assert u in all;
    ActionCloses(w, a, u.id);
    if EventOn(w, a, u.id).Some? && ClosingEvent(EventOn(w, a, u.id).value) {
      ClosingEventIsFirst(w, a, u.id);
      if a.l != l { PassesAreApart(w, l, a.l, u, w.loops[a.l].phase.todo[0]); }
    }
  }

  lemma ActionTodoOk(w: World, a: Action, l: nat)
    requires Polite(w) && Allowed(w, a) && Courteous(a) && l < |w.loops| == |Result(w, a).loops|
    requires Result(w, a).loops[l].phase.Passing?
    ensures TodoOk(Result(w, a), Result(w, a).loops[l].phase.todo)
  {
    var todo := Result(w, a).loops[l].phase.todo;
    if a.PollReturns? && a.l == l {
      PollTodoOk(w, l, a.report);
    } else {
      if a.MakeCall? && a.l == l {
        CalledPassClosesOnce(w, l, a.r, a.wr);
      } else {
        OtherActionsKeepPass(w, a, l);
      }
      var was := w.loops[l].phase.todo;
      assert TodoOk(w, was);
      forall u | u in todo && Closing(u)
        ensures u.id < |Result(w, a).entries| && Result(w, a).entries[u.id].conn.closes == 0
      {
        TodoSurvives(w, a, l, if a.MakeCall? && a.l == l then was[1..] else was, u);
      }
    }
  }

  lemma ActionIsPolite(w: World, a: Action)
    requires Polite(w) && Allowed(w, a) && Courteous(a)
    ensures Polite(Result(w, a))
  {
    var t := Result(w, a);
    ActionIsSafe(w, a);
    LoopsStay(w, [a]);
    forall id | 0 <= id < |t.entries| ensures LifeOk(t.entries[id].conn) {
      if id < |w.entries| {
        ActionProceeds(w, a, id);
      } else {
        AcceptedIsLifeOk(a.config);
      }
    }
    forall l | 0 <= l < |t.loops| && t.loops[l].phase.Passing? ensures TodoOk(t, t.loops[l].phase.todo) {
      ActionTodoOk(w, a, l);
    }
  }

  // ---------------------------------------------------------------------------
  // Whole runs

  lemma {:induction false} RunsArePolite(w: World, acts: seq<Action>)
    requires Polite(w) && Feasible(w, acts) && forall a <- acts :: Courteous(a)
    ensures Polite(Outcome(w, acts)) && |Outcome(w, acts).entries| >= |w.entries|
    ensures forall id :: 0 <= id < |w.entries| ==> Proceeds(w.entries[id].conn, Outcome(w, acts).entries[id].conn)
    decreases |acts|
  {
    if acts != [] {
      var t := Result(w, acts[0]);
      ActionIsPolite(w, acts[0]);
      EntriesOnlyGrow(w, acts[0]);
      RunsArePolite(t, acts[1..]);
      forall id | 0 <= id < |w.entries| ensures Proceeds(w.entries[id].conn, Outcome(w, acts).entries[id].conn) {
        ActionProceeds(w, acts[0], id);
      }
    }
  }

  /**
   Callbacks over whole runs, on every loop layout, with the server destroyed at any point: "down"
   fires at most once and only after the one "up", removal is asked for at most once, and from any
   moment to any later one the state only moves forward, and a connection that is closed writes
   nothing more and never returns to a kernel set.
   */
  lemma CallbacksFireOnceAndInOrder(numThreads: nat, acts: seq<Action>, later: seq<Action>)
    requires Feasible(Startup(numThreads), acts) && Feasible(Outcome(Startup(numThreads), acts), later)
    requires forall a <- acts + later :: Courteous(a)
    ensures var w := Outcome(Startup(numThreads), acts);
            var t := Outcome(w, later);
            && |t.entries| >= |w.entries|
            && (forall id :: 0 <= id < |w.entries| ==>
                  var c, d := w.entries[id].conn, t.entries[id].conn;
                  && c.closes <= c.downs <= c.ups <= 1
                  && Rank(c.state) <= Rank(d.state)
                  && (c.closes > 0 ==> d.wire == c.wire && d.slot.kernel.None?))
  {
    RunsArePolite(Startup(numThreads), acts);
    RunsArePolite(Outcome(Startup(numThreads), acts), later);
  }
}
