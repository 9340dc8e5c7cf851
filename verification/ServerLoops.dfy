/**
 Each loop of module Server is a run of the machine of module LoopMachine: its waits, passes, batches
 and the functors posted to it from its own thread or another are labels of that machine. So what is
 proved of EventLoop there holds of every loop of the server.
 */
module ServerLoops {
  import opened Epoll
  import opened ByteBuffer
  import opened Connection
  import opened LoopMachine
  import opened Server
  import opened ServerSafety

  type LoopRun = seq<Label<Functor>>

  /** The machine is where the loop is; a waiting loop is in poll. */
  predicate Matches(loop: Loop, m: Machine<Functor>) {
    && m.queue == loop.queue && !m.quit && !m.ownerWakes && m.threads == map[]
    && match loop.phase
       case Waiting => m.phase.Polling?
       case Passing(_, _, _) => m.phase == Dispatching(false)
       case Batch => m.phase.Running?
  }

  /** The functor the action posts to loop l. */
  ghost function Posts(w: World, a: Action, l: nat): Option<Functor>
    requires Allowed(w, a)
  {
    match a
    case DoAccept(_, _) =>
      if l != 0 && l == Placement(|w.entries|, |w.loops|) then Some(RunEstablished(|w.entries|)) else None
    case MakeCall(k, _, _) =>
      var t := w.loops[k].phase.todo[0];
      if !t.DoNotify? then None
      else if k != 0 then (if l == 0 then Some(RunRemove(t.id)) else None)
      else PostsDestroyed(w, t.id, l)
    case RunOne(k) =>
      var f := w.loops[k].queue.batch[0];
      if f.RunRemove? then PostsDestroyed(w, f.id, l) else None
    case SendPushes(id, data, wr) =>
      if w.entries[id].loop == l then Some(RunLate(id, LateSend(data, wr))) else None
    case ShutdownPushes(id) => if w.entries[id].loop == l then Some(RunLate(id, LateShutdown)) else None
    case DestroyServerItem(id) => if l == 0 then None else PostsDestroyed(w, id, l)
    case _ => None
  }

  function PostsDestroyed(w: World, id: nat, l: nat): Option<Functor>
    requires id < |w.entries|
  {
    if w.entries[id].loop == l then Some(RunDestroyed(id)) else None
  }

  predicate RunsOn(a: Action, l: nat) {
    a.RunOne? && a.l == l
  }

  function Pushed(q: Queue<Functor>, f: Option<Functor>): Queue<Functor> {
    if f.Some? then q.Push(f.value) else q
  }

  /** What the action does to the loop's queue before it posts anything. */
  function Moved(q: Queue<Functor>, a: Action, l: nat): Queue<Functor>
    requires RunsOn(a, l) ==> q.batch != []
  {
    if RunsOn(a, l) then q.Pop() else if a == PassEnds(l) then q.Swap() else q
  }

  function PhaseAfter(p: LoopPhase, a: Action, l: nat): LoopPhase {
    if a.PollReturns? && a.l == l then Passing({}, [], None)
    else if a == PassEnds(l) then Batch
    else if a == BatchEnds(l) then Waiting
    else p
  }

  predicate SameKind(p: LoopPhase, q: LoopPhase) {
    (p.Waiting? <==> q.Waiting?) && (p.Passing? <==> q.Passing?)
  }

  lemma PostAndPopCommute(q: Queue<Functor>, f: Functor)
    requires q.batch != []
    ensures q.Push(f).batch != [] && q.Push(f).Pop() == q.Pop().Push(f)
  {
  }

  /** What the action makes of loop l. */
  ghost predicate MovesLoop(w: World, a: Action, l: nat)
    requires Allowed(w, a) && l < |w.loops|
  {
    && l < |Result(w, a).loops|
    && Result(w, a).loops[l].queue == Pushed(Moved(w.loops[l].queue, a, l), Posts(w, a, l))
    && SameKind(Result(w, a).loops[l].phase, PhaseAfter(w.loops[l].phase, a, l))
  }

  lemma NotifyMovesLoop(w: World, k: nat, r: ReadResult, wr: WriteResult, l: nat)
    requires Allowed(w, MakeCall(k, r, wr)) && w.loops[k].phase.todo[0].DoNotify? && l < |w.loops|
    ensures MovesLoop(w, MakeCall(k, r, wr), l)
  {
  }

  lemma CallMovesLoop(w: World, k: nat, r: ReadResult, wr: WriteResult, l: nat)
    requires Allowed(w, MakeCall(k, r, wr)) && l < |w.loops|
    ensures MovesLoop(w, MakeCall(k, r, wr), l)
  {
    if w.loops[k].phase.todo[0].DoNotify? { NotifyMovesLoop(w, k, r, wr, l); }
  }

  lemma RunMovesLoop(w: World, k: nat, l: nat)
    requires Safe(w) && Allowed(w, RunOne(k)) && l < |w.loops|
    ensures MovesLoop(w, RunOne(k), l)
  {
    HeadEstablishes(w, k);
    var f := Posts(w, RunOne(k), l);
    if f.Some? && k == l { PostAndPopCommute(w.loops[l].queue, f.value); }
  }

  lemma OffLoopMovesLoop(w: World, a: Action, l: nat)
    requires Allowed(w, a) && IsOffLoop(a) && l < |w.loops|
    ensures MovesLoop(w, a, l)
  {
  }

  /** Actions of the base loop's thread on whatever loop the connection is placed. */
  lemma ServerMovesLoop(w: World, a: Action, l: nat)
    requires Allowed(w, a) && (a.DoAccept? || a.DestroyServerItem?) && l < |w.loops|
    ensures MovesLoop(w, a, l)
  {
  }

  lemma OwnMovesLoop(w: World, a: Action, l: nat)
    requires Allowed(w, a) && (a.PollReturns? || a.PassEnds? || a.BatchEnds? || a.UserCalls?) && l < |w.loops|
    ensures MovesLoop(w, a, l)
  {
  }

  lemma ActionMovesLoop(w: World, a: Action, l: nat)
    requires Safe(w) && Allowed(w, a) && l < |w.loops|
    ensures MovesLoop(w, a, l)
  {
    if a.RunOne? {
      RunMovesLoop(w, a.l, l);
    } else if a.MakeCall? {
      CallMovesLoop(w, a.l, a.r, a.wr, l);
    } else if a.DoAccept? || a.DestroyServerItem? {
      ServerMovesLoop(w, a, l);
    } else if IsOffLoop(a) {
      OffLoopMovesLoop(w, a, l);
    } else {
      OwnMovesLoop(w, a, l);
    }
  }

  // ---------------------------------------------------------------------------
  // The labels

  function MoveLabels(a: Action, l: nat, m: Machine<Functor>): LoopRun {
    if a.PollReturns? && a.l == l then (if m.counter > 0 then [PollReturn(true), ReadEventfd] else [PollReturn(false)])
    else if a == PassEnds(l) then [EndDispatch, Swap]
    else if RunsOn(a, l) then [RunNext]
    else if a == BatchEnds(l) then [EndBatch, CheckQuit]
    else []
  }

  /** A callback posts from dispatch, a functor from a batch, and everything else from another thread. */
  function PostLabels(a: Action, l: nat, f: Option<Functor>): LoopRun {
    if f.None? then []
    else if a.MakeCall? && a.l == l then [OwnerPush(f.value)]
    else if RunsOn(a, l) then [OwnerPush(f.value), OwnerWake]
    else [Push(0, f.value), Wake(0)]
  }

  lemma {:induction false} InsideAppend(m: Machine<Functor>, ls: LoopRun, ms: LoopRun)
    requires Inside(m, ls) && Inside(Reached(m, ls), ms)
    ensures Inside(m, ls + ms) && Reached(m, ls + ms) == Reached(Reached(m, ls), ms)
    decreases |ls|
  {
    if ls == [] {
      assert ls + ms == ms;
    } else {
      assert (ls + ms)[1..] == ls[1..] + ms;
      InsideAppend(Next(m, ls[0]), ls[1..], ms);
    }
  }

  lemma InsideOne(m: Machine<Functor>, x: Label<Functor>)
    requires WellFormed(m) && Enabled(m, x) && !m.phase.Idle? && !Next(m, x).phase.Idle?
    ensures Inside(m, [x]) && Reached(m, [x]) == Next(m, x) && WellFormed(Next(m, x))
  {
    StepKeepsOrder(m, x);
    assert [x][1..] == [];
    assert Inside(Next(m, x), []);
  }

  lemma InsideTwo(m: Machine<Functor>, x: Label<Functor>, y: Label<Functor>)
    requires WellFormed(m) && Enabled(m, x) && !m.phase.Idle? && !Next(m, x).phase.Idle?
    requires Enabled(Next(m, x), y) && !Next(Next(m, x), y).phase.Idle?
    ensures Inside(m, [x, y]) && Reached(m, [x, y]) == Next(Next(m, x), y) && WellFormed(Next(Next(m, x), y))
  {
    InsideOne(m, x);
    InsideOne(Next(m, x), y);
    InsideAppend(m, [x], [y]);
    assert [x] + [y] == [x, y];
  }

  /** The loop after its own move, before anything is posted to it. */
  function MovedLoop(loop: Loop, a: Action, l: nat): Loop
    requires RunsOn(a, l) ==> loop.queue.batch != []
  {
    loop.(queue := Moved(loop.queue, a, l), phase := PhaseAfter(loop.phase, a, l))
  }

  ghost predicate MoveAllowed(loop: Loop, a: Action, l: nat) {
    && (a.PollReturns? && a.l == l ==> loop.phase.Waiting?)
    && (a == PassEnds(l) ==> loop.phase.Passing?)
    && (RunsOn(a, l) ==> loop.phase.Batch? && loop.queue.batch != [])
    && (a == BatchEnds(l) ==> loop.phase.Batch? && loop.queue.batch == [])
  }

  lemma MoveMatches(loop: Loop, a: Action, l: nat, m: Machine<Functor>)
    requires WellFormed(m) && Matches(loop, m) && MoveAllowed(loop, a, l)
    ensures Inside(m, MoveLabels(a, l, m))
    ensures var n := Reached(m, MoveLabels(a, l, m));
            && WellFormed(n) && Matches(MovedLoop(loop, a, l), n) && n.pushed == m.pushed
            && n.executed == m.executed + if RunsOn(a, l) then [loop.queue.batch[0]] else []
  {
    if a.PollReturns? && a.l == l {
      if m.counter > 0 { InsideTwo(m, PollReturn(true), ReadEventfd); } else { InsideOne(m, PollReturn(false)); }
    } else if a == PassEnds(l) {
      InsideTwo(m, EndDispatch, Swap);
    } else if RunsOn(a, l) {
      InsideOne(m, RunNext);
    } else if a == BatchEnds(l) {
      InsideTwo(m, EndBatch, CheckQuit);
    }
  }

  lemma PostMatches(loop: Loop, a: Action, l: nat, m: Machine<Functor>, f: Option<Functor>)
    requires WellFormed(m) && Matches(loop, m)
    requires f.Some? && a.MakeCall? && a.l == l ==> loop.phase.Passing?
    requires f.Some? && RunsOn(a, l) ==> loop.phase.Batch?
    ensures Inside(m, PostLabels(a, l, f))
    ensures var n := Reached(m, PostLabels(a, l, f));
            && WellFormed(n) && Matches(loop.(queue := Pushed(loop.queue, f)), n) && n.executed == m.executed
            && n.pushed == m.pushed + if f.Some? then [f.value] else []
  {
    if f.Some? {
      if a.MakeCall? && a.l == l {
        InsideOne(m, OwnerPush(f.value));
      } else if RunsOn(a, l) {
        InsideTwo(m, OwnerPush(f.value), OwnerWake);
      } else {
        InsideTwo(m, Push(0, f.value), Wake(0));
        assert m.threads[0 := Pc.Pushed] - {0} == m.threads;
      }
    }
  }

  /** What the action runs on loop l, and posts to it. */
  ghost function Runs(w: World, a: Action, l: nat): seq<Functor>
    requires Allowed(w, a)
  {
    if RunsOn(a, l) then [w.loops[l].queue.batch[0]] else []
  }

  ghost function PostsSeq(w: World, a: Action, l: nat): seq<Functor>
    requires Allowed(w, a)
  {
    if Posts(w, a, l).Some? then [Posts(w, a, l).value] else []
  }

  /** The machine has gone by `ls` from `m` to where the loop is, having run and been pushed these functors. */
  ghost predicate Tracks(m: Machine<Functor>, ls: LoopRun, loop: Loop, ran: seq<Functor>, posted: seq<Functor>) {
    Inside(m, ls) && var n := Reached(m, ls);
    && WellFormed(n) && Matches(loop, n) && n.executed == m.executed + ran && n.pushed == m.pushed + posted
  }

  lemma ActionIsRun(w: World, a: Action, l: nat, m: Machine<Functor>) returns (ls: LoopRun)
    requires Safe(w) && Allowed(w, a) && l < |w.loops| && WellFormed(m) && Matches(w.loops[l], m)
    ensures l < |Result(w, a).loops| && Tracks(m, ls, Result(w, a).loops[l], Runs(w, a, l), PostsSeq(w, a, l))
  {
    var loop := w.loops[l];
    assert LoopOk(w, l);
    ActionMovesLoop(w, a, l);
    MoveMatches(loop, a, l, m);
    var moves := MoveLabels(a, l, m);
    var posts := PostLabels(a, l, Posts(w, a, l));
    PostMatches(MovedLoop(loop, a, l), a, l, Reached(m, moves), Posts(w, a, l));
    InsideAppend(m, moves, posts);
    ls := moves + posts;
  }

  lemma TracksOn(m: Machine<Functor>, ls: LoopRun, loop: Loop, ran: seq<Functor>, posted: seq<Functor>,
                 ms: LoopRun, loop2: Loop, ran2: seq<Functor>, posted2: seq<Functor>)
    requires Tracks(m, ls, loop, ran, posted) && Tracks(Reached(m, ls), ms, loop2, ran2, posted2)
    ensures Tracks(m, ls + ms, loop2, ran + ran2, posted + posted2)
  {
    InsideAppend(m, ls, ms);
    Associates(m.executed, ran, ran2);
    Associates(m.pushed, posted, posted2);
  }

  // ---------------------------------------------------------------------------
  // Whole runs

  /** The functors posted to loop l over the run, in order, and those run on it. */
  ghost function Posted(w: World, acts: seq<Action>, l: nat): seq<Functor>
    requires Feasible(w, acts)
    decreases |acts|
  {
    if acts == [] then [] else
      PostsSeq(w, acts[0], l) + Posted(Result(w, acts[0]), acts[1..], l)
  }

  ghost function Ran(w: World, acts: seq<Action>, l: nat): seq<Functor>
    requires Feasible(w, acts)
    decreases |acts|
  {
    if acts == [] then [] else Runs(w, acts[0], l) + Ran(Result(w, acts[0]), acts[1..], l)
  }

  lemma {:induction false} RunIsMachineRun(w: World, acts: seq<Action>, l: nat, m: Machine<Functor>)
    returns (ls: LoopRun)
    requires Safe(w) && Feasible(w, acts) && l < |w.loops| && WellFormed(m) && Matches(w.loops[l], m)
    ensures l < |Outcome(w, acts).loops|
    ensures Tracks(m, ls, Outcome(w, acts).loops[l], Ran(w, acts, l), Posted(w, acts, l))
    decreases |acts|
  {
    ls := [];
    if acts != [] {
      var a, t := acts[0], Result(w, acts[0]);
      ls := ActionIsRun(w, a, l, m);
      ActionIsSafe(w, a);
      var rest := RunIsMachineRun(t, acts[1..], l, Reached(m, ls));
      TracksOn(m, ls, t.loops[l], Runs(w, a, l), PostsSeq(w, a, l),
               rest, Outcome(w, acts).loops[l], Ran(t, acts[1..], l), Posted(t, acts[1..], l));
      ls := ls + rest;
    }
  }

  /** The late functors among these, in order. */
  function Late(fs: seq<Functor>): seq<Functor> {
    if fs == [] then [] else (if fs[0].RunLate? then [fs[0]] else []) + Late(fs[1..])
  }

  lemma {:induction false} LateJoins(fs: seq<Functor>, gs: seq<Functor>)
    ensures Late(fs + gs) == Late(fs) + Late(gs)
  {
    if fs == [] {
      assert fs + gs == gs;
    } else {
      assert (fs + gs)[1..] == fs[1..] + gs;
      LateJoins(fs[1..], gs);
      Associates(if fs[0].RunLate? then [fs[0]] else [], Late(fs[1..]), Late(gs));
    }
  }

  /** What the end of a send() or shutdown() on another thread binds for the connection's loop. */
  function Bound(w: World, a: Action, l: nat): seq<Functor> {
    if a.SendPushes? && a.id < |w.entries| && w.entries[a.id].loop == l then [RunLate(a.id, LateSend(a.data, a.wr))]
    else if a.ShutdownPushes? && a.id < |w.entries| && w.entries[a.id].loop == l then [RunLate(a.id, LateShutdown)]
    else []
  }

  ghost function AllBound(w: World, acts: seq<Action>, l: nat): seq<Functor>
    requires Feasible(w, acts)
    decreases |acts|
  {
    if acts == [] then [] else Bound(w, acts[0], l) + AllBound(Result(w, acts[0]), acts[1..], l)
  }

  lemma LateOfOne(w: World, a: Action, l: nat)
    requires Allowed(w, a)
    ensures Late(PostsSeq(w, a, l)) == Bound(w, a, l)
  {
    var g := Posts(w, a, l);
    if g.Some? {
      assert [g.value][1..] == [];
      assert Late([g.value]) == (if g.value.RunLate? then [g.value] else []) + Late([]);
    }
  }

  /** On every run the sends and shutdowns of other threads reach their connection's loop, in order and once each. */
  lemma {:induction false} OffLoopCallsAreQueued(w: World, acts: seq<Action>, l: nat)
    requires Feasible(w, acts)
    ensures Late(Posted(w, acts, l)) == AllBound(w, acts, l)
    decreases |acts|
  {
    if acts != [] {
      LateOfOne(w, acts[0], l);
      OffLoopCallsAreQueued(Result(w, acts[0]), acts[1..], l);
      LateJoins(PostsSeq(w, acts[0], l), Posted(Result(w, acts[0]), acts[1..], l));
      assert Posted(w, acts, l) == PostsSeq(w, acts[0], l) + Posted(Result(w, acts[0]), acts[1..], l);
    }
  }

  /** loop() has been entered, and the loop waits in its first poll. */
  function Parked(): Machine<Functor> {
    Next(Next(Fresh(), Start), CheckQuit)
  }

  /**
   On every run of the server each loop goes through a run of EventLoop's machine that posts and runs
   the same functors: so they run in the order posted, exactly once, and none is stranded: a waiting
   loop with functors pending has been woken.
   */
  lemma EveryLoopRunsTheMachine(numThreads: nat, acts: seq<Action>, l: nat) returns (ls: LoopRun)
    requires Feasible(Startup(numThreads), acts) && l <= numThreads
    ensures l < |Outcome(Startup(numThreads), acts).loops| && Inside(Parked(), ls)
    ensures var loop, m := Outcome(Startup(numThreads), acts).loops[l], Reached(Parked(), ls);
            && Matches(loop, m) && NotStranded(m)
            && m.pushed == Posted(Startup(numThreads), acts, l) && m.executed == Ran(Startup(numThreads), acts, l)
            && Ran(Startup(numThreads), acts, l) + loop.queue.batch + loop.queue.pending
            == Posted(Startup(numThreads), acts, l)
            && (loop.phase.Waiting? && loop.queue.pending != [] ==> m.counter > 0)
  {
    StepKeepsOrder(Fresh<Functor>(), Start);
    StepKeepsOrder(Next(Fresh<Functor>(), Start), CheckQuit);
    ls := RunIsMachineRun(Startup(numThreads), acts, l, Parked());
    RunStrandsNothing(Parked(), ls);
    var m := Reached(Parked(), ls);
    assert m.executed + m.queue.batch + m.queue.pending == m.executed + m.queue.All();
  }
}
