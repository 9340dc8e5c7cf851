/**
 The functor queue and wakeup protocol of EventLoop.cc, as an interleaving of one loop thread with
 any number of other threads. Each label is one atomic action of one thread: the critical section
 of queueInLoop, the store to quit_, the write to the eventfd, one phase of loop().
 */
module LoopMachine {

  /** pendingFunctors_, and the part of the swapped-out vector that doPendingFunctors has not run yet. */
  datatype Queue<F> = Queue(pending: seq<F>, batch: seq<F>) {
    function Push(f: F): Queue<F> {
      Queue(pending + [f], batch)
    }

    function Swap(): Queue<F> {
      Queue([], pending)
    }

    function Pop(): Queue<F>
      requires batch != []
    {
      Queue(pending, batch[1..])
    }

    /** Everything not yet run, in the order it will run. */
    function All(): seq<F> {
      batch + pending
    }
  }

  /** Another thread between its store (functor or quit_) and its wakeup(). */
  datatype Pc = Pushed | QuitStored

  /** Where the loop thread is; Idle is outside loop(). Polling is inside epoll_wait. */
  datatype Phase = Idle | Check | Polling | Dispatching(woken: bool) | Swapping | Running

  datatype Machine<!F> = Machine(
    phase: Phase,
    queue: Queue<F>,
    calling: bool,          // callingPendingFunctors_
    quit: bool,
    counter: nat,           // the eventfd
    ownerWakes: bool,       // the loop thread itself is between push and wakeup
    threads: map<nat, Pc>,  // other threads inside queueInLoop or quit
    pushed: seq<F>,         // history: every functor, in push order
    executed: seq<F>)       // history: every functor run

  datatype Label<F> =
    | Start | CheckQuit | PollReturn(woken: bool) | ReadEventfd | EndDispatch | Swap | RunNext | EndBatch
    | OwnerPush(f: F) | OwnerWake | OwnerQuit
    | Push(t: nat, f: F) | Quit(t: nat) | Wake(t: nat)

  /** User code runs on the loop thread: before loop(), in a channel callback, or in a functor. */
  predicate OwnerRunsUserCode<F>(s: Machine<F>) {
    (s.phase.Idle? || s.phase.Dispatching? || s.phase.Running?) && !s.ownerWakes
  }

  /**
   epoll_wait may return at any time (timeout, other descriptors, a full event list), but it reports
   the eventfd only when its counter is positive.
   */
  predicate Enabled<F>(s: Machine<F>, l: Label<F>) {
    match l
    case Start => s.phase.Idle?
    case CheckQuit => s.phase.Check?
    case PollReturn(woken) => s.phase.Polling? && (woken ==> s.counter > 0)
    case ReadEventfd => s.phase == Dispatching(true) && !s.ownerWakes
    case EndDispatch => s.phase == Dispatching(false) && !s.ownerWakes
    case Swap => s.phase.Swapping?
    case RunNext => s.phase.Running? && s.queue.batch != [] && !s.ownerWakes
    case EndBatch => s.phase.Running? && s.queue.batch == [] && !s.ownerWakes
    case OwnerPush(_) => OwnerRunsUserCode(s)
    case OwnerWake => s.ownerWakes
    case OwnerQuit => OwnerRunsUserCode(s)
    case Push(t, _) => t !in s.threads
    case Quit(t) => t !in s.threads
    case Wake(t) => t in s.threads
  }

  function Next<F>(s: Machine<F>, l: Label<F>): Machine<F>
    requires Enabled(s, l)
  {
    match l
    case Start => s.(phase := Check, quit := false)
    case CheckQuit => s.(phase := if s.quit then Idle else Polling)
    case PollReturn(woken) => s.(phase := Dispatching(woken))
    case ReadEventfd => s.(phase := Dispatching(false), counter := 0)
    case EndDispatch => s.(phase := Swapping, calling := true)
    case Swap => s.(phase := Running, queue := s.queue.Swap())
    case RunNext => s.(executed := s.executed + [s.queue.batch[0]], queue := s.queue.Pop())
    case EndBatch => s.(phase := Check, calling := false)
    case OwnerPush(f) => s.(queue := s.queue.Push(f), pushed := s.pushed + [f], ownerWakes := s.calling)
    case OwnerWake => s.(counter := s.counter + 1, ownerWakes := false)
    case OwnerQuit => s.(quit := true)
    case Push(t, f) => s.(queue := s.queue.Push(f), pushed := s.pushed + [f], threads := s.threads[t := Pushed])
    case Quit(t) => s.(quit := true, threads := s.threads[t := QuitStored])
    case Wake(t) => s.(counter := s.counter + 1, threads := s.threads - {t})
  }

  ghost predicate Possible<F>(s: Machine<F>, ls: seq<Label<F>>)
    decreases |ls|
  {
    ls == [] || (Enabled(s, ls[0]) && Possible(Next(s, ls[0]), ls[1..]))
  }

  ghost function Reached<F>(s: Machine<F>, ls: seq<Label<F>>): Machine<F>
    requires Possible(s, ls)
    decreases |ls|
  {
    if ls == [] then s else Reached(Next(s, ls[0]), ls[1..])
  }

  lemma {:induction false} PossibleAppend<F>(s: Machine<F>, ls: seq<Label<F>>, ms: seq<Label<F>>)
    requires Possible(s, ls) && Possible(Reached(s, ls), ms)
    ensures Possible(s, ls + ms) && Reached(s, ls + ms) == Reached(Reached(s, ls), ms)
    decreases |ls|
  {
    if ls == [] {
      assert ls + ms == ms;
    } else {
      assert (ls + ms)[1..] == ls[1..] + ms;
      PossibleAppend(Next(s, ls[0]), ls[1..], ms);
    }
  }

  // ---------------------------------------------------------------------------
  // First in, first out, exactly once

  ghost predicate WellFormed<F>(s: Machine<F>) {
    && (s.calling <==> s.phase.Swapping? || s.phase.Running?)
    && (s.queue.batch != [] ==> s.phase.Running?)
    && (s.ownerWakes ==> s.phase.Running?)
    && s.executed + s.queue.All() == s.pushed
  }

  function Fresh<F>(): Machine<F> {
    Machine(Idle, Queue([], []), false, false, 0, false, map[], [], [])
  }

  lemma StepKeepsOrder<F>(s: Machine<F>, l: Label<F>)
    requires WellFormed(s) && Enabled(s, l)
    ensures WellFormed(Next(s, l))
    ensures s.executed <= Next(s, l).executed && s.pushed <= Next(s, l).pushed
  {
    var t := Next(s, l);
    match l
    case Swap => assert t.queue.All() == s.queue.All();
    case RunNext => assert [s.queue.batch[0]] + t.queue.All() == s.queue.All();
    case OwnerPush(f) => assert t.queue.All() == s.queue.All() + [f];
    case Push(_, f) => assert t.queue.All() == s.queue.All() + [f];
    case _ =>
  }

  /**
   In every interleaving, what has run, the rest of the current batch and the pending functors are
   together the push order: nothing is lost, repeated or overtaken, pushes by running functors
   included. Outside loop() what has run is a prefix of what was pushed, and the rest is pending.
   */
  lemma {:induction false} FunctorsRunInOrderExactlyOnce<F>(s: Machine<F>, ls: seq<Label<F>>)
    requires WellFormed(s) && Possible(s, ls)
    ensures var t := Reached(s, ls);
            && WellFormed(t)
            && t.executed + t.queue.batch + t.queue.pending == t.pushed
            && s.executed <= t.executed && s.pushed <= t.pushed
            && (!t.phase.Running? ==> t.executed + t.queue.pending == t.pushed)
    decreases |ls|
  {
    if ls == [] {
      assert s.executed + s.queue.batch + s.queue.pending == s.executed + s.queue.All();
    } else {
      StepKeepsOrder(s, ls[0]);
      FunctorsRunInOrderExactlyOnce(Next(s, ls[0]), ls[1..]);
    }
  }

  // ---------------------------------------------------------------------------
  // No stranded functor

  /** The run never leaves loop(). */
  ghost predicate Inside<F>(s: Machine<F>, ls: seq<Label<F>>): (inside: bool)
    ensures inside ==> Possible(s, ls)
    decreases |ls|
  {
    && !s.phase.Idle?
    && (ls == [] || (Enabled(s, ls[0]) && Inside(Next(s, ls[0]), ls[1..])))
  }

  /** A wakeup is on its way: the eventfd is readable, or a thread that pushed has yet to write it. */
  predicate WakeComing<F>(s: Machine<F>) {
    s.counter > 0 || s.ownerWakes || exists t <- s.threads :: s.threads[t].Pushed?
  }

  /** Past poll, before this iteration's swap. */
  predicate BeforeSwap<F>(s: Machine<F>) {
    s.phase.Dispatching? || s.phase.Swapping?
  }

  predicate NotStranded<F>(s: Machine<F>) {
    s.queue.pending != [] ==> BeforeSwap(s) || WakeComing(s)
  }

  lemma StepStrandsNothing<F>(s: Machine<F>, l: Label<F>)
    requires WellFormed(s) && NotStranded(s) && !s.phase.Idle? && Enabled(s, l)
    ensures NotStranded(Next(s, l))
  {
    var n := Next(s, l);
    if !BeforeSwap(s) && s.queue.pending != [] && s.counter == 0 && !s.ownerWakes {
      var t :| t in s.threads && s.threads[t].Pushed?;
      assert n.counter > 0 || (t in n.threads && n.threads[t].Pushed?) || BeforeSwap(n) || n.queue.pending == [];
    }
    match l
    case Push(t, _) => assert t in n.threads && n.threads[t].Pushed?;
    case _ =>
  }

  lemma {:induction false} RunStrandsNothing<F>(s: Machine<F>, ls: seq<Label<F>>)
    requires WellFormed(s) && NotStranded(s) && Inside(s, ls)
    ensures NotStranded(Reached(s, ls))
    decreases |ls|
  {
    if ls != [] {
      StepStrandsNothing(s, ls[0]);
      StepKeepsOrder(s, ls[0]);
      RunStrandsNothing(Next(s, ls[0]), ls[1..]);
    }
  }

  /**
   No functor is stranded at any moment of any run of loop(), exactly when at its start nothing is
   pending or a wakeup is coming. A functor the owner queued before loop() breaks it: queueInLoop
   does not write the eventfd then.
   */
  lemma NoFunctorIsStrandedExactly<F(!new)>(s: Machine<F>)
    requires WellFormed(s) && s.phase.Idle?
    ensures (forall ls :: Inside(Next(s, Start), ls) ==>
                            Possible(s, [Start] + ls) && NotStranded(Reached(s, [Start] + ls)))
       <==> (s.queue.pending == [] || WakeComing(s))
  {
    var s1 := Next(s, Start);
    assert WakeComing(s1) <==> WakeComing(s);
    if s.queue.pending == [] || WakeComing(s) {
      forall ls | Inside(s1, ls) ensures Possible(s, [Start] + ls) && NotStranded(Reached(s, [Start] + ls)) {
        assert ([Start] + ls)[1..] == ls;
        RunStrandsNothing(s1, ls);
      }
    } else {
      var ls := [CheckQuit];
      assert Inside(Next(s1, CheckQuit), ls[1..]) && Inside(s1, ls);
      assert ([Start] + ls)[1..] == ls;
      assert Possible(Next(s1, CheckQuit), ls[1..]);
      assert Reached(s, [Start] + ls) == Reached(s1, ls) == Next(s1, CheckQuit);
    }
  }

  // ---------------------------------------------------------------------------
  // The eventfd

  predicate Wakes<F>(l: Label<F>) {
    l.Wake? || l.OwnerWake?
  }

  /** The wakeups of the run since its last read of the eventfd, or all of them. */
  function WakesSinceRead<F(==)>(ls: seq<Label<F>>): nat {
    if ls == [] then 0
    else if ReadEventfd in ls[1..] then WakesSinceRead(ls[1..])
    else (if Wakes(ls[0]) then 1 else 0) + WakesSinceRead(ls[1..])
  }

  /** On every run the counter is the wakeups since the last read, on top of the initial count if there was none. */
  lemma {:induction false} CounterCountsWakeups<F>(s: Machine<F>, ls: seq<Label<F>>)
    requires Possible(s, ls)
    ensures Reached(s, ls).counter == WakesSinceRead(ls) + if ReadEventfd in ls then 0 else s.counter
    decreases |ls|
  {
    if ls != [] {
      assert ReadEventfd in ls <==> ls[0] == ReadEventfd || ReadEventfd in ls[1..];
      CounterCountsWakeups(Next(s, ls[0]), ls[1..]);
    }
  }

  lemma {:induction false} NoWakes<F>(ls: seq<Label<F>>)
    requires forall l <- ls :: !Wakes(l)
    ensures WakesSinceRead(ls) == 0
  {
    if ls != [] {
      NoWakes(ls[1..]);
    }
  }

  /** So a loop that nobody has woken since it read its eventfd does not return from poll woken again. */
  lemma UnwokenLoopSleeps<F>(s: Machine<F>, ls: seq<Label<F>>)
    requires Possible(s, [ReadEventfd] + ls) && forall l <- ls :: !Wakes(l)
    ensures Reached(s, [ReadEventfd] + ls).counter == 0
    ensures !Enabled(Reached(s, [ReadEventfd] + ls), PollReturn(true))
  {
    CounterCountsWakeups(s, [ReadEventfd] + ls);
    NoWakes([ReadEventfd] + ls);
  }

  // ---------------------------------------------------------------------------
  // Quit

  /** The run's last word on quit_, if it has one: stored, or cleared by loop() starting. */
  function QuitAfter<F>(quit: bool, ls: seq<Label<F>>): bool
    decreases |ls|
  {
    if ls == [] then quit
    else QuitAfter(if ls[0].OwnerQuit? || ls[0].Quit? then true else if ls[0].Start? then false else quit, ls[1..])
  }

  /** quit_ is set exactly by quit(), and cleared exactly by the start of loop(). */
  lemma {:induction false} QuitIsStoredExactly<F>(s: Machine<F>, ls: seq<Label<F>>)
    requires Possible(s, ls)
    ensures Reached(s, ls).quit == QuitAfter(s.quit, ls)
    decreases |ls|
  {
    if ls != [] {
      QuitIsStoredExactly(Next(s, ls[0]), ls[1..]);
    }
  }

  /** Parked with quit_ set, the loop has a wakeup in the eventfd or on its way from the quitting thread. */
  predicate QuitHeard<F>(s: Machine<F>) {
    s.phase.Polling? && s.quit ==> s.counter > 0 || exists t <- s.threads :: s.threads[t].QuitStored?
  }

  lemma StepHearsQuit<F>(s: Machine<F>, l: Label<F>)
    requires WellFormed(s) && QuitHeard(s) && Enabled(s, l)
    ensures QuitHeard(Next(s, l))
  {
    var n := Next(s, l);
    if s.phase.Polling? && s.quit && s.counter == 0 {
      var t :| t in s.threads && s.threads[t].QuitStored?;
      assert n.counter > 0 || !n.phase.Polling? || (t in n.threads && n.threads[t].QuitStored?);
    }
    match l
    case Quit(t) => assert t in n.threads && n.threads[t].QuitStored?;
    case _ =>
  }

  lemma {:induction false} QuitStaysHeard<F>(s: Machine<F>, ls: seq<Label<F>>)
    requires WellFormed(s) && QuitHeard(s) && Inside(s, ls)
    ensures QuitHeard(Reached(s, ls))
    ensures s.quit ==> Reached(s, ls).quit
    ensures s.quit && !s.phase.Polling? ==> !Reached(s, ls).phase.Polling?
    decreases |ls|
  {
    if ls != [] {
      StepHearsQuit(s, ls[0]);
      StepKeepsOrder(s, ls[0]);
      QuitStaysHeard(Next(s, ls[0]), ls[1..]);
    }
  }

  /**
   At every moment of every run of loop(): parked with quit_ set, the loop has a wakeup in the eventfd
   or on its way; and from any moment to any later one a quit_ that is set stays set until loop()
   returns, poll not being entered again.
   */
  lemma QuitIsNotLost<F>(s: Machine<F>, ls: seq<Label<F>>, ms: seq<Label<F>>)
    requires WellFormed(s) && s.phase.Idle? && Inside(Next(s, Start), ls)
    requires Inside(Reached(Next(s, Start), ls), ms)
    ensures var m := Reached(Next(s, Start), ls);
            var n := Reached(m, ms);
            && QuitHeard(m)
            && (m.quit ==> n.quit && (!m.phase.Polling? ==> !n.phase.Polling?))
  {
    var s1 := Next(s, Start);
    StepKeepsOrder(s, Start);
    QuitStaysHeard(s1, ls);
    FunctorsRunInOrderExactlyOnce(s1, ls);
    QuitStaysHeard(Reached(s1, ls), ms);
  }

  /** loop() clears quit_ first: a quit() made before it is lost, and the loop parks. */
  lemma QuitBeforeLoopIsLost<F>(s: Machine<F>, t: nat)
    requires s.phase.Idle? && t !in s.threads
    ensures var ls: seq<Label<F>> := [Quit(t), Start, CheckQuit];
            Possible(s, ls) && Reached(s, ls).phase.Polling? && !Reached(s, ls).quit
  {
    var ls: seq<Label<F>> := [Quit(t), Start, CheckQuit];
    var s1 := Next(s, Quit(t));
    var s2 := Next(s1, Start);
    assert ls[1..] == [Start, CheckQuit] && ls[1..][1..] == [CheckQuit] && ls[1..][1..][1..] == [];
    assert Possible(s2, [CheckQuit]) && Reached(s2, [CheckQuit]) == Next(s2, CheckQuit);
  }

  /** Everything pushed before this moment has run whenever the loop is next at its quit_ test. */
  ghost predicate DrainsBeforeTest<F(!new)>(s: Machine<F>) {
    forall ls :: Inside(s, ls) && Reached(s, ls).phase.Check? ==> |s.pushed| <= |Reached(s, ls).executed|
  }

  /**
   A quit() inside loop() leaves no earlier functor behind exactly when it comes between poll and
   swap or in poll itself, or when nothing is pending: functors pushed during the last batch are not run.
   */
  lemma QuitRunsEarlierFunctorsExactly<F(!new)>(s: Machine<F>)
    requires WellFormed(s) && !s.phase.Idle? && s.quit
    ensures DrainsBeforeTest(s) <==> s.phase.Polling? || BeforeSwap(s) || s.queue.pending == []
  {
    if s.phase.Polling? || BeforeSwap(s) || s.queue.pending == [] {
      forall ls | Inside(s, ls) && Reached(s, ls).phase.Check?
        ensures |s.pushed| <= |Reached(s, ls).executed|
      {
        BatchCoversEarlier(s, ls, |s.pushed|);
      }
    } else {
      var ls := FinishBatch(s);
      assert |Reached(s, ls).executed| == |s.pushed| - |s.queue.pending|;
    }
  }

  /** The first `k` functors are run, in the batch, or about to be swapped in. */
  predicate Covered<F>(s: Machine<F>, k: nat) {
    s.phase.Polling? || BeforeSwap(s) || k <= |s.executed| + |s.queue.batch|
  }

  lemma {:induction false} BatchCoversEarlier<F>(s: Machine<F>, ls: seq<Label<F>>, k: nat)
    requires WellFormed(s) && s.quit && k <= |s.pushed| && Covered(s, k)
    requires Inside(s, ls) && Reached(s, ls).phase.Check?
    ensures k <= |Reached(s, ls).executed|
    decreases |ls|
  {
    if ls != [] {
      StepKeepsOrder(s, ls[0]);
      BatchCoversEarlier(Next(s, ls[0]), ls[1..], k);
    }
  }

  /** A schedule that only finishes the current batch. */
  lemma {:induction false} FinishBatch<F>(s: Machine<F>) returns (ls: seq<Label<F>>)
    requires WellFormed(s) && (s.phase.Running? || s.phase.Check?)
    ensures Inside(s, ls) && Reached(s, ls).phase.Check?
    ensures |Reached(s, ls).executed| == |s.executed| + |s.queue.batch|
    decreases s.phase.Running?, |s.queue.batch|, s.ownerWakes
  {
    if s.phase.Check? {
      ls := [];
    } else {
      var l := if s.ownerWakes then OwnerWake else if s.queue.batch != [] then RunNext else EndBatch;
      StepKeepsOrder(s, l);
      var rest := FinishBatch(Next(s, l));
      ls := [l] + rest;
      assert ls[1..] == rest;
    }
  }
}
