/**
 The EventLoop object. Each method is the code of EventLoop.cc run by one thread without
 interruption, and is proved to be a run of the interleaving machine of module LoopMachine.
 */
module EventLoopObject {
  import Epoll
  import opened LoopMachine

  /** A functor that, when run, queues others and may quit the loop. */
  datatype Task = Task(id: nat, posts: seq<Task>, quits: bool)

  /** One return of poll: whether the eventfd is reported, and the user code its other channels run. */
  datatype Round = Round(wakeReported: bool, callbacks: seq<Task>)

  function AllPosts(tasks: seq<Task>): seq<Task> {
    if tasks == [] then [] else AllPosts(tasks[..|tasks| - 1]) + tasks[|tasks| - 1].posts
  }

  predicate AnyQuits(tasks: seq<Task>) {
    exists task <- tasks :: task.quits
  }

  lemma OneMoreTask(tasks: seq<Task>, i: nat)
    requires i < |tasks|
    ensures AllPosts(tasks[..i + 1]) == AllPosts(tasks[..i]) + tasks[i].posts
    ensures AnyQuits(tasks[..i + 1]) <==> AnyQuits(tasks[..i]) || tasks[i].quits
  {
    var more := tasks[..i + 1];
    assert more[..i] == tasks[..i] && more[i] == tasks[i];
    assert forall task <- more :: task in tasks[..i] || task == tasks[i];
    assert forall task <- tasks[..i] :: task in more;
    assert tasks[i] in more;
  }

  type Run = seq<Label<Task>>

  /** `m` is where the run takes the machine from `before`. */
  ghost predicate Moves(before: Machine<Task>, run: Run, m: Machine<Task>) {
    Possible(before, run) && m == Reached(before, run)
  }

  class EventLoop {
    const poller: Epoll.EPollPoller
    const wakeupChannel: Epoll.Channel
    var looping: bool
    var quit: bool
    var callingPendingFunctors: bool
    var pendingFunctors: seq<Task>
    var wakeupCounter: nat  // the eventfd behind wakeupFd_
    ghost var machine: Machine<Task>

    ghost predicate Valid()
      reads this
    {
      && WellFormed(machine)
      && machine.queue.pending == pendingFunctors
      && machine.calling == callingPendingFunctors
      && machine.quit == quit
      && machine.counter == wakeupCounter
      && (looping <==> !machine.phase.Idle?)
    }

    /** A new loop is idle, and already listens to its eventfd. */
    constructor (wakeupFd: int)
      ensures Valid() && machine == Fresh()
      ensures fresh(poller) && fresh(wakeupChannel) && wakeupChannel.Valid() && wakeupChannel.poller == poller
      ensures wakeupChannel.fd == wakeupFd && poller.SlotOf(wakeupChannel).kernel == Epoll.Some(Epoll.READ_EVENT)
    {
      looping, quit, callingPendingFunctors := false, false, false;
      pendingFunctors, wakeupCounter := [], 0;
      machine := Fresh();
      var p := new Epoll.EPollPoller();
      poller := p;
      wakeupChannel := new Epoll.Channel(p, wakeupFd);
      new;
      assert Epoll.NONE_EVENT + Epoll.READ_EVENT == Epoll.READ_EVENT;
      wakeupChannel.Apply(Epoll.EnableReading);
    }

    /** ~EventLoop: the wakeup channel leaves the poller before its descriptor is closed. */
    method Close()
      requires wakeupChannel.Valid() && wakeupChannel.poller == poller
      modifies wakeupChannel`events, wakeupChannel`index, poller`channels, poller`kernel
      ensures wakeupChannel.Valid() && wakeupChannel.index.New? && poller.SlotOf(wakeupChannel).kernel.None?
    {
      wakeupChannel.Apply(Epoll.DisableAll);
      wakeupChannel.Apply(Epoll.RemoveIt);
    }

    ghost method Advance(l: Label<Task>)
      requires WellFormed(machine) && Enabled(machine, l)
      modifies this`machine
      ensures machine == Next(old(machine), l) && WellFormed(machine)
      ensures Moves(old(machine), [l], machine)
    {
      StepKeepsOrder(machine, l);
      machine := Next(machine, l);
    }

    /** queueInLoop called by the loop's own thread. */
    method QueueInLoop(cb: Task)
      requires Valid() && OwnerRunsUserCode(machine)
      modifies this`pendingFunctors, this`wakeupCounter, this`machine
      ensures Valid()
      ensures Moves(old(machine), [OwnerPush(cb)] + (if callingPendingFunctors then [OwnerWake] else []), machine)
      ensures machine.phase == old(machine.phase) && machine.queue.batch == old(machine.queue.batch)
      ensures machine.executed == old(machine.executed) && machine.ownerWakes == old(machine.ownerWakes)
      ensures machine.threads == old(machine.threads)
      ensures pendingFunctors == old(pendingFunctors) + [cb]
      ensures wakeupCounter == old(wakeupCounter) + if callingPendingFunctors then 1 else 0
    {
      pendingFunctors := pendingFunctors + [cb];
      Advance(OwnerPush(cb));
      if callingPendingFunctors {
        Wakeup();
        Advance(OwnerWake);
      }
    }

    /** queueInLoop called by another thread. */
    method QueueFromThread(t: nat, cb: Task)
      requires Valid() && t !in machine.threads
      modifies this`pendingFunctors, this`wakeupCounter, this`machine
      ensures Valid() && Moves(old(machine), [Label.Push(t, cb), Wake(t)], machine)
      ensures pendingFunctors == old(pendingFunctors) + [cb] && wakeupCounter == old(wakeupCounter) + 1
    {
      pendingFunctors := pendingFunctors + [cb];
      Advance(Label.Push(t, cb));
      Wakeup();
      Advance(Wake(t));
    }

    /** quit() called by the loop's own thread, and by another. */
    method Quit()
      requires Valid() && OwnerRunsUserCode(machine)
      modifies this`quit, this`machine
      ensures Valid() && Moves(old(machine), [OwnerQuit], machine)
      ensures machine == old(machine).(quit := true)
    {
      quit := true;
      Advance(OwnerQuit);
    }

    method QuitFromThread(t: nat)
      requires Valid() && t !in machine.threads
      modifies this`quit, this`wakeupCounter, this`machine
      ensures Valid() && Moves(old(machine), [Label.Quit(t), Wake(t)], machine)
      ensures quit && wakeupCounter == old(wakeupCounter) + 1
    {
      quit := true;
      Advance(Label.Quit(t));
      Wakeup();
      Advance(Wake(t));
    }

    method Wakeup()
      modifies this`wakeupCounter
      ensures wakeupCounter == old(wakeupCounter) + 1
    {
      wakeupCounter := wakeupCounter + 1;
    }

    /** The read callback of the wakeup channel: an eventfd read empties the counter. */
    method HandleRead()
      requires Valid() && Enabled(machine, ReadEventfd)
      modifies this`wakeupCounter, this`machine
      ensures Valid() && Moves(old(machine), [ReadEventfd], machine) && machine == Next(old(machine), ReadEventfd)
      ensures wakeupCounter == 0
    {
      wakeupCounter := 0;
      Advance(ReadEventfd);
    }

    /** User code running on the loop's thread. */
    method Execute(task: Task) returns (ghost run: Run)
      requires Valid() && OwnerRunsUserCode(machine)
      modifies this`pendingFunctors, this`wakeupCounter, this`quit, this`machine
      ensures Valid() && Moves(old(machine), run, machine)
      ensures machine.phase == old(machine.phase) && machine.queue.batch == old(machine.queue.batch)
      ensures machine.executed == old(machine.executed) && machine.ownerWakes == old(machine.ownerWakes)
      ensures pendingFunctors == old(pendingFunctors) + task.posts
      ensures quit == (old(quit) || task.quits)
      ensures wakeupCounter == old(wakeupCounter) + if callingPendingFunctors then |task.posts| else 0
    {
      run := [];
      for i := 0 to |task.posts|
        invariant Valid() && Moves(old(machine), run, machine) && quit == old(quit)
        invariant machine.phase == old(machine.phase) && machine.queue.batch == old(machine.queue.batch)
        invariant machine.executed == old(machine.executed) && machine.ownerWakes == old(machine.ownerWakes)
        invariant pendingFunctors == old(pendingFunctors) + task.posts[..i]
        invariant wakeupCounter == old(wakeupCounter) + if callingPendingFunctors then i else 0
      {
        ghost var more := [OwnerPush(task.posts[i])] + if callingPendingFunctors then [OwnerWake] else [];
        QueueInLoop(task.posts[i]);
        PossibleAppend(old(machine), run, more);
        run := run + more;
      }
      if task.quits {
        Quit();
        PossibleAppend(old(machine), run, [OwnerQuit]);
        run := run + [OwnerQuit];
      }
    }

    /** `functor();` in the loop of doPendingFunctors. */
    method RunFirst(functor: Task) returns (ghost run: Run)
      requires Valid() && Enabled(machine, RunNext) && machine.queue.batch[0] == functor
      modifies this`pendingFunctors, this`wakeupCounter, this`quit, this`machine
      ensures Valid() && Moves(old(machine), run, machine)
      ensures machine.phase.Running? && !machine.ownerWakes
      ensures machine.queue.batch == old(machine.queue.batch)[1..]
      ensures machine.executed == old(machine.executed) + [functor]
      ensures pendingFunctors == old(pendingFunctors) + functor.posts
      ensures wakeupCounter == old(wakeupCounter) + |functor.posts|
      ensures quit == (old(quit) || functor.quits)
    {
      Advance(RunNext);
      ghost var more := Execute(functor);
      run := [RunNext] + more;
      PossibleAppend(old(machine), [RunNext], more);
    }

    /**
     One batch: everything that was pending runs, in order; what it queues waits for the next
     iteration, with one wakeup each.
     */
    method DoPendingFunctors() returns (ghost run: Run)
      requires Valid() && Enabled(machine, EndDispatch)
      modifies this`pendingFunctors, this`wakeupCounter, this`quit, this`machine, this`callingPendingFunctors
      ensures Valid() && Moves(old(machine), run, machine) && machine.phase.Check?
      ensures machine.executed == old(machine.executed) + old(pendingFunctors)
      ensures pendingFunctors == AllPosts(old(pendingFunctors))
      ensures wakeupCounter == old(wakeupCounter) + |AllPosts(old(pendingFunctors))|
      ensures quit == (old(quit) || AnyQuits(old(pendingFunctors)))
      ensures !callingPendingFunctors
    {
      var functors;
      functors, run := SwapOut();
      ghost var more := RunAll(functors);
      PossibleAppend(old(machine), run, more);
      run := run + more;
      callingPendingFunctors := false;
      Advance(EndBatch);
      PossibleAppend(old(machine), run, [EndBatch]);
      run := run + [EndBatch];
    }

    /** The loop of doPendingFunctors over what was swapped out. */
    method RunAll(functors: seq<Task>) returns (ghost run: Run)
      requires Valid() && machine.phase.Running? && !machine.ownerWakes
      requires machine.queue.batch == functors && pendingFunctors == []
      modifies this`pendingFunctors, this`wakeupCounter, this`quit, this`machine
      ensures Valid() && Moves(old(machine), run, machine) && machine.phase.Running? && !machine.ownerWakes
      ensures machine.queue.batch == [] && machine.executed == old(machine.executed) + functors
      ensures pendingFunctors == AllPosts(functors) && quit == (old(quit) || AnyQuits(functors))
      ensures wakeupCounter == old(wakeupCounter) + |AllPosts(functors)|
    {
      run := [];
      for i := 0 to |functors|
        invariant Valid() && Moves(old(machine), run, machine) && machine.phase.Running? && !machine.ownerWakes
        invariant machine.queue.batch == functors[i..]
        invariant machine.executed == old(machine.executed) + functors[..i]
        invariant pendingFunctors == AllPosts(functors[..i])
        invariant wakeupCounter == old(wakeupCounter) + |AllPosts(functors[..i])|
        invariant quit == (old(quit) || AnyQuits(functors[..i]))
      {
        ghost var more := RunFirst(functors[i]);
        PossibleAppend(old(machine), run, more);
        run := run + more;
        OneMoreTask(functors, i);
      }
      assert functors[..|functors|] == functors;
    }

    /** The start of doPendingFunctors: the flag, then the swap under the mutex. */
    method SwapOut() returns (functors: seq<Task>, ghost run: Run)
      requires Valid() && Enabled(machine, EndDispatch)
      modifies this`pendingFunctors, this`machine, this`callingPendingFunctors
      ensures Valid() && Moves(old(machine), run, machine) && machine.phase.Running? && !machine.ownerWakes
      ensures functors == old(pendingFunctors) == machine.queue.batch && pendingFunctors == []
      ensures machine.executed == old(machine.executed)
    {
      callingPendingFunctors := true;
      Advance(EndDispatch);
      functors := pendingFunctors;
      pendingFunctors := [];
      run := [EndDispatch] + [Swap];
      Advance(Swap);
      PossibleAppend(old(machine), [EndDispatch], [Swap]);
    }

    /** epoll_wait returns; if it reports the eventfd, the wakeup channel's callback reads it. */
    method Poll(wakeReported: bool) returns (ghost run: Run)
      requires Valid() && machine.phase.Polling?
      modifies this`wakeupCounter, this`machine
      ensures Valid() && Moves(old(machine), run, machine)
      ensures machine.phase == Dispatching(false) && !machine.ownerWakes
      ensures machine.executed == old(machine.executed)
      ensures wakeupCounter == if wakeReported then 0 else old(wakeupCounter)
    {
      var woken := wakeReported && wakeupCounter > 0;
      Advance(PollReturn(woken));
      run := [PollReturn(woken)];
      if woken {
        HandleRead();
        PossibleAppend(old(machine), run, [ReadEventfd]);
        run := run + [ReadEventfd];
      }
    }

    /** The other channels' callbacks run; what they queue needs no wakeup, for the swap is still ahead. */
    method DispatchAll(callbacks: seq<Task>) returns (ghost run: Run)
      requires Valid() && machine.phase == Dispatching(false) && !machine.ownerWakes
      modifies this`pendingFunctors, this`wakeupCounter, this`quit, this`machine
      ensures Valid() && Moves(old(machine), run, machine)
      ensures machine.phase == Dispatching(false) && !machine.ownerWakes
      ensures machine.executed == old(machine.executed)
      ensures pendingFunctors == old(pendingFunctors) + AllPosts(callbacks) && wakeupCounter == old(wakeupCounter)
      ensures quit == (old(quit) || AnyQuits(callbacks))
    {
      run := [];
      for i := 0 to |callbacks|
        invariant Valid() && Moves(old(machine), run, machine)
        invariant machine.phase == Dispatching(false) && !machine.ownerWakes
        invariant machine.executed == old(machine.executed) && wakeupCounter == old(wakeupCounter)
        invariant quit == (old(quit) || AnyQuits(callbacks[..i]))
        invariant pendingFunctors == old(pendingFunctors) + AllPosts(callbacks[..i])
      {
        ghost var more := Execute(callbacks[i]);
        PossibleAppend(old(machine), run, more);
        run := run + more;
        OneMoreTask(callbacks, i);
      }
      assert callbacks[..|callbacks|] == callbacks;
    }

    /** One iteration of loop() after the test of quit_: poll, dispatch, then the pending functors. */
    method Iterate(round: Round) returns (ghost run: Run)
      requires Valid() && machine.phase.Polling?
      modifies this`pendingFunctors, this`wakeupCounter, this`quit, this`machine, this`callingPendingFunctors
      ensures Valid() && Moves(old(machine), run, machine) && machine.phase.Check?
      ensures machine.executed == old(machine.executed) + (old(pendingFunctors) + AllPosts(round.callbacks))
      ensures pendingFunctors == AllPosts(old(pendingFunctors) + AllPosts(round.callbacks))
      ensures wakeupCounter == (if round.wakeReported then 0 else old(wakeupCounter)) + |pendingFunctors|
      ensures quit == (|| old(quit) || AnyQuits(round.callbacks)
                       || AnyQuits(old(pendingFunctors) + AllPosts(round.callbacks)))
    {
      run := Poll(round.wakeReported);
      ghost var dispatch := DispatchAll(round.callbacks);
      PossibleAppend(old(machine), run, dispatch);
      run := run + dispatch;
      ghost var batch := DoPendingFunctors();
      PossibleAppend(old(machine), run, batch);
      run := run + batch;
    }

    /**
     loop(), up to its return or to the end of what the environment offers: it runs until quit_ is
     set, one iteration for each round.
     */
    method Loop(rounds: seq<Round>) returns (served: nat, ghost run: Run)
      requires Valid() && machine.phase.Idle?
      modifies this
      ensures Valid() && Moves(old(machine), run, machine)
      ensures machine.phase.Idle? || (machine.phase.Polling? && served == |rounds|)
      ensures served <= |rounds| && (machine.phase.Idle? <==> !looping)
      ensures machine.phase.Idle? ==> quit
      ensures machine.executed + pendingFunctors == machine.pushed
      ensures served > 0 && machine.phase.Idle? ==> |machine.executed| >= |old(machine.pushed)|
    {
      looping := true;
      quit := false;
      Advance(Start);
      run := [Start];
      served := 0;
      while !quit && served < |rounds|
        invariant Valid() && Moves(old(machine), run, machine) && machine.phase.Check?
        invariant served <= |rounds|
        invariant served == 0 ==> !quit && machine.pushed == old(machine.pushed)
        invariant served > 0 ==> |machine.executed| >= |old(machine.pushed)|
        decreases |rounds| - served
      {
        ghost var m := machine;
        Advance(CheckQuit);
        PossibleAppend(old(machine), run, [CheckQuit]);
        run := run + [CheckQuit];
        ghost var more := Iterate(rounds[served]);
        PossibleAppend(old(machine), run, more);
        run := run + more;
        assert |machine.executed| >= |m.executed| + |m.queue.pending| == |m.pushed|;
        served := served + 1;
      }
      if quit {
        looping := false;
      }
      Advance(CheckQuit);
      PossibleAppend(old(machine), run, [CheckQuit]);
      run := run + [CheckQuit];
    }
  }
}
