/**
 EventLoopThreadPool.cc: the sub-loops and their round robin. Loops are named by number: 0 is the
 base loop, sub-loop i of the pool is loop i + 1.
 */
module ThreadPool {
  import opened Server

  class EventLoopThreadPool {
    var started: bool
    var numThreads: nat
    var next: nat
    var loops: seq<nat>
    ghost var handed: nat  // how many loops getNextLoop has handed out

    ghost predicate Valid()
      reads this
    {
      && (forall i :: 0 <= i < |loops| ==> loops[i] == i + 1)
      && next == if loops == [] then 0 else handed % |loops|
    }

    constructor ()
      ensures Valid() && !started && numThreads == 0 && loops == [] && handed == 0
    {
      started, numThreads, next, loops, handed := false, 0, 0, [], 0;
    }

    /** setThreadNum, before start. */
    method SetThreadNum(n: nat)
      modifies this`numThreads
      ensures numThreads == n
    {
      numThreads := n;
    }

    /** start creates one loop for each thread, in order. */
    method Start()
      requires Valid() && loops == [] && handed == 0
      modifies this`started, this`loops
      ensures Valid() && started && |loops| == numThreads
    {
      started := true;
      for i := 0 to numThreads
        invariant started && |loops| == i && forall k :: 0 <= k < i ==> loops[k] == k + 1
      {
        loops := loops + [i + 1];
      }
    }

    /** The k-th call hands out the loop on which the k-th connection is placed. */
    method GetNextLoop() returns (loop: nat)
      requires Valid()
      modifies this`next, this`handed
      ensures Valid() && handed == old(handed) + 1
      ensures loop == Placement(old(handed), |loops| + 1)
    {
      loop := 0;
      if loops != [] {
        loop := loops[next];
        RoundRobin(handed, |loops|);
        next := next + 1;
        if next >= |loops| {
          next := 0;
        }
      }
      handed := handed + 1;
    }
  }

  lemma RoundRobin(k: nat, n: nat)
    requires n > 0
    ensures (k + 1) % n == if k % n + 1 >= n then 0 else k % n + 1
    ensures (k + 1) / n == if k % n + 1 >= n then k / n + 1 else k / n
  {
    var q, r := k / n, k % n;
    assert k == q * n + r;
    if r + 1 >= n {
      assert k + 1 == (q + 1) * n;
      DivMod(k + 1, n, q + 1, 0);
    } else {
      DivMod(k + 1, n, q, r + 1);
    }
  }

  lemma DivMod(k: nat, n: nat, q: nat, r: nat)
    requires n > 0 && k == q * n + r && r < n
    ensures k / n == q && k % n == r
  {
    var d := k / n - q;
    assert k == (k / n) * n + k % n;
    assert d * n == r - k % n;
    MultipleIsFar(d, n);
  }

  lemma MultipleIsFar(d: int, n: nat)
    ensures d > 0 ==> d * n >= n
    ensures d < 0 ==> d * n + n <= 0
  {
  }

  /** How many of the first k connections are on loop l. */
  function Load(k: nat, numLoops: nat, l: nat): nat
    requires numLoops > 0
  {
    if k == 0 then 0 else Load(k - 1, numLoops, l) + if Placement(k - 1, numLoops) == l then 1 else 0
  }

  lemma {:induction false} LoadInClosedForm(k: nat, numLoops: nat, l: nat)
    requires numLoops > 1 && 0 < l < numLoops
    ensures Load(k, numLoops, l) == k / (numLoops - 1) + if l - 1 < k % (numLoops - 1) then 1 else 0
  {
    var n := numLoops - 1;
    if k == 0 {
      DivMod(0, n, 0, 0);
    } else {
      LoadInClosedForm(k - 1, numLoops, l);
      RoundRobin(k - 1, n);
    }
  }

  /** After any number of connections the loads of two sub-loops differ by at most one. */
  lemma LoadsAreBalanced(k: nat, numLoops: nat, l: nat, m: nat)
    requires 0 < l < numLoops && 0 < m < numLoops
    ensures Load(k, numLoops, l) <= Load(k, numLoops, m) + 1
  {
    LoadInClosedForm(k, numLoops, l);
    LoadInClosedForm(k, numLoops, m);
  }
}
