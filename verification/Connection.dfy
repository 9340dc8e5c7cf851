/**
 What TcpConnection (TcpConnection.cc) does to one connection, as functions on values.

 A `Conn` is the object together with its channel's slot, the bytes its socket has accepted and
 the callbacks it has queued or fired. `Step` is total: the events may come in any order, so a run
 `After(v, c, events)` covers every interleaving of loop callbacks, queued functors, user calls and
 other threads, each event being one of the places where the code can be entered.
 */
module Connection {
  import opened ByteBuffer
  import opened Epoll

  datatype StateE = Disconnected | Connecting | Connected | Disconnecting

  datatype Config = Config(highWaterMark: nat, hasHighWater: bool, hasWriteComplete: bool)

  datatype Conn = Conn(
    config: Config,
    state: StateE,
    slot: Slot,             // channel_, as the poller and the kernel see it
    output: seq<Byte>,      // outputBuffer_
    input: seq<Byte>,       // inputBuffer_
    wire: seq<Byte>,        // bytes the kernel has accepted for this socket, in order
    halfCloses: seq<nat>,   // one entry for each SHUT_WR: the backlog it left behind
    marks: seq<nat>,        // sizes handed to queued high-water callbacks
    completes: nat,         // queued write-complete callbacks
    ups: nat,               // connection callbacks from connectEstablished
    downs: nat,             // connection callbacks from handleClose and connectDestroyed
    closes: nat)            // close callbacks, which ask the server to remove the connection

  function Born(config: Config): Conn {
    Conn(config, Connecting, FRESH, [], [], [], [], [], 0, 0, 0, 0)
  }

  /**
   The test at TcpConnection.cc:275. As written it is an assignment of kDisconnected, whose value 0
   is false; its comment describes a comparison with kDisconnecting.
   */
  datatype Drain = AsWritten | Intended

  /** A failed read, or a readFd that returned |bytes|. */
  datatype ReadResult = Got(bytes: seq<Byte>) | Failed

  predicate IsWriting(c: Conn) {
    Out in c.slot.events
  }

  function OnChannel(c: Conn, op: ChannelOp): Conn {
    c.(slot := AfterOp(c.slot, op))
  }

  /** sendInLoop tries write(2) at once only when nothing is queued before it. */
  predicate Direct(c: Conn) {
    !IsWriting(c) && c.output == []
  }

  function SendInLoop(c: Conn, data: seq<Byte>, w: WriteResult): Conn {
    if c.state.Disconnected? then
      c
    else
      var nwrote := if Direct(c) then |Accepted(w, data)| else 0;
      EnqueueUnless(if Direct(c) then WrittenAtOnce(c, data, w) else c, data, nwrote, Direct(c) && w.Fault?)
  }

  /** What the first half of sendInLoop did not write is kept, unless the peer is gone. */
  function EnqueueUnless(c: Conn, data: seq<Byte>, nwrote: nat, faultError: bool): Conn
    requires nwrote <= |data|
  {
    if !faultError && |data| - nwrote > 0 then Enqueue(c, data[nwrote..]) else c
  }

  function WrittenAtOnce(c: Conn, data: seq<Byte>, w: WriteResult): Conn {
    c.(wire := c.wire + Accepted(w, data),
       completes := if w.Wrote? && |Accepted(w, data)| == |data| && c.config.hasWriteComplete
                    then c.completes + 1 else c.completes)
  }

  function Enqueue(c: Conn, remaining: seq<Byte>): Conn {
    var oldlen, newlen := |c.output|, |c.output| + |remaining|;
    var queued := c.(
      output := c.output + remaining,
      marks := if newlen >= c.config.highWaterMark && oldlen < c.config.highWaterMark && c.config.hasHighWater
               then c.marks + [newlen] else c.marks);
    if IsWriting(c) then queued else OnChannel(queued, EnableWriting)
  }

  function ShutdownInLoop(c: Conn): Conn {
    if IsWriting(c) then c else c.(halfCloses := c.halfCloses + [|c.output|])
  }

  function ConnectEstablished(c: Conn): Conn {
    OnChannel(c.(state := Connected, ups := c.ups + 1), EnableReading)
  }

  function ConnectDestroyed(c: Conn): Conn {
    OnChannel(if c.state.Connected?
              then OnChannel(c.(state := Disconnected, downs := c.downs + 1), DisableAll)
              else c,
              RemoveIt)
  }

  function HandleClose(c: Conn): Conn {
    OnChannel(c.(state := Disconnected, downs := c.downs + 1, closes := c.closes + 1), DisableAll)
  }

  function HandleRead(c: Conn, r: ReadResult): Conn {
    match r
    case Got(bytes) => if bytes == [] then HandleClose(c) else c.(input := c.input + bytes)
    case Failed => c
  }

  function HandleWrite(v: Drain, c: Conn, w: WriteResult): Conn {
    if !IsWriting(c) then
      c
    else
      var accepted := Accepted(w, c.output);
      var sent := c.(wire := c.wire + accepted, output := c.output[|accepted|..]);
      if accepted == [] || sent.output != [] then sent else Drained(v, sent)
  }

  /** handleWrite has just emptied the output buffer. */
  function Drained(v: Drain, c: Conn): Conn {
    var d := OnChannel(c, DisableWriting).(
      completes := if c.config.hasWriteComplete then c.completes + 1 else c.completes);
    match v
    case AsWritten => d.(state := Disconnected)
    case Intended => if d.state.Disconnecting? then ShutdownInLoop(d) else d
  }

  datatype ConnEvent =
    | Establish
    | Send(data: seq<Byte>, w: WriteResult)        // send() on the loop's thread
    | LateSend(data: seq<Byte>, w: WriteResult)    // a sendInLoop functor queued by another thread's send()
    | Shutdown                                     // shutdown() on the loop's thread
    | ShutdownTake                                 // another thread's shutdown(), check and set in one step
    | ShutdownSet                                  // the set of another thread's shutdown(), its check being older
    | LateShutdown                                 // the shutdownInLoop functor such a shutdown() queues
    | Read(r: ReadResult)
    | Write(w: WriteResult)
    | Close                                        // handleClose called for EPOLLHUP
    | Destroy
    | Consume(len: nat)                            // the user retrieves from inputBuffer_

  function Step(v: Drain, c: Conn, e: ConnEvent): Conn {
    match e
    case Establish => ConnectEstablished(c)
    case Send(data, w) => if c.state.Connected? then SendInLoop(c, data, w) else c
    case LateSend(data, w) => SendInLoop(c, data, w)
    case Shutdown => if c.state.Connected? then ShutdownInLoop(c.(state := Disconnecting)) else c
    case ShutdownTake => if c.state.Connected? then c.(state := Disconnecting) else c
    case ShutdownSet => c.(state := Disconnecting)
    case LateShutdown => ShutdownInLoop(c)
    case Read(r) => HandleRead(c, r)
    case Write(w) => HandleWrite(v, c, w)
    case Close => HandleClose(c)
    case Destroy => ConnectDestroyed(c)
    case Consume(len) => c.(input := if len < |c.input| then c.input[len..] else [])
  }

  function After(v: Drain, c: Conn, es: seq<ConnEvent>): Conn
    decreases |es|
  {
    if es == [] then c else After(v, Step(v, c, es[0]), es[1..])
  }

  lemma {:induction false} AfterAppend(v: Drain, c: Conn, es: seq<ConnEvent>, fs: seq<ConnEvent>)
    ensures After(v, c, es + fs) == After(v, After(v, c, es), fs)
    decreases |es|
  {
    if es == [] {
      assert es + fs == fs;
    } else {
      assert (es + fs)[1..] == es[1..] + fs;
      AfterAppend(v, Step(v, c, es[0]), es[1..], fs);
    }
  }

  lemma AfterOne(v: Drain, c: Conn, e: ConnEvent)
    ensures After(v, c, [e]) == Step(v, c, e)
  {
    assert [e][1..] == [];
    assert After(v, c, [e]) == After(v, Step(v, c, e), []);
  }

  lemma AfterTwo(v: Drain, c: Conn, e: ConnEvent, f: ConnEvent)
    ensures After(v, c, [e, f]) == Step(v, Step(v, c, e), f)
  {
    assert [e, f][1..] == [f] && [f][1..] == [];
    assert After(v, Step(v, c, e), [f]) == After(v, Step(v, Step(v, c, e), f), []);
  }

  lemma {:induction false} AfterKeepsConfig(v: Drain, c: Conn, es: seq<ConnEvent>)
    ensures After(v, c, es).config == c.config
    decreases |es|
  {
    if es != [] {
      AfterKeepsConfig(v, Step(v, c, es[0]), es[1..]);
    }
  }

  // ---------------------------------------------------------------------------
  // Outbound bytes

  /**
   The payload this event hands over for good: it passes the check of the state, and misses the fault
   branch, which is reached when nothing is queued before it and write(2) faults.
   */
  function Payload(c: Conn, e: ConnEvent): seq<Byte> {
    var faults := (e.Send? || e.LateSend?) && Out !in c.slot.events && c.output == [] && e.w.Fault?;
    match e
    case Send(data, _) => if c.state.Connected? && !faults then data else []
    case LateSend(data, _) => if !c.state.Disconnected? && !faults then data else []
    case _ => []
  }

  function Payloads(v: Drain, c: Conn, es: seq<ConnEvent>): seq<Byte>
    decreases |es|
  {
    if es == [] then [] else Payload(c, es[0]) + Payloads(v, Step(v, c, es[0]), es[1..])
  }

  lemma StepConservesOutbound(v: Drain, c: Conn, e: ConnEvent)
    ensures Step(v, c, e).wire + Step(v, c, e).output == c.wire + c.output + Payload(c, e)
  {
    match e
    case Send(data, w) => { if c.state.Connected? { SendConserves(c, data, w); } }
    case LateSend(data, w) => { if !c.state.Disconnected? { SendConserves(c, data, w); } }
    case Write(w) => WriteConserves(v, c, w);
    case _ =>
  }

  lemma WriteConserves(v: Drain, c: Conn, w: WriteResult)
    ensures HandleWrite(v, c, w).wire + HandleWrite(v, c, w).output == c.wire + c.output
  {
    var n := |Accepted(w, c.output)|;
    SplitsAt(c.output, n);
    Associates(c.wire, c.output[..n], c.output[n..]);
  }

  lemma SendConserves(c: Conn, data: seq<Byte>, w: WriteResult)
    requires !c.state.Disconnected?
    ensures SendInLoop(c, data, w).wire + SendInLoop(c, data, w).output
         == c.wire + c.output + if Direct(c) && w.Fault? then [] else data
  {
    if Direct(c) {
      DirectSendConserves(c, data, w);
    } else {
      EnqueueKeeps(c, data, 0, false);
    }
  }

  lemma DirectSendConserves(c: Conn, data: seq<Byte>, w: WriteResult)
    requires !c.state.Disconnected? && Direct(c)
    ensures SendInLoop(c, data, w).wire + SendInLoop(c, data, w).output == c.wire + if w.Fault? then [] else data
  {
    var accepted := Accepted(w, data);
    var rest := if w.Fault? then [] else data[|accepted|..];
    EnqueueKeeps(WrittenAtOnce(c, data, w), data, |accepted|, w.Fault?);
    if !w.Fault? { SplitsAt(data, |accepted|); }
    assert [] + rest == rest;
    assert SendInLoop(c, data, w).wire == c.wire + accepted && SendInLoop(c, data, w).output == rest;
    Associates(c.wire, accepted, rest);
  }

  lemma EnqueueKeeps(c: Conn, data: seq<Byte>, nwrote: nat, faultError: bool)
    requires nwrote <= |data|
    ensures EnqueueUnless(c, data, nwrote, faultError).wire == c.wire
    ensures EnqueueUnless(c, data, nwrote, faultError).output
         == c.output + if faultError then [] else data[nwrote..]
  {
  }

  /**
   Over every run: what the kernel has accepted followed by the backlog is exactly the payloads, in
   order, through partial writes, EWOULDBLOCK and errors, whatever the state and interest do meanwhile.
   */
  lemma {:induction false} OutboundConservation(v: Drain, c: Conn, es: seq<ConnEvent>)
    ensures After(v, c, es).wire + After(v, c, es).output == c.wire + c.output + Payloads(v, c, es)
    decreases |es|
  {
    if es != [] {
      StepConservesOutbound(v, c, es[0]);
      OutboundConservation(v, Step(v, c, es[0]), es[1..]);
    }
  }

  // ---------------------------------------------------------------------------
  // Inbound bytes and write-complete callbacks

  /** What the user takes out of inputBuffer_, and what readFd puts in. */
  function Consumed(v: Drain, c: Conn, es: seq<ConnEvent>): seq<Byte>
    decreases |es|
  {
    if es == [] then [] else
      (if es[0].Consume? then c.input[..Min(es[0].len, |c.input|)] else []) + Consumed(v, Step(v, c, es[0]), es[1..])
  }

  function Arrived(es: seq<ConnEvent>): seq<Byte> {
    if es == [] then [] else (if es[0].Read? && es[0].r.Got? then es[0].r.bytes else []) + Arrived(es[1..])
  }

  lemma StepConservesInbound(v: Drain, c: Conn, e: ConnEvent)
    ensures var d := Step(v, c, e);
            (if e.Consume? then c.input[..Min(e.len, |c.input|)] else []) + d.input
            == c.input + if e.Read? && e.r.Got? then e.r.bytes else []
  {
    match e
    case Consume(len) =>
      var k := Min(len, |c.input|);
      assert c.input[..k] + c.input[k..] == c.input;
    case _ =>
  }

  /** Over every run: what the user has taken followed by what is buffered is what had arrived, in order. */
  lemma {:induction false} InboundConservation(v: Drain, c: Conn, es: seq<ConnEvent>)
    ensures Consumed(v, c, es) + After(v, c, es).input == c.input + Arrived(es)
    decreases |es|
  {
    if es != [] {
      var d := Step(v, c, es[0]);
      StepConservesInbound(v, c, es[0]);
      InboundConservation(v, d, es[1..]);
      Regroup(if es[0].Consume? then c.input[..Min(es[0].len, |c.input|)] else [], d.input,
              c.input, if es[0].Read? && es[0].r.Got? then es[0].r.bytes else [],
              Consumed(v, d, es[1..]), After(v, c, es).input, Arrived(es[1..]));
    }
  }

  lemma Regroup<T>(taken: seq<T>, mid: seq<T>, start: seq<T>, came: seq<T>, takes: seq<T>, end: seq<T>, comes: seq<T>)
    requires taken + mid == start + came
    requires takes + end == mid + comes
    ensures (taken + takes) + end == start + (came + comes)
  {
    assert (taken + takes) + end == taken + (takes + end);
    assert taken + (mid + comes) == (taken + mid) + comes;
  }

  /** The event leaves nothing unsent: it emptied a backlog, or its own payload went out whole at once. */
  predicate Flushes(c: Conn, e: ConnEvent, d: Conn) {
    d.output == [] && match e
      case Send(_, w) => c.state.Connected? && Out !in c.slot.events && c.output == [] && w.Wrote?
      case LateSend(_, w) => !c.state.Disconnected? && Out !in c.slot.events && c.output == [] && w.Wrote?
      case Write(_) => c.output != []
      case _ => false
  }

  function FlushCount(v: Drain, c: Conn, es: seq<ConnEvent>): nat
    decreases |es|
  {
    if es == [] then 0 else
      (if Flushes(c, es[0], Step(v, c, es[0])) then 1 else 0) + FlushCount(v, Step(v, c, es[0]), es[1..])
  }

  /** Over every run, one write-complete callback is queued for each flush. */
  lemma {:induction false} WriteCompleteCallbacksCountFlushes(v: Drain, c: Conn, es: seq<ConnEvent>)
    requires c.config.hasWriteComplete
    ensures After(v, c, es).completes == c.completes + FlushCount(v, c, es)
    decreases |es|
  {
    if es != [] {
      StepCountsCrossing(v, c, es[0]);
      StepCountsFlush(v, c, es[0]);
      WriteCompleteCallbacksCountFlushes(v, Step(v, c, es[0]), es[1..]);
    }
  }

  lemma StepCountsFlush(v: Drain, c: Conn, e: ConnEvent)
    requires c.config.hasWriteComplete
    ensures var d := Step(v, c, e);
            d.completes == c.completes + if Flushes(c, e, d) then 1 else 0
  {
  }

  // ---------------------------------------------------------------------------
  // High-water callbacks

  /** The backlog goes from below the mark to at or above it. */
  predicate Crosses(c: Conn, d: Conn) {
    |c.output| < c.config.highWaterMark <= |d.output|
  }

  /** The backlog after each upward crossing of the mark. */
  function Crossings(v: Drain, c: Conn, es: seq<ConnEvent>): seq<nat>
    decreases |es|
  {
    if es == [] then [] else
      var d := Step(v, c, es[0]);
      (if Crosses(c, d) then [|d.output|] else []) + Crossings(v, d, es[1..])
  }

  /** Over every run, one high-water callback is queued for each crossing, and it is given the new backlog. */
  lemma {:induction false} HighWaterCallbacksCountCrossings(v: Drain, c: Conn, es: seq<ConnEvent>)
    requires c.config.hasHighWater
    ensures After(v, c, es).marks == c.marks + Crossings(v, c, es)
    decreases |es|
  {
    if es != [] {
      var d := Step(v, c, es[0]);
      StepCountsCrossing(v, c, es[0]);
      HighWaterCallbacksCountCrossings(v, d, es[1..]);
    }
  }

  /** So a drain separates two callbacks: with the backlog at the mark, the next one needs it to have been below. */
  lemma {:induction false} CrossingsAreSeparatedByADrain(v: Drain, c: Conn, es: seq<ConnEvent>)
    requires |c.output| >= c.config.highWaterMark && Crossings(v, c, es) != []
    ensures exists k :: 0 < k < |es| && |After(v, c, es[..k]).output| < c.config.highWaterMark
    decreases |es|
  {
    var d := Step(v, c, es[0]);
    var rest := es[1..];
    StepCountsCrossing(v, c, es[0]);
    if |d.output| < c.config.highWaterMark {
      assert rest != [];
      assert es[..1][1..] == [] && After(v, c, es[..1]) == After(v, d, []);
    } else {
      CrossingsAreSeparatedByADrain(v, d, rest);
      var k :| 0 < k < |rest| && |After(v, d, rest[..k]).output| < d.config.highWaterMark;
      assert es[..k + 1][1..] == rest[..k];
      assert After(v, c, es[..k + 1]) == After(v, d, rest[..k]);
    }
  }

  lemma StepCountsCrossing(v: Drain, c: Conn, e: ConnEvent)
    ensures Step(v, c, e).config == c.config
    ensures c.config.hasHighWater ==> CrossingCounted(c, Step(v, c, e))
  {
    match e
    case Send(data, w) => { if c.config.hasHighWater { SendCountsCrossing(c, data, w); } }
    case LateSend(data, w) => { if c.config.hasHighWater { SendCountsCrossing(c, data, w); } }
    case _ =>
  }

  predicate CrossingCounted(c: Conn, d: Conn) {
    d.marks == c.marks + if Crosses(c, d) then [|d.output|] else []
  }

  lemma SendCountsCrossing(c: Conn, data: seq<Byte>, w: WriteResult)
    requires c.config.hasHighWater
    ensures CrossingCounted(c, SendInLoop(c, data, w))
  {
  }

  // ---------------------------------------------------------------------------
  // From connectEstablished to handleClose or connectDestroyed

  /** Interested in reading always and in writing exactly while there is a backlog. */
  predicate InterestIsBacklog(c: Conn) {
    c.slot.events == if c.output == [] then READ_EVENT else READ_EVENT + WRITE_EVENT
  }

  /** The connection is registered, with that interest. */
  predicate Live(c: Conn) {
    !c.state.Connecting? && Mirror(c.slot) && c.slot.index.Added? && InterestIsBacklog(c)
  }

  predicate Ends(e: ConnEvent) {
    e.Establish? || e.Close? || e.Destroy? || e == Read(Got([]))
  }

  lemma EstablishedIsLive(config: Config)
    ensures Live(ConnectEstablished(Born(config)))
  {
  }

  lemma LiveStep(v: Drain, c: Conn, e: ConnEvent)
    requires Live(c) && !Ends(e)
    ensures Live(Step(v, c, e))
  {
  }

  /**
   Write interest agrees with the backlog: over every interleaving of sends, writable events, reads,
   user calls and shutdowns, isWriting() and the kernel's EPOLLOUT bit hold iff output is pending.
   */
  lemma {:induction false} WriteInterestAgreesWithBacklog(v: Drain, c: Conn, es: seq<ConnEvent>)
    requires Live(c) && forall e <- es :: !Ends(e)
    ensures Live(After(v, c, es))
    ensures var d := After(v, c, es);
            && (IsWriting(d) <==> d.output != [])
            && d.slot.kernel.Some?
            && (Out in d.slot.kernel.value <==> d.output != [])
    decreases |es|
  {
    if es != [] {
      LiveStep(v, c, es[0]);
      WriteInterestAgreesWithBacklog(v, Step(v, c, es[0]), es[1..]);
    }
  }

  // ---------------------------------------------------------------------------
  // Half-close

  /** `longer` is `shorter` followed by zeros only. */
  predicate ExtendedByZeros(shorter: seq<nat>, longer: seq<nat>) {
    shorter <= longer && forall k :: |shorter| <= k < |longer| ==> longer[k] == 0
  }

  /** While the connection is live, SHUT_WR is only ever issued with an empty backlog, under either test. */
  lemma {:induction false} HalfCloseNeverCutsAcceptedData(v: Drain, c: Conn, es: seq<ConnEvent>)
    requires Live(c) && forall e <- es :: !Ends(e)
    ensures ExtendedByZeros(c.halfCloses, After(v, c, es).halfCloses)
    decreases |es|
  {
    if es != [] {
      var d := Step(v, c, es[0]);
      LiveStep(v, c, es[0]);
      assert ExtendedByZeros(c.halfCloses, d.halfCloses);
      HalfCloseNeverCutsAcceptedData(v, d, es[1..]);
    }
  }

  /** Nothing here is another thread's shutdown; one on the loop's thread is refused once a request is pending. */
  predicate NoNewRequest(e: ConnEvent) {
    !Ends(e) && !e.ShutdownSet? && !e.LateShutdown?
  }

  /** The events that could still issue SHUT_WR: those of other threads' requests, and of a new establishment. */
  predicate Requests(e: ConnEvent) {
    e.Establish? || e.ShutdownSet? || e.LateShutdown?
  }

  /** The event that carries out a request on the loop: shutdown() there, or another thread's functor. */
  predicate CarriesOut(c: Conn, e: ConnEvent) {
    (e == Shutdown && c.state.Connected?) || (e == LateShutdown && !c.state.Connected?)
  }

  /**
   The code as written: a shutdown that finds a backlog when it is carried out never sends SHUT_WR,
   however the run goes on, past handleClose and connectDestroyed too; one that finds none has sent it
   already.
   */
  lemma {:induction false} WrittenShutdownIsLostExactlyOverABacklog(c: Conn, e: ConnEvent, es: seq<ConnEvent>)
    requires Live(c) && CarriesOut(c, e) && forall f <- es :: !Requests(f)
    ensures After(AsWritten, c, [e] + es).halfCloses == c.halfCloses <==> c.output != []
  {
    assert ([e] + es)[1..] == es;
    WrittenRunAddsNoHalfClose(Step(AsWritten, c, e), es);
  }

  lemma {:induction false} WrittenRunAddsNoHalfClose(c: Conn, es: seq<ConnEvent>)
    requires !c.state.Connected? && forall e <- es :: !Requests(e)
    ensures After(AsWritten, c, es).halfCloses == c.halfCloses
    decreases |es|
  {
    if es != [] {
      assert !Requests(es[0]);
      WrittenRunAddsNoHalfClose(Step(AsWritten, c, es[0]), es[1..]);
    }
  }

  /** Some moment of the run, its start included, has no backlog. */
  predicate Drains(v: Drain, c: Conn, es: seq<ConnEvent>)
    decreases |es|
  {
    c.output == [] || (es != [] && Drains(v, Step(v, c, es[0]), es[1..]))
  }

  /** The intended test: the SHUT_WR of a request has been sent iff the backlog has drained since it was carried out. */
  lemma {:induction false} IntendedShutdownIsSentIffDrained(c: Conn, e: ConnEvent, es: seq<ConnEvent>)
    requires Live(c) && CarriesOut(c, e) && !c.state.Disconnected? && forall f <- es :: NoNewRequest(f)
    ensures After(Intended, c, [e] + es).halfCloses != c.halfCloses <==> Drains(Intended, Step(Intended, c, e), es)
  {
    assert ([e] + es)[1..] == es;
    var d := Step(Intended, c, e);
    if c.output == [] {
      HalfCloseNeverCutsAcceptedData(Intended, d, es);
      assert |d.halfCloses| > |c.halfCloses|;
    } else {
      assert d.halfCloses == c.halfCloses && d.output == c.output;
      PendingShutdownIsSentIffDrained(d, es);
    }
  }

  /** A pending request that has not been sent goes out when the backlog drains. */
  lemma {:induction false} PendingShutdownIsSentIffDrained(c: Conn, es: seq<ConnEvent>)
    requires Live(c) && c.state.Disconnecting? && c.output != [] && forall f <- es :: NoNewRequest(f)
    ensures After(Intended, c, es).halfCloses != c.halfCloses <==> Drains(Intended, c, es)
    decreases |es|
  {
    if es != [] {
      var d := Step(Intended, c, es[0]);
      assert NoNewRequest(es[0]) && forall f <- es[1..] :: NoNewRequest(f);
      LiveStep(Intended, c, es[0]);
      if d.output == [] {
        HalfCloseNeverCutsAcceptedData(Intended, d, es[1..]);
        assert |d.halfCloses| > |c.halfCloses|;
      } else {
        assert d.halfCloses == c.halfCloses && d.state.Disconnecting?;
        PendingShutdownIsSentIffDrained(d, es[1..]);
      }
    }
  }

  /** A run in which the two tests part: shutdown over a backlog, then the backlog drains. */
  lemma WrittenTestRefuted(c: Conn, room: nat)
    requires Live(c) && c.state.Connected? && 0 < |c.output| <= room
    ensures var es := [Shutdown, Write(Wrote(room))];
            && After(AsWritten, c, es).halfCloses == c.halfCloses
            && After(Intended, c, es).halfCloses == c.halfCloses + [0]
            && After(AsWritten, c, es).output == [] == After(Intended, c, es).output
  {
    AfterTwo(AsWritten, c, Shutdown, Write(Wrote(room)));
    AfterTwo(Intended, c, Shutdown, Write(Wrote(room)));
  }

  /** As written, a writable event ends a Connected connection's ability to send exactly when it drains the backlog. */
  lemma WrittenDrainDisconnects(c: Conn, w: WriteResult)
    requires Live(c) && c.state.Connected?
    ensures Step(AsWritten, c, Write(w)).state == Disconnected
       <==> c.output != [] && w.Wrote? && w.room >= |c.output|
    ensures Step(Intended, c, Write(w)).state == Connected
  {
  }

  // ---------------------------------------------------------------------------
  // After handleClose

  predicate Closed(c: Conn) {
    && c.state.Disconnected?
    && c.slot.events == NONE_EVENT && !c.slot.index.Added? && c.slot.kernel.None?
  }

  lemma CloseCloses(c: Conn)
    requires Live(c)
    ensures Closed(HandleClose(c))
  {
  }

  /** Out of the kernel's set, not waiting for EPOLLOUT, and past sending but for a shutdown or a stale store. */
  predicate Shut(c: Conn) {
    && (c.state.Disconnected? || c.state.Disconnecting?)
    && !IsWriting(c) && !c.slot.index.Added? && c.slot.kernel.None?
  }

  /** At every moment of the run the kernel's set lacks the connection, and it has accepted just these bytes. */
  predicate StaysSilent(v: Drain, c: Conn, es: seq<ConnEvent>, wire: seq<Byte>)
    decreases |es|
  {
    c.wire == wire && c.slot.kernel.None? && (es != [] ==> StaysSilent(v, Step(v, c, es[0]), es[1..], wire))
  }

  /** connectEstablished, and handleClose whatever called it, put the descriptor (back) into the kernel's set. */
  predicate Reopens(e: ConnEvent) {
    e.Establish? || e.Close? || e == Read(Got([]))
  }

  /** A queued send of some data, which does not fault at once. */
  predicate SendsThrough(backlog: seq<Byte>, e: ConnEvent) {
    e.LateSend? && e.data != [] && !(backlog == [] && e.w.Fault?)
  }

  predicate StoredBefore(es: seq<ConnEvent>, j: nat)
    requires j <= |es|
  {
    exists i :: 0 <= i < j && es[i].ShutdownSet?
  }

  predicate NeverReopens(es: seq<ConnEvent>) {
    forall e <- es :: !Reopens(e)
  }

  /** No stale store of the run, nor one from before it, is followed by a send that goes through. */
  predicate NoneThrough(es: seq<ConnEvent>, backlog: seq<Byte>, stored: bool) {
    forall j :: 0 <= j < |es| && SendsThrough(backlog, es[j]) ==> !stored && !StoredBefore(es, j)
  }

  lemma StoredBeforeUnfolds(es: seq<ConnEvent>, j: nat)
    requires j < |es|
    ensures StoredBefore(es, j + 1) <==> es[0].ShutdownSet? || StoredBefore(es[1..], j)
  {
    if StoredBefore(es[1..], j) {
      var i :| 0 <= i < j && es[1..][i].ShutdownSet?;
      assert es[i + 1].ShutdownSet?;
    }
    if StoredBefore(es, j + 1) {
      var i :| 0 <= i < j + 1 && es[i].ShutdownSet?;
      assert i > 0 ==> es[1..][i - 1].ShutdownSet?;
    }
  }

  /** The first event, then the rest, with the store remembered. */
  lemma NoneThroughUnfolds(es: seq<ConnEvent>, backlog: seq<Byte>, stored: bool)
    requires es != []
    ensures NoneThrough(es, backlog, stored)
       <==> !(stored && SendsThrough(backlog, es[0])) && NoneThrough(es[1..], backlog, stored || es[0].ShutdownSet?)
  {
    var rest, stored' := es[1..], stored || es[0].ShutdownSet?;
    if NoneThrough(es, backlog, stored) {
      forall j | 0 <= j < |rest| && SendsThrough(backlog, rest[j]) ensures !stored' && !StoredBefore(rest, j) {
        assert es[j + 1] == rest[j];
        StoredBeforeUnfolds(es, j);
      }
    }
    if !(stored && SendsThrough(backlog, es[0])) && NoneThrough(rest, backlog, stored') {
      forall j | 0 <= j < |es| && SendsThrough(backlog, es[j]) ensures !stored && !StoredBefore(es, j) {
        if j > 0 {
          assert es[j] == rest[j - 1];
          StoredBeforeUnfolds(es, j - 1);
        }
      }
    }
  }

  /** One event on a shut connection. */
  lemma EventOnShut(v: Drain, c: Conn, e: ConnEvent)
    requires Shut(c)
    ensures var d := Step(v, c, e);
            if Reopens(e) || (c.state.Disconnecting? && SendsThrough(c.output, e)) then
              d.slot.kernel.Some? || d.wire != c.wire
            else
              && Shut(d) && d.wire == c.wire && d.output == c.output && d.downs == c.downs
              && d.slot.events == c.slot.events && (c.slot.index.New? ==> d.slot.index.New?)
              && (d.state.Disconnecting? <==> c.state.Disconnecting? || e.ShutdownSet?)
  {
  }

  lemma {:induction false} ShutStaysSilentExactly(v: Drain, c: Conn, es: seq<ConnEvent>)
    requires Shut(c)
    ensures StaysSilent(v, c, es, c.wire) <==> NeverReopens(es) && NoneThrough(es, c.output, c.state.Disconnecting?)
    ensures StaysSilent(v, c, es, c.wire) ==>
              var d := After(v, c, es); Shut(d) && d.slot.events == c.slot.events && d.downs == c.downs
    decreases |es|
  {
    if es != [] {
      var d := Step(v, c, es[0]);
      EventOnShut(v, c, es[0]);
      NoneThroughUnfolds(es, c.output, c.state.Disconnecting?);
      assert NeverReopens(es) <==> !Reopens(es[0]) && NeverReopens(es[1..]) by {
        assert forall e <- es :: e == es[0] || e in es[1..];
      }
      if Shut(d) && d.wire == c.wire {
        ShutStaysSilentExactly(v, d, es[1..]);
      } else {
        assert !StaysSilent(v, d, es[1..], c.wire);
      }
    }
  }

  /**
   Closed is absorbing: a closed connection writes nothing and stays out of the kernel's set exactly as
   long as connectEstablished and handleClose do not run again and no stale store of another thread's
   shutdown() is followed by a queued send of some data that does not fault at once. Until then no
   callback is fired either.
   */
  lemma ClosedIsAbsorbingExactly(v: Drain, c: Conn, es: seq<ConnEvent>)
    requires Closed(c)
    ensures StaysSilent(v, c, es, c.wire)
       <==> && (forall e <- es :: !Reopens(e))
            && (forall i, j :: 0 <= i < j < |es| && es[i].ShutdownSet? ==> !SendsThrough(c.output, es[j]))
    ensures StaysSilent(v, c, es, c.wire) ==>
              var d := After(v, c, es); Shut(d) && d.slot.events == NONE_EVENT && d.downs == c.downs
  {
    ShutStaysSilentExactly(v, c, es);
    if NoneThrough(es, c.output, false) {
      forall i, j | 0 <= i < j < |es| && es[i].ShutdownSet? ensures !SendsThrough(c.output, es[j]) {
        assert StoredBefore(es, j);
      }
    }
  }

  predicate StaysDisconnected(v: Drain, c: Conn, es: seq<ConnEvent>)
    decreases |es|
  {
    c.state.Disconnected? && (es != [] ==> StaysDisconnected(v, Step(v, c, es[0]), es[1..]))
  }

  /** As for state_ alone, kDisconnected lasts exactly until a stale store or a connectEstablished. */
  lemma {:induction false} DisconnectedLastsExactly(v: Drain, c: Conn, es: seq<ConnEvent>)
    requires c.state.Disconnected?
    ensures StaysDisconnected(v, c, es) <==> forall e <- es :: !e.ShutdownSet? && !e.Establish?
    decreases |es|
  {
    if es != [] {
      var d := Step(v, c, es[0]);
      assert d.state.Disconnected? <==> !es[0].ShutdownSet? && !es[0].Establish?;
      assert forall e <- es :: e == es[0] || e in es[1..];
      if d.state.Disconnected? {
        DisconnectedLastsExactly(v, d, es[1..]);
      }
    }
  }

  /** What a stale store costs: a queued send then reaches the socket or the epoll set, unless it faults at once. */
  lemma StaleShutdownRevives(v: Drain, c: Conn, data: seq<Byte>, w: WriteResult)
    requires Closed(c)
    ensures var d := After(v, c, [ShutdownSet, LateSend(data, w)]);
            d.wire != c.wire || d.slot.kernel.Some? <==> data != [] && !(c.output == [] && w.Fault?)
  {
    AfterTwo(v, c, ShutdownSet, LateSend(data, w));
    EventOnShut(v, c.(state := Disconnecting), LateSend(data, w));
  }

  function Rank(s: StateE): nat {
    match s
    case Connecting => 0
    case Connected => 1
    case Disconnecting => 2
    case Disconnected => 3
  }

  /** state_ moves backwards exactly on a stale shutdown() store into kDisconnected, or a late connectEstablished. */
  lemma StateMovesForwardExactly(v: Drain, c: Conn, e: ConnEvent)
    ensures Rank(Step(v, c, e).state) >= Rank(c.state)
       <==> !(e.ShutdownSet? && c.state.Disconnected?) && !(e.Establish? && Rank(c.state) > Rank(Connected))
  {
  }

  // ---------------------------------------------------------------------------
  // connectDestroyed

  /**
   connectDestroyed on a live connection always takes the channel out of the poller, but it tests for
   kConnected only: the down callback fires exactly in that state, and a queued send can still touch
   the kernel afterwards exactly when a shutdown was pending and no backlog was left (a backlog keeps
   the stale write interest that routes the bytes into the buffer).
   */
  lemma DestroyOfALiveConnection(v: Drain, c: Conn)
    requires Live(c)
    ensures var d := Step(v, c, Destroy);
            && d.slot.index.New? && !d.slot.listed && d.slot.kernel.None?
            && (d.downs == c.downs + 1 <==> c.state.Connected?)
            && ((exists data, w :: Touches(d, SendInLoop(d, data, w))) <==> c.state.Disconnecting? && c.output == [])
  {
    var d := Step(v, c, Destroy);
    if c.state.Disconnecting? && c.output == [] {
      assert Touches(d, SendInLoop(d, [0], WouldBlock));
    }
  }

  predicate Touches(c: Conn, d: Conn) {
    d.wire != c.wire || d.slot.kernel != c.slot.kernel
  }

  // ---------------------------------------------------------------------------
  // One dispatch (Channel::handleEventWithGuard)

  /** What a user callback may do to its connection. */
  predicate UserEvent(e: ConnEvent) {
    e.Send? || e.Shutdown? || e.Consume?
  }

  /** The three places of one dispatch where user code runs. */
  datatype Reactions = Reactions(onClose: seq<ConnEvent>, onRead: seq<ConnEvent>, onWrite: seq<ConnEvent>) {
    predicate Valid() {
      forall e <- onClose + onRead + onWrite :: UserEvent(e)
    }
  }

  predicate HangsUp(revents: Mask) {
    Hup in revents && In !in revents
  }

  /** Close, then (error, without effect here), then read, then write, each followed by the user's reaction. */
  function Dispatch(revents: Mask, r: ReadResult, w: WriteResult, u: Reactions): seq<ConnEvent> {
    (if HangsUp(revents) then [Close] + u.onClose else [])
    + (if revents * READ_EVENT != {} then [Read(r)] + u.onRead else [])
    + (if Out in revents then [Write(w)] + u.onWrite else [])
  }

  lemma ReadBits(revents: Mask)
    ensures In in revents || Pri in revents <==> revents * READ_EVENT != {}
  {
    if revents * READ_EVENT != {} {
      var b :| b in revents * READ_EVENT;
    }
    if In in revents || Pri in revents { assert In in revents * READ_EVENT || Pri in revents * READ_EVENT; }
  }

  function Turn(e: ConnEvent): nat {
    if e.Close? then 0 else if e.Read? then 1 else 2
  }

  /** Without user code, the callbacks of a dispatch are these, in this order and once each. */
  lemma DispatchOrder(revents: Mask, r: ReadResult, w: WriteResult)
    ensures var es := Dispatch(revents, r, w, NO_REACTIONS);
            && (Close in es <==> Hup in revents && In !in revents)
            && (Read(r) in es <==> In in revents || Pri in revents)
            && (Write(w) in es <==> Out in revents)
            && (forall e <- es :: e in [Close, Read(r), Write(w)])
            && (forall i, j :: 0 <= i < j < |es| ==> Turn(es[i]) < Turn(es[j]))
  {
    ReadBits(revents);
  }

  /** Each callback is followed by the user code it runs, and by that alone. */
  lemma ReactionsFollowTheirCallbacks(revents: Mask, r: ReadResult, w: WriteResult, u: Reactions)
    ensures var es := Dispatch(revents, r, w, u);
            var hung, read, wrote := Hup in revents && In !in revents, In in revents || Pri in revents, Out in revents;
            var i := if hung then 1 + |u.onClose| else 0;
            var j := i + if read then 1 + |u.onRead| else 0;
            && j <= |es|
            && es[..i] == (if hung then [Close] + u.onClose else [])
            && es[i..j] == (if read then [Read(r)] + u.onRead else [])
            && es[j..] == (if wrote then [Write(w)] + u.onWrite else [])
  {
    var closing := if Hup in revents && In !in revents then [Close] + u.onClose else [];
    var reading := if In in revents || Pri in revents then [Read(r)] + u.onRead else [];
    var writing := if Out in revents then [Write(w)] + u.onWrite else [];
    ReadBits(revents);
    assert Dispatch(revents, r, w, u) == closing + reading + writing;
  }

  /** How often handleClose runs in the dispatch of this event set. */
  function CloseCount(revents: Mask, r: ReadResult): nat {
    (if HangsUp(revents) then 1 else 0) + (if revents * READ_EVENT != {} && r == Got([]) then 1 else 0)
  }

  /** handleClose ran twice: the second disableAll put the descriptor back into the kernel set, with no interest. */
  predicate Readded(c: Conn) {
    c.state.Disconnected? && c.slot.events == NONE_EVENT && c.slot.index.Added? && c.slot.kernel == Some(NONE_EVENT)
  }

  /** Where a connection stands once handleClose has run `closed` times in a dispatch. */
  predicate Stage(c: Conn, closed: nat) {
    match closed
    case 0 => Live(c)
    case 1 => Closed(c)
    case 2 => Readded(c)
    case _ => false
  }

  /** `d` is `c` after a part of a dispatch that called handleClose `n` times more. */
  predicate ClosedBy(c: Conn, d: Conn, before: nat, n: nat) {
    && Stage(d, before + n)
    && d.downs == c.downs + n && d.closes == c.closes + n
    && (before + n > 0 ==> d.wire == c.wire)
  }

  lemma {:induction false} ReactionKeepsStage(v: Drain, c: Conn, es: seq<ConnEvent>, closed: nat)
    requires Stage(c, closed) && forall e <- es :: UserEvent(e)
    ensures ClosedBy(c, After(v, c, es), closed, 0)
    decreases |es|
  {
    if es != [] {
      assert es[0] in es;
      EventInDispatch(v, c, es[0], closed);
      ReactionKeepsStage(v, Step(v, c, es[0]), es[1..], closed);
    }
  }

  lemma EventInDispatch(v: Drain, c: Conn, e: ConnEvent, closed: nat)
    requires Stage(c, closed)
    requires UserEvent(e) || e.Write? || (e.Read? && closed <= 1) || (e.Close? && closed == 0)
    ensures ClosedBy(c, Step(v, c, e), closed, if e.Close? || e == Read(Got([])) then 1 else 0)
  {
  }

  lemma CallbackThenReaction(v: Drain, c: Conn, e: ConnEvent, react: seq<ConnEvent>, closed: nat)
    requires Stage(c, closed) && forall u <- react :: UserEvent(u)
    requires e.Write? || (e.Read? && closed <= 1) || (e.Close? && closed == 0)
    ensures ClosedBy(c, After(v, c, [e] + react), closed, if e.Close? || e == Read(Got([])) then 1 else 0)
  {
    EventInDispatch(v, c, e, closed);
    assert ([e] + react)[1..] == react;
    ReactionKeepsStage(v, Step(v, c, e), react, closed + if e.Close? || e == Read(Got([])) then 1 else 0);
  }

  /** The stages of a dispatch, one after the other. */
  function AfterClosing(v: Drain, c: Conn, revents: Mask, u: Reactions): Conn {
    if HangsUp(revents) then After(v, c, [Close] + u.onClose) else c
  }

  function AfterReading(v: Drain, c: Conn, revents: Mask, r: ReadResult, u: Reactions): Conn {
    if revents * READ_EVENT != {} then After(v, c, [Read(r)] + u.onRead) else c
  }

  function AfterWriting(v: Drain, c: Conn, revents: Mask, w: WriteResult, u: Reactions): Conn {
    if Out in revents then After(v, c, [Write(w)] + u.onWrite) else c
  }

  lemma DispatchInStages(v: Drain, c: Conn, revents: Mask, r: ReadResult, w: WriteResult, u: Reactions)
    ensures After(v, c, Dispatch(revents, r, w, u))
         == AfterWriting(v, AfterReading(v, AfterClosing(v, c, revents, u), revents, r, u), revents, w, u)
  {
    var closing := if HangsUp(revents) then [Close] + u.onClose else [];
    var reading := if revents * READ_EVENT != {} then [Read(r)] + u.onRead else [];
    var writing := if Out in revents then [Write(w)] + u.onWrite else [];
    AfterAppend(v, c, closing + reading, writing);
    AfterAppend(v, c, closing, reading);
  }

  /**
   A dispatch on a live connection, user reactions included, fires the down and close callbacks once
   for each handleClose, leaves the connection live, closed or re-added accordingly, and writes
   nothing once handleClose has run. It runs handleClose twice exactly on EPOLLHUP with EPOLLPRI,
   without EPOLLIN, and an end-of-file read.
   */
  lemma DispatchClosesAsCounted(v: Drain, c: Conn, revents: Mask, r: ReadResult, w: WriteResult, u: Reactions)
    requires Live(c) && u.Valid()
    ensures var d := After(v, c, Dispatch(revents, r, w, u));
            && Stage(d, CloseCount(revents, r))
            && d.downs == c.downs + CloseCount(revents, r)
            && d.closes == c.closes + CloseCount(revents, r)
            && (HangsUp(revents) ==> d.wire == c.wire)
    ensures CloseCount(revents, r) == 2 <==> HangsUp(revents) && Pri in revents && r == Got([])
  {
    var c1 := AfterClosing(v, c, revents, u);
    var c2 := AfterReading(v, c1, revents, r, u);
    var hung := if HangsUp(revents) then 1 else 0;
    DispatchInStages(v, c, revents, r, w, u);
    if HangsUp(revents) { CallbackThenReaction(v, c, Close, u.onClose, 0); }
    assert ClosedBy(c, c1, 0, hung);
    if revents * READ_EVENT != {} { CallbackThenReaction(v, c1, Read(r), u.onRead, hung); }
    assert ClosedBy(c1, c2, hung, CloseCount(revents, r) - hung);
    if Out in revents { CallbackThenReaction(v, c2, Write(w), u.onWrite, CloseCount(revents, r)); }
    assert HangsUp(revents) && revents * READ_EVENT != {} <==> HangsUp(revents) && Pri in revents;
  }

  const NO_REACTIONS := Reactions([], [], [])
}
