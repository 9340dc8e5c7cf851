/**
 The TcpConnection object: its fields, its two buffers, its channel and its socket, updated in
 place. Each method is proved to take the abstract connection (`View`) exactly one `Step` of module
 Connection, so everything proved there about runs holds of the object.
 */
module TcpConnectionObject {
  import opened ByteBuffer
  import opened Epoll
  import opened Connection

  /** The connected socket as the kernel sees it. */
  class Socket {
    var wire: seq<Byte>
    var shutdowns: nat

    constructor ()
      ensures wire == [] && shutdowns == 0
    {
      wire, shutdowns := [], 0;
    }

    /** write(2): -1, or the length of the accepted prefix. */
    method Write(data: seq<Byte>, w: WriteResult) returns (n: int)
      modifies this`wire
      ensures wire == old(wire) + Accepted(w, data)
      ensures n == if w.Wrote? then |Accepted(w, data)| else -1
    {
      var accepted;
      n, accepted := KernelWrite(w, data);
      wire := wire + accepted;
    }

    /** shutdown(2) with SHUT_WR. */
    method ShutdownWrite()
      modifies this`shutdowns
      ensures shutdowns == old(shutdowns) + 1
    {
      shutdowns := shutdowns + 1;
    }
  }

  class TcpConnection {
    const config: Config
    const channel: Channel
    const socket: Socket
    const outputBuffer: Buffer
    const inputBuffer: Buffer
    var state: StateE
    var marks: seq<nat>
    var completes: nat
    var ups: nat
    var downs: nat
    var closes: nat
    var tied: bool  // tied_ of the channel
    ghost var halfCloses: seq<nat>

    ghost predicate Valid()
      reads this, channel, channel.poller, channel.poller.family, socket
      reads outputBuffer, outputBuffer.buffer, inputBuffer, inputBuffer.buffer
    {
      && channel.Valid()
      && outputBuffer.Valid() && inputBuffer.Valid()
      && outputBuffer != inputBuffer && outputBuffer.buffer != inputBuffer.buffer
      && |halfCloses| == socket.shutdowns
    }

    ghost function View(): Conn
      requires Valid()
      reads this, channel, channel.poller, channel.poller.family, socket
      reads outputBuffer, outputBuffer.buffer, inputBuffer, inputBuffer.buffer
    {
      Conn(config, state, channel.poller.SlotOf(channel), outputBuffer.Contents(), inputBuffer.Contents(),
           socket.wire, halfCloses, marks, completes, ups, downs, closes)
    }

    constructor (config: Config, poller: EPollPoller, sockfd: int)
      requires poller.Valid() && forall c <- poller.family :: c.fd != sockfd
      modifies poller`family
      ensures Valid() && View() == Born(config)
      ensures channel.poller == poller && channel.fd == sockfd && !tied
      ensures fresh(channel) && fresh(socket) && fresh(outputBuffer) && fresh(inputBuffer)
      ensures fresh(outputBuffer.buffer) && fresh(inputBuffer.buffer)
      ensures outputBuffer.buffer.Length == inputBuffer.buffer.Length == 1032
    {
      this.config := config;
      state := Connecting;
      socket := new Socket();
      channel := new Channel(poller, sockfd);
      outputBuffer := new Buffer(INITIAL_SIZE);
      inputBuffer := new Buffer(INITIAL_SIZE);
      marks, completes, ups, downs, closes, tied, halfCloses := [], 0, 0, 0, 0, false, [];
    }

    /** One operation on the channel, which tells the poller. */
    method SetInterest(op: ChannelOp)
      requires Valid()
      modifies channel`events, channel`index, channel.poller`channels, channel.poller`kernel
      ensures Valid() && View() == OnChannel(old(View()), op)
    {
      channel.Apply(op);
    }

    method SetState(s: StateE)
      requires Valid()
      modifies this`state
      ensures Valid() && View() == old(View()).(state := s)
    {
      state := s;
    }

    method Disconnect()
      requires Valid()
      modifies this`state, channel`events, channel`index, channel.poller`channels, channel.poller`kernel
      ensures Valid() && View() == OnChannel(old(View()).(state := Disconnected), DisableAll)
    {
      SetState(Disconnected);
      SetInterest(DisableAll);
    }

    /** connectionCallback_ of connectEstablished. */
    method NotifyUp()
      requires Valid()
      modifies this`ups
      ensures Valid() && View() == old(View()).(ups := old(ups) + 1)
    {
      ups := ups + 1;
    }

    /** connectionCallback_ of handleClose and connectDestroyed. */
    method NotifyDown()
      requires Valid()
      modifies this`downs
      ensures Valid() && View() == old(View()).(downs := old(downs) + 1)
    {
      downs := downs + 1;
    }

    /** closeCallback_. */
    method NotifyClosed()
      requires Valid()
      modifies this`closes
      ensures Valid() && View() == old(View()).(closes := old(closes) + 1)
    {
      closes := closes + 1;
    }

    method ConnectEstablished()
      requires Valid()
      modifies this`state, this`ups, this`tied
      modifies channel`events, channel`index, channel.poller`channels, channel.poller`kernel
      ensures Valid() && View() == Step(AsWritten, old(View()), Establish) && tied
    {
      SetState(Connected);
      tied := true;
      SetInterest(EnableReading);
      NotifyUp();
    }

    method ConnectDestroyed()
      requires Valid()
      modifies this`state, this`downs, channel`events, channel`index, channel.poller`channels, channel.poller`kernel
      ensures Valid() && View() == Step(AsWritten, old(View()), Destroy)
    {
      if state == Connected {
        Disconnect();
        NotifyDown();
      }
      SetInterest(RemoveIt);
    }

    method Send(data: seq<Byte>, w: WriteResult)
      requires Valid()
      modifies this`marks, this`completes, socket, outputBuffer, outputBuffer.buffer
      modifies channel`events, channel`index, channel.poller`channels, channel.poller`kernel
      ensures Valid() && View() == Step(AsWritten, old(View()), ConnEvent.Send(data, w))
      ensures fresh(outputBuffer.buffer) || outputBuffer.buffer == old(outputBuffer.buffer)
    {
      if state == Connected {
        SendInLoop(data, w);
      }
    }

    method SendInLoop(data: seq<Byte>, w: WriteResult)
      requires Valid()
      modifies this`marks, this`completes, socket, outputBuffer, outputBuffer.buffer
      modifies channel`events, channel`index, channel.poller`channels, channel.poller`kernel
      ensures Valid() && View() == Step(AsWritten, old(View()), LateSend(data, w))
      ensures fresh(outputBuffer.buffer) || outputBuffer.buffer == old(outputBuffer.buffer)
    {
      if state == Disconnected {
        return;
      }
      var nwrote, faultError := WriteIfDirect(data, w);
      EnqueueUnlessDone(data, nwrote, faultError);
    }

    /** The first half of sendInLoop: write(2) is tried when nothing is queued before the data. */
    method WriteIfDirect(data: seq<Byte>, w: WriteResult) returns (nwrote: nat, faultError: bool)
      requires Valid()
      modifies this`completes, socket`wire
      ensures Valid() && nwrote <= |data|
      ensures var c := old(View());
              var tried := Out !in c.slot.events && c.output == [];
              && View() == (if tried then WrittenAtOnce(c, data, w) else c)
              && nwrote == (if tried && w.Wrote? then Min(w.room, |data|) else 0)
              && faultError == (tried && w.Fault?)
    {
      nwrote, faultError := 0, false;
      if !channel.IsWriting() && outputBuffer.ReadableBytes() == 0 {
        nwrote, faultError := WriteAtOnce(data, w);
      }
    }

    /** The second half of sendInLoop. */
    method EnqueueUnlessDone(data: seq<Byte>, nwrote: nat, faultError: bool)
      requires Valid() && nwrote <= |data|
      modifies this`marks, outputBuffer, outputBuffer.buffer
      modifies channel`events, channel`index, channel.poller`channels, channel.poller`kernel
      ensures Valid() && View() == EnqueueUnless(old(View()), data, nwrote, faultError)
      ensures fresh(outputBuffer.buffer) || outputBuffer.buffer == old(outputBuffer.buffer)
    {
      if !faultError && |data| - nwrote > 0 {
        EnqueueRest(data[nwrote..]);
      }
    }

    /** write(2) at once, its outcome and errno. */
    method WriteAtOnce(data: seq<Byte>, w: WriteResult) returns (nwrote: nat, faultError: bool)
      requires Valid()
      modifies this`completes, socket`wire
      ensures Valid() && nwrote == |Accepted(w, data)| && faultError == w.Fault?
      ensures View() == WrittenAtOnce(old(View()), data, w)
    {
      var n := socket.Write(data, w);
      faultError := false;
      if n >= 0 {
        nwrote := n;
        if |data| - nwrote == 0 && config.hasWriteComplete {
          completes := completes + 1;
        }
      } else {
        nwrote := 0;
        faultError := w == Fault;
      }
    }

    /** What was not written goes to the buffer, and the channel waits for EPOLLOUT. */
    method EnqueueRest(rest: seq<Byte>)
      requires Valid()
      modifies this`marks, outputBuffer, outputBuffer.buffer
      modifies channel`events, channel`index, channel.poller`channels, channel.poller`kernel
      ensures Valid() && View() == Enqueue(old(View()), rest)
      ensures fresh(outputBuffer.buffer) || outputBuffer.buffer == old(outputBuffer.buffer)
    {
      var oldlen := outputBuffer.ReadableBytes();
      if oldlen + |rest| >= config.highWaterMark && oldlen < config.highWaterMark && config.hasHighWater {
        marks := marks + [oldlen + |rest|];
      }
      outputBuffer.Append(rest);
      if !channel.IsWriting() {
        SetInterest(EnableWriting);
      }
    }

    method Shutdown()
      requires Valid()
      modifies this`state, this`halfCloses, socket
      ensures Valid() && View() == Step(AsWritten, old(View()), ConnEvent.Shutdown)
    {
      if state == Connected {
        state := Disconnecting;
        ShutdownInLoop();
      }
    }

    method ShutdownInLoop()
      requires Valid()
      modifies this`halfCloses, socket
      ensures Valid() && View() == Step(AsWritten, old(View()), LateShutdown)
    {
      if !channel.IsWriting() {
        socket.ShutdownWrite();
        halfCloses := halfCloses + [|outputBuffer.Contents()|];
      }
    }

    method HandleRead(arriving: seq<Byte>, n: int)
      requires Valid() && n <= |arriving| && n <= ReadCapacity(inputBuffer.CurrentShape())
      modifies this`state, this`downs, this`closes, inputBuffer, inputBuffer.buffer
      modifies channel`events, channel`index, channel.poller`channels, channel.poller`kernel
      ensures Valid()
      ensures View() == Step(AsWritten, old(View()), Read(if n < 0 then Failed else Got(arriving[..n])))
      ensures fresh(inputBuffer.buffer) || inputBuffer.buffer == old(inputBuffer.buffer)
    {
      var savedErrno := inputBuffer.ReadFd(arriving, n, 0);
      if n == 0 {
        assert View() == old(View());
        HandleClose();
      }
    }

    method HandleWrite(w: WriteResult)
      requires Valid()
      modifies this`state, this`completes, socket`wire, outputBuffer`readerIndex, outputBuffer`writerIndex
      modifies channel`events, channel`index, channel.poller`channels, channel.poller`kernel
      ensures Valid() && View() == Step(AsWritten, old(View()), Write(w))
    {
      if channel.IsWriting() {
        var n := WriteOut(w);
        if n > 0 && outputBuffer.ReadableBytes() == 0 {
          OutputDrained();
        }
      }
    }

    /** handleWrite offers the backlog to the socket and retrieves what it takes. */
    method WriteOut(w: WriteResult) returns (n: int)
      requires Valid()
      modifies socket`wire, outputBuffer`readerIndex, outputBuffer`writerIndex
      ensures Valid() && n == if w.Wrote? then |Accepted(w, old(View()).output)| else -1
      ensures var accepted := Accepted(w, old(View()).output);
              View() == old(View()).(wire := old(View()).wire + accepted, output := old(View()).output[|accepted|..])
    {
      var accepted, saveErrno;
      n, accepted, saveErrno := outputBuffer.WriteFd(w, 0, 0);
      if n > 0 {
        socket.wire := socket.wire + accepted;
        outputBuffer.Retrieve(n);
      }
    }

    /**
     The end of handleWrite. The test after the drain assigns kDisconnected, the enumerator 0, so its
     branch (shutdownInLoop) is never taken.
     */
    method OutputDrained()
      requires Valid()
      modifies this`state, this`completes, channel`events, channel`index, channel.poller`channels, channel.poller`kernel
      ensures Valid() && View() == Drained(AsWritten, old(View()))
    {
      SetInterest(DisableWriting);
      if config.hasWriteComplete {
        completes := completes + 1;
      }
      state := Disconnected;
    }

    method HandleClose()
      requires Valid()
      modifies this`state, this`downs, this`closes
      modifies channel`events, channel`index, channel.poller`channels, channel.poller`kernel
      ensures Valid() && View() == Step(AsWritten, old(View()), Close)
    {
      Disconnect();
      NotifyDown();
      NotifyClosed();
    }

    /** The user retrieves from the input buffer. */
    method Consume(len: nat)
      requires Valid()
      modifies inputBuffer`readerIndex, inputBuffer`writerIndex
      ensures Valid() && View() == Step(AsWritten, old(View()), ConnEvent.Consume(len))
    {
      inputBuffer.Retrieve(len);
    }

    /** One thing user code does in a callback. */
    method ReactOnce(e: ConnEvent)
      requires Valid() && UserEvent(e)
      modifies this`state, this`marks, this`completes, this`halfCloses
      modifies socket, outputBuffer, outputBuffer.buffer, inputBuffer
      modifies channel`events, channel`index, channel.poller`channels, channel.poller`kernel
      ensures Valid() && View() == Step(AsWritten, old(View()), e)
      ensures fresh(outputBuffer.buffer) || outputBuffer.buffer == old(outputBuffer.buffer)
      ensures inputBuffer.buffer == old(inputBuffer.buffer)
    {
      match e
      case Send(data, w) => Send(data, w);
      case Shutdown => Shutdown();
      case Consume(len) => Consume(len);
    }

    /** User code in a callback. */
    method React(es: seq<ConnEvent>)
      requires Valid() && forall e <- es :: UserEvent(e)
      modifies this`state, this`marks, this`completes, this`halfCloses
      modifies socket, outputBuffer, outputBuffer.buffer, inputBuffer
      modifies channel`events, channel`index, channel.poller`channels, channel.poller`kernel
      ensures Valid() && View() == After(AsWritten, old(View()), es)
      ensures fresh(outputBuffer.buffer) || outputBuffer.buffer == old(outputBuffer.buffer)
      ensures inputBuffer.buffer == old(inputBuffer.buffer)
      decreases |es|
    {
      if es != [] {
        ReactOnce(es[0]);
        React(es[1..]);
      }
    }

    method CloseAndReact(u: seq<ConnEvent>)
      requires Valid() && forall e <- u :: UserEvent(e)
      modifies this, socket, outputBuffer, outputBuffer.buffer, inputBuffer
      modifies channel`events, channel`index, channel.poller`channels, channel.poller`kernel
      ensures Valid() && View() == After(AsWritten, old(View()), [Close] + u)
      ensures fresh(outputBuffer.buffer) || outputBuffer.buffer == old(outputBuffer.buffer)
      ensures inputBuffer.buffer == old(inputBuffer.buffer)
    {
      HandleClose();
      React(u);
      assert ([Close] + u)[1..] == u;
    }

    /** The kernel returns `n`, or as much of it as the segments can take. */
    method ReadAndReact(arriving: seq<Byte>, n: int, u: seq<ConnEvent>) returns (taken: int)
      requires Valid() && n <= |arriving| && forall e <- u :: UserEvent(e)
      modifies this, socket, outputBuffer, outputBuffer.buffer, inputBuffer, inputBuffer.buffer
      modifies channel`events, channel`index, channel.poller`channels, channel.poller`kernel
      ensures Valid() && taken <= n && (n <= old(ReadCapacity(inputBuffer.CurrentShape())) ==> taken == n)
      ensures var r := if taken < 0 then Failed else Got(arriving[..taken]);
              View() == After(AsWritten, old(View()), [Read(r)] + u)
      ensures fresh(outputBuffer.buffer) || outputBuffer.buffer == old(outputBuffer.buffer)
      ensures fresh(inputBuffer.buffer) || inputBuffer.buffer == old(inputBuffer.buffer)
    {
      var writable := inputBuffer.buffer.Length - inputBuffer.writerIndex;
      var capacity := if writable < EXTRA_BUF then writable + EXTRA_BUF else writable;
      taken := if n <= capacity then n else capacity;
      HandleRead(arriving, taken);
      React(u);
      var r := if taken < 0 then Failed else Got(arriving[..taken]);
      assert ([Read(r)] + u)[1..] == u;
    }

    method WriteAndReact(w: WriteResult, u: seq<ConnEvent>)
      requires Valid() && forall e <- u :: UserEvent(e)
      modifies this, socket, outputBuffer, outputBuffer.buffer, inputBuffer
      modifies channel`events, channel`index, channel.poller`channels, channel.poller`kernel
      ensures Valid() && View() == After(AsWritten, old(View()), [Write(w)] + u)
      ensures fresh(outputBuffer.buffer) || outputBuffer.buffer == old(outputBuffer.buffer)
      ensures inputBuffer.buffer == old(inputBuffer.buffer)
    {
      HandleWrite(w);
      React(u);
      assert ([Write(w)] + u)[1..] == u;
    }

    /**
     Channel::handleEvent: nothing when the channel is tied to an object that is gone, and otherwise the
     callbacks of one reported event set in their fixed order, each with the user code it runs.
     */
    method HandleEvent(alive: bool, arriving: seq<Byte>, n: int, w: WriteResult, u: Reactions) returns (taken: int)
      requires Valid() && n <= |arriving| && u.Valid()
      modifies this, socket, outputBuffer, outputBuffer.buffer, inputBuffer, inputBuffer.buffer
      modifies channel`events, channel`index, channel.poller`channels, channel.poller`kernel
      ensures Valid() && taken <= n
      ensures old(tied) && !alive ==> View() == old(View())
      ensures !old(tied) || alive ==>
                var r := if taken < 0 then Failed else Got(arriving[..taken]);
                View() == After(AsWritten, old(View()), Dispatch(old(channel.revents), r, w, u))
      ensures n <= old(ReadCapacity(inputBuffer.CurrentShape())) && !HangsUp(old(channel.revents)) ==> taken == n
    {
      taken := n;
      if tied && !alive {
        return;
      }
      taken := HandleEventWithGuard(arriving, n, w, u);
    }

    method HandleEventWithGuard(arriving: seq<Byte>, n: int, w: WriteResult, u: Reactions) returns (taken: int)
      requires Valid() && n <= |arriving| && u.Valid()
      modifies this, socket, outputBuffer, outputBuffer.buffer, inputBuffer, inputBuffer.buffer
      modifies channel`events, channel`index, channel.poller`channels, channel.poller`kernel
      ensures Valid() && taken <= n
      ensures var r := if taken < 0 then Failed else Got(arriving[..taken]);
              View() == After(AsWritten, old(View()), Dispatch(old(channel.revents), r, w, u))
      ensures n <= old(ReadCapacity(inputBuffer.CurrentShape())) && !HangsUp(old(channel.revents)) ==> taken == n
    {
      var revents := channel.revents;
      ghost var c := View();
      taken := n;
      if Hup in revents && In !in revents {
        CloseAndReact(u.onClose);
      }
      ghost var c1 := View();
      if revents * READ_EVENT != {} {
        taken := ReadAndReact(arriving, n, u.onRead);
      }
      ghost var c2 := View();
      if Out in revents {
        WriteAndReact(w, u.onWrite);
      }
      DispatchInStages(AsWritten, c, revents, if taken < 0 then Failed else Got(arriving[..taken]), w, u);
    }

    // -------------------------------------------------------------------------
    // Any sequence of events

    /** What has arrived is read; what one readv cannot take, the next does. An end of file closes. */
    method ReadAll(bytes: seq<Byte>)
      requires Valid()
      modifies this`state, this`downs, this`closes, inputBuffer, inputBuffer.buffer
      modifies channel`events, channel`index, channel.poller`channels, channel.poller`kernel
      ensures Valid() && View() == Step(AsWritten, old(View()), Read(Got(bytes)))
      ensures fresh(inputBuffer.buffer) || inputBuffer.buffer == old(inputBuffer.buffer)
      decreases |bytes|
    {
      var writable := inputBuffer.buffer.Length - inputBuffer.writerIndex;
      var n := Min(|bytes|, if writable < EXTRA_BUF then writable + EXTRA_BUF else writable);
      ghost var before := View().input;
      HandleRead(bytes, n);
      if n < |bytes| {
        ReadAll(bytes[n..]);
        SplitsAt(bytes, n);
        Associates(before, bytes[..n], bytes[n..]);
      } else {
        assert bytes[..n] == bytes;
      }
    }

    /** Another thread's shutdown(): the state alone, checked and stored in one step. */
    method TakeShutdown()
      requires Valid()
      modifies this`state
      ensures Valid() && View() == Step(AsWritten, old(View()), ShutdownTake)
    {
      if state == Connected {
        SetState(Disconnecting);
      }
    }

    /** A callback of the channel, or connectEstablished or connectDestroyed. */
    method LoopEvent(e: ConnEvent)
      requires Valid() && (e.Establish? || e.Read? || e.Write? || e.Close? || e.Destroy?)
      modifies this, socket, outputBuffer, inputBuffer, inputBuffer.buffer
      modifies channel`events, channel`index, channel.poller`channels, channel.poller`kernel
      ensures Valid() && View() == Step(AsWritten, old(View()), e)
      ensures outputBuffer.buffer == old(outputBuffer.buffer)
      ensures fresh(inputBuffer.buffer) || inputBuffer.buffer == old(inputBuffer.buffer)
    {
      match e
      case Establish => ConnectEstablished();
      case Read(r) => if r == Failed { HandleRead([], -1); } else { ReadAll(r.bytes); }
      case Write(w) => HandleWrite(w);
      case Close => HandleClose();
      case Destroy => ConnectDestroyed();
    }

    /** What comes from users: calls in callbacks, other threads' stores and the functors they queue. */
    method UserAction(e: ConnEvent)
      requires Valid() && !(e.Establish? || e.Read? || e.Write? || e.Close? || e.Destroy?)
      modifies this`state, this`marks, this`completes, this`halfCloses
      modifies socket, outputBuffer, outputBuffer.buffer, inputBuffer
      modifies channel`events, channel`index, channel.poller`channels, channel.poller`kernel
      ensures Valid() && View() == Step(AsWritten, old(View()), e)
      ensures fresh(outputBuffer.buffer) || outputBuffer.buffer == old(outputBuffer.buffer)
      ensures inputBuffer.buffer == old(inputBuffer.buffer)
    {
      if e.LateSend? {
        SendInLoop(e.data, e.w);
      } else if e.ShutdownTake? {
        TakeShutdown();
      } else if e.ShutdownSet? {
        SetState(Disconnecting);
      } else if e.LateShutdown? {
        ShutdownInLoop();
      } else {
        ReactOnce(e);
      }
    }

    /** The object goes where the events take its abstract connection. */
    method Drive(es: seq<ConnEvent>)
      requires Valid()
      modifies this, socket, outputBuffer, outputBuffer.buffer, inputBuffer, inputBuffer.buffer
      modifies channel`events, channel`index, channel.poller`channels, channel.poller`kernel
      ensures Valid() && View() == After(AsWritten, old(View()), es)
      ensures fresh(outputBuffer.buffer) || outputBuffer.buffer == old(outputBuffer.buffer)
      ensures fresh(inputBuffer.buffer) || inputBuffer.buffer == old(inputBuffer.buffer)
      decreases |es|
    {
      if es != [] {
        var e := es[0];
        if e.Establish? || e.Read? || e.Write? || e.Close? || e.Destroy? {
          LoopEvent(e);
        } else {
          UserAction(e);
        }
        Drive(es[1..]);
      }
    }
  }

  /**
   Any sequence of events: a new object with real buffers, channel, poller and socket ends where the
   events take the abstract connection.
   */
  method Replay(config: Config, sockfd: int, es: seq<ConnEvent>)
    returns (state: StateE, wire: seq<Byte>, backlog: seq<Byte>, received: seq<Byte>, registered: Option<Mask>)
    ensures var c := After(AsWritten, Born(config), es);
            && state == c.state && wire == c.wire && backlog == c.output && received == c.input
            && registered == c.slot.kernel
  {
    var poller := new EPollPoller();
    var conn := new TcpConnection(config, poller, sockfd);
    conn.Drive(es);
    state, wire := conn.state, conn.socket.wire;
    backlog := conn.outputBuffer.buffer[conn.outputBuffer.readerIndex..conn.outputBuffer.writerIndex];
    received := conn.inputBuffer.buffer[conn.inputBuffer.readerIndex..conn.inputBuffer.writerIndex];
    registered := if sockfd in poller.kernel && poller.kernel[sockfd].ptr == conn.channel
                  then Some(poller.kernel[sockfd].mask) else None;
  }
}
