/**
 What an event does to a connection, field by field: for each field, the events that change it, from
 which fields, and to what. Module Connection defines the events one by one; here each of its fields
 is accounted for over all of them, in terms of the fields and of what the kernel answers alone.
 */
module ConnectionLaws {
  import opened ByteBuffer
  import opened Epoll
  import opened Connection

  /** The event brings data past sendInLoop's test of the state, or past send()'s. */
  predicate Offers(c: Conn, e: ConnEvent) {
    (e.Send? && c.state.Connected?) || (e.LateSend? && !c.state.Disconnected?)
  }

  /** ... and nothing is queued before it, so that write(2) is tried. */
  predicate TriesWrite(c: Conn, e: ConnEvent) {
    Offers(c, e) && Out !in c.slot.events && c.output == []
  }

  /** How many of `n` offered bytes the kernel takes. */
  function Taken(w: WriteResult, n: nat): nat {
    if w.Wrote? then Min(w.room, n) else 0
  }

  /** A writable event takes the whole backlog. */
  predicate Empties(c: Conn, e: ConnEvent) {
    e.Write? && Out in c.slot.events && e.w.Wrote? && 0 < |c.output| <= e.w.room
  }

  predicate Closes(e: ConnEvent) {
    e.Close? || e == Read(Got([]))
  }

  // ---------------------------------------------------------------------------
  // Socket, backlog and input

  /** The bytes the event puts on the wire: of its own data at once, or of the backlog when writable. */
  function Written(c: Conn, e: ConnEvent): seq<Byte> {
    if TriesWrite(c, e) then e.data[..Taken(e.w, |e.data|)]
    else if e.Write? && Out in c.slot.events then c.output[..Taken(e.w, |c.output|)]
    else []
  }

  lemma WireGrowsExactly(v: Drain, c: Conn, e: ConnEvent)
    ensures Step(v, c, e).wire == c.wire + Written(c, e)
  {
  }

  function AllWritten(v: Drain, c: Conn, es: seq<ConnEvent>): seq<Byte>
    decreases |es|
  {
    if es == [] then [] else Written(c, es[0]) + AllWritten(v, Step(v, c, es[0]), es[1..])
  }

  /** On every run the wire carries just what the sends and the writable events put there, in order. */
  lemma {:induction false} WireIsWhatIsWritten(v: Drain, c: Conn, es: seq<ConnEvent>)
    ensures After(v, c, es).wire == c.wire + AllWritten(v, c, es)
    decreases |es|
  {
    if es != [] {
      WireGrowsExactly(v, c, es[0]);
      WireIsWhatIsWritten(v, Step(v, c, es[0]), es[1..]);
      Associates(c.wire, Written(c, es[0]), AllWritten(v, Step(v, c, es[0]), es[1..]));
    }
  }

  /** What a send leaves unwritten is kept unless it faulted at once; a writable event takes from the front. */
  lemma BacklogChangesExactly(v: Drain, c: Conn, e: ConnEvent)
    ensures Step(v, c, e).output
         == if TriesWrite(c, e) then (if e.w.Fault? then [] else e.data[Taken(e.w, |e.data|)..])
            else if Offers(c, e) then c.output + e.data
            else if e.Write? && Out in c.slot.events then c.output[Taken(e.w, |c.output|)..]
            else c.output
  {
  }

  lemma InputChangesExactly(v: Drain, c: Conn, e: ConnEvent)
    ensures Step(v, c, e).input
         == if e.Read? && e.r.Got? then c.input + e.r.bytes
            else if e.Consume? then c.input[Min(e.len, |c.input|)..]
            else c.input
  {
  }

  // ---------------------------------------------------------------------------
  // State

  /** Every change of state_, over all events and both forms of the test after a drain. */
  lemma StateChangesExactly(v: Drain, c: Conn, e: ConnEvent)
    ensures Step(v, c, e).state
         == if e.Establish? then Connected
            else if Closes(e) || (v.AsWritten? && Empties(c, e)) || (e.Destroy? && c.state.Connected?) then Disconnected
            else if e.ShutdownSet? || ((e.Shutdown? || e.ShutdownTake?) && c.state.Connected?) then Disconnecting
            else c.state
  {
  }

  /** The event takes the connection out of the state it is in. */
  predicate Leaves(v: Drain, c: Conn, e: ConnEvent) {
    match c.state
    case Connecting => e.Establish? || Closes(e) || e.ShutdownSet? || (v.AsWritten? && Empties(c, e))
    case Connected =>
      || Closes(e) || e.Destroy? || e.Shutdown? || e.ShutdownTake? || e.ShutdownSet?
      || (v.AsWritten? && Empties(c, e))
    case Disconnecting => e.Establish? || Closes(e) || (v.AsWritten? && Empties(c, e))
    case Disconnected => e.Establish? || e.ShutdownSet?
  }

  predicate StaysIn(v: Drain, c: Conn, es: seq<ConnEvent>, s: StateE)
    decreases |es|
  {
    c.state == s && (es != [] ==> StaysIn(v, Step(v, c, es[0]), es[1..], s))
  }

  predicate NoneLeaves(v: Drain, c: Conn, es: seq<ConnEvent>)
    decreases |es|
  {
    es != [] ==> !Leaves(v, c, es[0]) && NoneLeaves(v, Step(v, c, es[0]), es[1..])
  }

  /** On every run a connection stays in its state, kConnected for one, exactly until an event that leaves it. */
  lemma {:induction false} StateLastsExactly(v: Drain, c: Conn, es: seq<ConnEvent>)
    ensures StaysIn(v, c, es, c.state) <==> NoneLeaves(v, c, es)
    decreases |es|
  {
    if es != [] {
      var d := Step(v, c, es[0]);
      StateChangesExactly(v, c, es[0]);
      assert d.state == c.state <==> !Leaves(v, c, es[0]);
      if d.state == c.state {
        StateLastsExactly(v, d, es[1..]);
      }
    }
  }

  // ---------------------------------------------------------------------------
  // Half-close

  /** SHUT_WR is issued by shutdownInLoop when the channel is not writing, and by the intended test after a drain. */
  lemma HalfClosesExactly(v: Drain, c: Conn, e: ConnEvent)
    ensures Step(v, c, e).halfCloses
         == c.halfCloses
          + if (e.LateShutdown? || (e.Shutdown? && c.state.Connected?)) && Out !in c.slot.events then [|c.output|]
            else if v.Intended? && Empties(c, e) && c.state.Disconnecting? then [0]
            else []
  {
  }

  /**
   shutdown() on a live connection half-closes at once if it is connected without backlog, and not at
   all otherwise; likewise another thread's, when its functor follows its store.
   */
  lemma ShutdownHalfClosesAtOnce(v: Drain, c: Conn)
    requires Live(c)
    ensures var d := Step(v, c, Shutdown);
            && d.halfCloses == c.halfCloses + (if c.state.Connected? && c.output == [] then [0] else [])
            && d.state == if c.state.Connected? then Disconnecting else c.state
    ensures var d := After(v, c, [ShutdownTake, LateShutdown]);
            && d.halfCloses == c.halfCloses + (if c.output == [] then [0] else [])
            && d.state == if c.state.Connected? then Disconnecting else c.state
  {
    AfterTwo(v, c, ShutdownTake, LateShutdown);
  }

  // ---------------------------------------------------------------------------
  // Callbacks

  lemma CallbacksFireExactly(v: Drain, c: Conn, e: ConnEvent)
    ensures var d := Step(v, c, e);
            && d.ups == c.ups + (if e.Establish? then 1 else 0)
            && d.downs == c.downs + (if Closes(e) || (e.Destroy? && c.state.Connected?) then 1 else 0)
            && d.closes == c.closes + (if Closes(e) then 1 else 0)
  {
  }

  /** Write-complete callbacks are queued on whole writes and on drains, high-water ones on crossings, if set. */
  lemma CallbacksAreQueuedExactly(v: Drain, c: Conn, e: ConnEvent)
    ensures var d, full := Step(v, c, e), TriesWrite(c, e) && e.w.Wrote? && e.w.room >= |e.data|;
            && d.config == c.config
            && d.completes == c.completes + (if c.config.hasWriteComplete && (full || Empties(c, e)) then 1 else 0)
            && d.marks == c.marks + if c.config.hasHighWater && |c.output| < c.config.highWaterMark <= |d.output|
                                    then [|d.output|] else []
  {
    if Offers(c, e) { SendIsQueuedExactly(v, c, e); }
  }

  lemma SendIsQueuedExactly(v: Drain, c: Conn, e: ConnEvent)
    requires Offers(c, e)
    ensures var d, full := Step(v, c, e), TriesWrite(c, e) && e.w.Wrote? && e.w.room >= |e.data|;
            && d.completes == c.completes + (if c.config.hasWriteComplete && full then 1 else 0)
            && d.marks == c.marks + if c.config.hasHighWater && |c.output| < c.config.highWaterMark <= |d.output|
                                    then [|d.output|] else []
  {
  }

  // ---------------------------------------------------------------------------
  // Interest and registration

  /** The backlog has grown: the rest of a send waits for EPOLLOUT. */
  predicate Queues(v: Drain, c: Conn, e: ConnEvent) {
    Offers(c, e) && |Step(v, c, e).output| > |c.output|
  }

  lemma InterestChangesExactly(v: Drain, c: Conn, e: ConnEvent)
    ensures Step(v, c, e).slot.events
         == if e.Establish? then c.slot.events + {In, Pri}
            else if Closes(e) || (e.Destroy? && c.state.Connected?) then {}
            else if Queues(v, c, e) then c.slot.events + {Out}
            else if Empties(c, e) then c.slot.events - {Out}
            else c.slot.events
  {
  }

  /** The event changes the channel's interest, and the poller is told. */
  predicate TellsPoller(v: Drain, c: Conn, e: ConnEvent) {
    e.Establish? || Closes(e) || (Queues(v, c, e) && Out !in c.slot.events) || Empties(c, e)
  }

  /**
   connectDestroyed takes the channel out of the poller; else a channel the poller is told of is
   kDeleted if it was kAdded and has lost all interest, and kAdded otherwise. The mirror says the rest.
   */
  lemma RegistrationChangesExactly(v: Drain, c: Conn, e: ConnEvent)
    requires Mirror(c.slot)
    ensures var d := Step(v, c, e);
            && Mirror(d.slot)
            && d.slot.index == if e.Destroy? then New
                               else if !TellsPoller(v, c, e) then c.slot.index
                               else if c.slot.index.Added? && d.slot.events == {} then Deleted
                               else Added
  {
    if Offers(c, e) { SendRegistersExactly(v, c, e); }
  }

  lemma SendRegistersExactly(v: Drain, c: Conn, e: ConnEvent)
    requires Mirror(c.slot) && Offers(c, e)
    ensures var d := Step(v, c, e);
            && Mirror(d.slot)
            && d.slot.index == if Queues(v, c, e) && Out !in c.slot.events then Added else c.slot.index
  {
  }

  /** A new connection. */
  lemma NothingAtBirth(config: Config)
    ensures var c := Born(config);
            && c.config == config && c.state.Connecting? && c.output == c.input == c.wire == []
            && c.slot == Slot({}, New, false, None) && c.halfCloses == c.marks == []
            && c.completes == c.ups == c.downs == c.closes == 0
  {
  }
}
