/**
 Channel (Channel.h, Channel.cc) and EPollPoller (EPollPoller.cc, Poller.cc).

 A `Slot` is everything the program and the kernel record about one descriptor: the
 channel's interest mask and index, whether channels_ lists it, and the entry of the
 kernel's epoll set. The classes below update the real maps and fields in place and are
 proved to move each slot as the functions here say, and to leave all other slots alone.
 */
module Epoll {

  datatype Option<+T> = None | Some(value: T)

  datatype Event = In | Pri | Out | Err | Hup

  type Mask = set<Event>

  const NONE_EVENT: Mask := {}
  const READ_EVENT: Mask := {In, Pri}
  const WRITE_EVENT: Mask := {Out}

  /** kNew, kAdded, kDeleted. */
  datatype Index = New | Added | Deleted

  datatype Ctl = Add | Mod | Del

  datatype Slot = Slot(events: Mask, index: Index, listed: bool, kernel: Option<Mask>)

  const FRESH: Slot := Slot(NONE_EVENT, New, false, None)

  /** epoll_ctl(2): ADD fails on a present descriptor (EEXIST), MOD and DEL on an absent one (ENOENT). */
  predicate CtlSucceeds(op: Ctl, kernel: Option<Mask>) {
    op.Add? <==> kernel.None?
  }

  function AfterCtl(op: Ctl, kernel: Option<Mask>, mask: Mask): Option<Mask> {
    if !CtlSucceeds(op, kernel) then kernel else if op.Del? then None else Some(mask)
  }

  function UpdateOp(s: Slot): Ctl {
    if !s.index.Added? then Add else if s.events == NONE_EVENT then Del else Mod
  }

  /** EPollPoller::updateChannel seen from one descriptor. */
  function Update(s: Slot): Slot {
    var op := UpdateOp(s);
    Slot(s.events,
         if op.Del? then Deleted else Added,
         s.listed || s.index.New?,
         AfterCtl(op, s.kernel, s.events))
  }

  /** EPollPoller::removeChannel seen from one descriptor. */
  function Remove(s: Slot): Slot {
    Slot(s.events, New, false, if s.index.Added? then AfterCtl(Del, s.kernel, s.events) else s.kernel)
  }

  datatype ChannelOp = EnableReading | DisableReading | EnableWriting | DisableWriting | DisableAll | RemoveIt

  function Interest(events: Mask, op: ChannelOp): Mask {
    match op
    case EnableReading => events + READ_EVENT
    case DisableReading => events - READ_EVENT
    case EnableWriting => events + WRITE_EVENT
    case DisableWriting => events - WRITE_EVENT
    case DisableAll => NONE_EVENT
    case RemoveIt => events
  }

  function AfterOp(s: Slot, op: ChannelOp): Slot {
    if op.RemoveIt? then Remove(s) else Update(s.(events := Interest(s.events, op)))
  }

  /**
   No system call of this operation fails, and updateChannel's `channels_[fd]->isNoneEvent()`
   finds the channel (operator[] would otherwise create a null entry and dereference it).
   */
  predicate Succeeds(s: Slot, op: ChannelOp) {
    if op.RemoveIt? then
      s.index.Added? ==> CtlSucceeds(Del, s.kernel)
    else
      && CtlSucceeds(UpdateOp(s.(events := Interest(s.events, op))), s.kernel)
      && (s.index.Added? ==> s.listed)
  }

  /** The kernel set, the poller's map and the channel's index and mask agree. */
  predicate Mirror(s: Slot) {
    && (s.kernel.Some? <==> s.index.Added?)
    && (s.kernel.Some? ==> s.kernel.value == s.events)
    && (s.listed <==> !s.index.New?)
    && (s.index.Deleted? ==> s.events == NONE_EVENT)
  }

  function AfterOps(s: Slot, ops: seq<ChannelOp>): Slot
    decreases |ops|
  {
    if ops == [] then s else AfterOp(AfterOps(s, ops[..|ops| - 1]), ops[|ops| - 1])
  }

  /** Any sequence of operations keeps the mirror, and none of its epoll_ctl calls can fail. */
  lemma {:induction false} MirrorHoldsOverRuns(s: Slot, ops: seq<ChannelOp>)
    requires Mirror(s)
    ensures Mirror(AfterOps(s, ops))
    ensures forall k :: 0 <= k < |ops| ==> Succeeds(AfterOps(s, ops[..k]), ops[k])
    decreases |ops|
  {
    if ops != [] {
      var init := ops[..|ops| - 1];
      MirrorHoldsOverRuns(s, init);
      assert forall k :: 0 <= k < |init| ==> init[..k] == ops[..k];
    }
  }

  /** Each operation sets or clears just its own bits of the interest mask. */
  lemma InterestIsExact(s: Slot, op: ChannelOp, b: Event)
    ensures b in AfterOp(s, op).events <==>
              match op
              case EnableReading => b in s.events || b == In || b == Pri
              case DisableReading => b in s.events && b != In && b != Pri
              case EnableWriting => b in s.events || b == Out
              case DisableWriting => b in s.events && b != Out
              case DisableAll => false
              case RemoveIt => b in s.events
  {
  }

  /**
   updateChannel adds a channel that is not kAdded, deletes one that is and has lost its interest, and
   else modifies it; removeChannel deletes a kAdded one. On agreeing slots the effects are these.
   */
  lemma RegistrationIsExact(s: Slot, op: ChannelOp)
    requires Mirror(s)
    ensures var t := AfterOp(s, op);
            && t.index == (if op.RemoveIt? then New
                           else if s.index.Added? && t.events == {} then Deleted else Added)
            && t.listed == !op.RemoveIt?
            && t.kernel == if t.index.Added? then Some(t.events) else None
  {
  }

  /**
   disableAll takes the descriptor out of the kernel set exactly when it was in it. On a channel
   that is already out (kDeleted or kNew) it puts the descriptor back, with an empty mask.
   */
  lemma DisableAllUnregistersExactlyTheRegistered(s: Slot)
    requires Mirror(s)
    ensures AfterOp(s, DisableAll).kernel.None? <==> s.index.Added?
    ensures !s.index.Added? ==> AfterOp(s, DisableAll).kernel == Some(NONE_EVENT)
  {
  }

  // ---------------------------------------------------------------------------

  datatype Registration = Registration(mask: Mask, ptr: Channel)

  class EPollPoller {
    var channels: map<int, Channel>
    var kernel: map<int, Registration>  // the interest list behind epollfd_
    var eventsSize: nat                 // events_.size()
    ghost var family: set<Channel>      // the channels of this loop that have not been destroyed

    ghost function SlotOf(c: Channel): Slot
      reads this, c
    {
      Slot(c.events, c.index, c.fd in channels && channels[c.fd] == c,
           if c.fd in kernel && kernel[c.fd].ptr == c then Some(kernel[c.fd].mask) else None)
    }

    ghost predicate Wired()
      reads this
    {
      && (forall c <- family :: c.poller == this)
      && (forall c <- family, d <- family :: c.fd == d.fd ==> c == d)
      && (forall fd <- channels :: channels[fd] in family && channels[fd].fd == fd)
      && (forall fd <- kernel :: kernel[fd].ptr in family && kernel[fd].ptr.fd == fd)
      && eventsSize > 0
    }

    ghost predicate Valid()
      reads this, family
    {
      Wired() && forall c <- family :: Mirror(SlotOf(c))
    }

    constructor ()
      ensures Valid() && family == {}
      ensures eventsSize == 16
    {
      channels, kernel, eventsSize, family := map[], map[], 16, {};
    }

    /** Poller::hasChannel. */
    predicate HasChannel(c: Channel)
      requires Valid() && c in family
      reads this, family
      ensures HasChannel(c) <==> !c.index.New?
    {
      assert Mirror(SlotOf(c));
      c.fd in channels && channels[c.fd] == c
    }

    method UpdateChannel(channel: Channel) returns (ok: bool)
      requires Wired() && channel in family
      requires channel.index.Added? ==> SlotOf(channel).listed
      modifies this`channels, this`kernel, channel`index
      ensures Wired()
      ensures ok == CtlSucceeds(UpdateOp(old(SlotOf(channel))), old(SlotOf(channel)).kernel)
      ensures SlotOf(channel) == Update(old(SlotOf(channel)))
      ensures forall d <- family :: d != channel ==> SlotOf(d) == old(SlotOf(d))
    {
      var index := channel.index;
      if index == New || index == Deleted {
        if index == New {
          channels := channels[channel.fd := channel];
        }
        channel.index := Added;
        ok := EpollCtl(Add, channel);
      } else if channels[channel.fd].events == NONE_EVENT {
        channel.index := Deleted;
        ok := EpollCtl(Del, channel);
      } else {
        ok := EpollCtl(Mod, channel);
      }
    }

    method RemoveChannel(channel: Channel) returns (ok: bool)
      requires Wired() && channel in family
      modifies this`channels, this`kernel, channel`index
      ensures Wired()
      ensures ok == (old(channel.index).Added? ==> CtlSucceeds(Del, old(SlotOf(channel)).kernel))
      ensures SlotOf(channel) == Remove(old(SlotOf(channel)))
      ensures forall d <- family :: d != channel ==> SlotOf(d) == old(SlotOf(d))
    {
      ok := true;
      channels := channels - {channel.fd};
      if channel.index == Added {
        ok := EpollCtl(Del, channel);
      }
      channel.index := New;
    }

    /** EPollPoller::update and the epoll_ctl(2) behind it. */
    method EpollCtl(op: Ctl, channel: Channel) returns (ok: bool)
      requires Wired() && channel in family
      modifies this`kernel
      ensures Wired()
      ensures ok == CtlSucceeds(op, old(SlotOf(channel)).kernel)
      ensures SlotOf(channel).kernel == AfterCtl(op, old(SlotOf(channel)).kernel, channel.events)
      ensures forall d <- family :: d != channel ==> SlotOf(d) == old(SlotOf(d))
    {
      ok := (op == Add) != (channel.fd in kernel);
      if ok {
        kernel := if op == Del then kernel - {channel.fd}
                  else kernel[channel.fd := Registration(channel.events, channel)];
      }
    }

    /**
     poll: epoll_wait(2) reports distinct registered channels, at most as many as the event list
     holds; each gets what happened to it, in the order reported, and a full list doubles.
     A failed or timed-out wait reports nothing.
     */
    method Poll(reported: seq<(Channel, Mask)>) returns (activeChannels: seq<Channel>)
      requires Valid() && |reported| <= eventsSize
      requires forall r <- reported :: r.0 in family && SlotOf(r.0).kernel.Some?
      requires forall i, j :: 0 <= i < j < |reported| ==> reported[i].0 != reported[j].0
      modifies this`eventsSize, (set r <- reported :: r.0)`revents
      ensures Valid() && |activeChannels| == |reported|
      ensures forall i :: 0 <= i < |reported| ==>
                activeChannels[i] == reported[i].0 && reported[i].0.revents == reported[i].1
      ensures forall c <- family :: SlotOf(c) == old(SlotOf(c))
      ensures |reported| < eventsSize
      ensures eventsSize == if |reported| == old(eventsSize) then 2 * old(eventsSize) else old(eventsSize)
    {
      activeChannels := [];
      for i := 0 to |reported|
        invariant |activeChannels| == i && eventsSize == old(eventsSize)
        invariant forall k :: 0 <= k < i ==>
                    activeChannels[k] == reported[k].0 && reported[k].0.revents == reported[k].1
      {
        reported[i].0.revents := reported[i].1;
        activeChannels := activeChannels + [reported[i].0];
      }
      if |reported| > 0 && |reported| == eventsSize {
        eventsSize := eventsSize * 2;
      }
    }
  }

  class Channel {
    const fd: int
    const poller: EPollPoller  // through loop_
    var events: Mask
    var revents: Mask
    var index: Index

    ghost predicate Valid()
      reads this, poller, poller.family
    {
      this in poller.family && poller.Valid()
    }

    /** A new channel on a descriptor no other channel of the loop uses, or uses any more. */
    constructor (poller: EPollPoller, fd: int)
      requires poller.Valid() && forall c <- poller.family :: c.fd != fd
      modifies poller`family
      ensures Valid() && this.poller == poller && this.fd == fd
      ensures poller.family == old(poller.family) + {this} && fresh(this)
      ensures poller.SlotOf(this) == FRESH
      ensures forall c <- old(poller.family) :: poller.SlotOf(c) == old(poller.SlotOf(c))
    {
      this.fd, this.poller := fd, poller;
      events, revents, index := NONE_EVENT, NONE_EVENT, New;
      new;
      poller.family := poller.family + {this};
    }

    /**
     ~Channel, which wants the channel never used or removed. Its descriptor may then be closed, and used
     again by a new channel.
     */
    ghost method Retire()
      requires Valid() && index.New?
      modifies poller`family
      ensures poller.Valid() && poller.family == old(poller.family) - {this}
      ensures forall c <- poller.family :: c.fd != fd
      ensures forall c <- poller.family :: poller.SlotOf(c) == old(poller.SlotOf(c))
    {
      assert Mirror(poller.SlotOf(this));
      poller.family := poller.family - {this};
    }

    /**
     enableReading .. disableAll and remove: the mask changes, then the poller is told. On a valid
     poller no epoll_ctl of any operation fails.
     */
    method Apply(op: ChannelOp)
      requires Valid()
      modifies this`events, this`index, poller`channels, poller`kernel
      ensures Valid() && Succeeds(old(poller.SlotOf(this)), op)
      ensures poller.SlotOf(this) == AfterOp(old(poller.SlotOf(this)), op)
      ensures forall d <- poller.family :: d != this ==> poller.SlotOf(d) == old(poller.SlotOf(d))
    {
      var ok;
      if op == RemoveIt {
        ok := poller.RemoveChannel(this);
      } else {
        events := Interest(events, op);
        ok := poller.UpdateChannel(this);
      }
      assert ok;
    }

    predicate IsWriting()
      reads this
    {
      Out in events
    }
  }

  /** The operations of a script that concern one channel. */
  ghost function OpsOn(c: Channel, script: seq<(Channel, ChannelOp)>): seq<ChannelOp>
    decreases |script|
  {
    if script == [] then [] else
      var rest := OpsOn(c, script[..|script| - 1]);
      var (d, op) := script[|script| - 1];
      if d == c then rest + [op] else rest
  }

  /** Any script over any of a loop's channels: every slot sees just its own operations. */
  method ApplyAll(poller: EPollPoller, script: seq<(Channel, ChannelOp)>)
    requires poller.Valid() && forall e <- script :: e.0 in poller.family
    modifies poller`channels, poller`kernel, poller.family`events, poller.family`index
    ensures poller.Valid()
    ensures forall c <- poller.family ::
              poller.SlotOf(c) == AfterOps(old(poller.SlotOf(c)), OpsOn(c, script))
  {
    for i := 0 to |script|
      invariant poller.Valid()
      invariant forall c <- poller.family ::
                  poller.SlotOf(c) == AfterOps(old(poller.SlotOf(c)), OpsOn(c, script[..i]))
    {
      assert script[..i + 1][..i] == script[..i];
      var (channel, op) := script[i];
      assert script[i] in script;
      channel.Apply(op);
    }
    assert script[..|script|] == script;
  }
}
