/**
 The byte buffer of Buffer.h and Buffer.cc: one growable array with an 8-byte prepend area, a
 reader index and a writer index. Every method is proved to do to the bytes what a plain queue
 does (`Contents`), and to the array and its indices what `Shape` functions say; on those, the
 size of the array is bounded over whole runs by the largest queue.
 */
module ByteBuffer {

  newtype Byte = x: int | 0 <= x < 256

  const CHEAP_PREPEND: nat := 8
  const INITIAL_SIZE: nat := 1024
  const EXTRA_BUF: nat := 65536

  function Max(a: nat, b: nat): nat {
    if a < b then b else a
  }

  function Min(a: nat, b: nat): nat {
    if a < b then a else b
  }

  /** buffer_.size(), readerIndex_ and writerIndex_. */
  datatype Shape = Shape(size: nat, reader: nat, writer: nat)

  predicate WellShaped(s: Shape) {
    && CHEAP_PREPEND <= s.reader <= s.writer <= s.size
    && (s.reader == s.writer ==> s.reader == CHEAP_PREPEND)
  }

  function NewShape(initialSize: nat): (s: Shape)
    ensures WellShaped(s)
  {
    Shape(CHEAP_PREPEND + initialSize, CHEAP_PREPEND, CHEAP_PREPEND)
  }

  /** ensureWritableBytes: nothing, growth at the end, or compaction to the front. */
  function MakeRoom(s: Shape, len: nat): (t: Shape)
    requires WellShaped(s)
    ensures WellShaped(t) && t.size - t.writer >= len && t.writer - t.reader == s.writer - s.reader
  {
    if s.size - s.writer >= len then s
    else if s.size - s.writer + s.reader < len + CHEAP_PREPEND then s.(size := s.writer + len)
    else Shape(s.size, CHEAP_PREPEND, CHEAP_PREPEND + s.writer - s.reader)
  }

  function Appended(s: Shape, len: nat): (t: Shape)
    requires WellShaped(s)
    ensures WellShaped(t) && t.writer - t.reader == s.writer - s.reader + len
  {
    var t := MakeRoom(s, len);
    t.(writer := t.writer + len)
  }

  function Retrieved(s: Shape, len: nat): (t: Shape)
    requires WellShaped(s)
    ensures WellShaped(t)
  {
    if len < s.writer - s.reader then s.(reader := s.reader + len) else Shape(s.size, CHEAP_PREPEND, CHEAP_PREPEND)
  }

  /** Bytes one readFd can take: the writable tail, plus the 64K spill area when the tail is shorter than it. */
  function ReadCapacity(s: Shape): (cap: nat)
    requires WellShaped(s)
    ensures cap >= EXTRA_BUF
  {
    var writable := s.size - s.writer;
    if writable < EXTRA_BUF then writable + EXTRA_BUF else writable
  }

  function ReadIn(s: Shape, n: nat): (t: Shape)
    requires WellShaped(s)
    ensures WellShaped(t) && t.writer - t.reader == s.writer - s.reader + n
  {
    var writable := s.size - s.writer;
    if n <= writable then s.(writer := s.writer + n) else Appended(s.(writer := s.size), n - writable)
  }

  /**
   Where an append puts its bytes: after the writer index if the tail has room; after moving the
   readable bytes down to index 8 if that makes enough; else in an array grown by what is missing.
   */
  lemma AppendMovesExactly(s: Shape, len: nat)
    requires WellShaped(s)
    ensures var t := Appended(s, len);
            if s.writer + len <= s.size then
              t == Shape(s.size, s.reader, s.writer + len)
            else if s.writer - s.reader + 8 + len <= s.size then
              s.reader > 8 && t == Shape(s.size, 8, 8 + s.writer - s.reader + len)
            else
              t == Shape(s.writer + len, s.reader, s.writer + len)
  {
  }

  /** A read takes at most the tail, and 65536 bytes more when the tail is shorter than that. */
  lemma ReadTakesExactly(s: Shape, n: nat)
    requires WellShaped(s)
    ensures var tail := s.size - s.writer;
            n <= ReadCapacity(s) <==> n <= tail || (tail < 65536 && n <= tail + 65536)
    ensures s.writer + n <= s.size ==> ReadIn(s, n) == Shape(s.size, s.reader, s.writer + n)
  {
  }

  /** A retrieve moves the reader index, or both back to 8 when nothing is left. */
  lemma RetrieveMovesExactly(s: Shape, len: nat)
    requires WellShaped(s)
    ensures var t := Retrieved(s, len);
            if s.reader + len < s.writer then t == Shape(s.size, s.reader + len, s.writer) else t == Shape(s.size, 8, 8)
  {
  }

  lemma SplitsAt<T>(s: seq<T>, k: nat)
    requires k <= |s|
    ensures s[..k] + s[k..] == s
  {
  }

  lemma Associates<T>(a: seq<T>, b: seq<T>, c: seq<T>)
    ensures (a + b) + c == a + (b + c)
  {
  }

  class Buffer {
    var buffer: array<Byte>
    var readerIndex: nat
    var writerIndex: nat

    ghost function CurrentShape(): Shape
      reads this
    {
      Shape(buffer.Length, readerIndex, writerIndex)
    }

    ghost predicate Valid()
      reads this
    {
      WellShaped(CurrentShape())
    }

    ghost function Contents(): (s: seq<Byte>)
      requires Valid()
      reads this, buffer
    {
      buffer[readerIndex..writerIndex]
    }

    constructor (initialSize: nat)
      ensures Valid() && fresh(buffer)
      ensures Contents() == [] && CurrentShape() == NewShape(initialSize)
    {
      buffer := new Byte[CHEAP_PREPEND + initialSize](_ => 0);
      readerIndex, writerIndex := CHEAP_PREPEND, CHEAP_PREPEND;
    }

    function ReadableBytes(): (n: nat)
      requires Valid()
      reads this, buffer
      ensures n == |Contents()|
    {
      writerIndex - readerIndex
    }

    method Retrieve(len: nat)
      requires Valid()
      modifies this`readerIndex, this`writerIndex
      ensures Valid() && CurrentShape() == Retrieved(old(CurrentShape()), len)
      ensures Contents() == if len < |old(Contents())| then old(Contents())[len..] else []
    {
      if len < writerIndex - readerIndex {
        readerIndex := readerIndex + len;
      } else {
        RetrieveAll();
      }
    }

    method RetrieveAll()
      requires Valid()
      modifies this`readerIndex, this`writerIndex
      ensures Valid() && Contents() == []
      ensures CurrentShape() == old(CurrentShape()).(reader := CHEAP_PREPEND, writer := CHEAP_PREPEND)
    {
      readerIndex, writerIndex := CHEAP_PREPEND, CHEAP_PREPEND;
    }

    method RetrieveAsString(len: nat) returns (result: seq<Byte>)
      requires Valid() && len <= |Contents()|
      modifies this`readerIndex, this`writerIndex
      ensures Valid() && CurrentShape() == Retrieved(old(CurrentShape()), len)
      ensures result + Contents() == old(Contents()) && |result| == len
    {
      result := buffer[readerIndex..readerIndex + len];
      ghost var all := Contents();
      Retrieve(len);
      assert result == all[..len] && Contents() == all[len..];
      SplitsAt(all, len);
    }

    method EnsureWritableBytes(len: nat)
      requires Valid()
      modifies this, buffer
      ensures Valid() && CurrentShape() == MakeRoom(old(CurrentShape()), len)
      ensures Contents() == old(Contents())
      ensures buffer == old(buffer) || fresh(buffer)
    {
      if buffer.Length - writerIndex < len {
        MakeSpace(len);
      }
    }

    /**
     Reached only through EnsureWritableBytes, so the writable tail is too short. In the
     compaction branch the source range then starts strictly after the destination, which
     is what the forward element-by-element copy needs to preserve the bytes.
     */
    method MakeSpace(len: nat)
      requires Valid()
      requires buffer.Length - writerIndex < len
      modifies this, buffer
      ensures Valid() && CurrentShape() == MakeRoom(old(CurrentShape()), len)
      ensures Contents() == old(Contents())
      ensures if buffer == old(buffer) then old(readerIndex) > CHEAP_PREPEND else fresh(buffer)
    {
      if buffer.Length - writerIndex + readerIndex < len + CHEAP_PREPEND {
        Resize(writerIndex + len);
      } else {
        var readable := writerIndex - readerIndex;
        CopyForward(buffer, readerIndex, CHEAP_PREPEND, readable);
        readerIndex := CHEAP_PREPEND;
        writerIndex := readerIndex + readable;
      }
      assert Contents() == old(Contents());
    }

    /** std::vector::resize to a larger size: the old elements stay, the new ones are zero. */
    method Resize(size: nat)
      requires buffer.Length <= size
      modifies this`buffer
      ensures fresh(buffer) && buffer.Length == size
      ensures forall k :: 0 <= k < old(buffer.Length) ==> buffer[k] == old(buffer[k])
    {
      var bigger := new Byte[size](_ => 0);
      forall k | 0 <= k < buffer.Length {
        bigger[k] := buffer[k];
      }
      buffer := bigger;
    }

    method Append(data: seq<Byte>)
      requires Valid()
      modifies this, buffer
      ensures Valid() && CurrentShape() == Appended(old(CurrentShape()), |data|)
      ensures Contents() == old(Contents()) + data
      ensures buffer == old(buffer) || fresh(buffer)
    {
      EnsureWritableBytes(|data|);
      CopyIn(buffer, writerIndex, data);
      Written(data);
    }

    /** The writer index moves over bytes that are already in place. */
    method Written(data: seq<Byte>)
      requires Valid() && |data| <= buffer.Length - writerIndex
      requires buffer[writerIndex..writerIndex + |data|] == data
      modifies this`writerIndex
      ensures Valid() && CurrentShape() == old(CurrentShape()).(writer := old(writerIndex) + |data|)
      ensures Contents() == old(Contents()) + data
    {
      writerIndex := writerIndex + |data|;
      assert Contents() == old(Contents()) + data;
    }

    /**
     readFd against a kernel that holds `arriving` and returns `n`: -1, or any count up to what
     is there and what the one or two segments can take.
     */
    method ReadFd(arriving: seq<Byte>, n: int, errno: int) returns (savedErrno: int)
      requires Valid()
      requires n <= |arriving| && n <= ReadCapacity(CurrentShape())
      modifies this, buffer
      ensures Valid()
      ensures n < 0 ==> Contents() == old(Contents()) && CurrentShape() == old(CurrentShape()) && savedErrno == errno
      ensures n >= 0 ==> Contents() == old(Contents()) + arriving[..n] && savedErrno == 0
      ensures n >= 0 ==> CurrentShape() == ReadIn(old(CurrentShape()), n)
      ensures buffer == old(buffer) || fresh(buffer)
    {
      savedErrno := 0;
      if n < 0 {
        savedErrno := errno;
        return;
      }
      var extrabuf := FillTail(arriving, n);
      TakeIn(arriving, n, extrabuf);
    }

    /** What is in the tail becomes readable; what spilled out of it is appended. */
    method TakeIn(arriving: seq<Byte>, n: nat, extrabuf: seq<Byte>)
      requires Valid() && n <= |arriving|
      requires var tail := Min(n, buffer.Length - writerIndex);
               buffer[writerIndex..writerIndex + tail] == arriving[..tail] && extrabuf == arriving[tail..n]
      modifies this, buffer
      ensures Valid() && CurrentShape() == ReadIn(old(CurrentShape()), n)
      ensures Contents() == old(Contents()) + arriving[..n]
      ensures buffer == old(buffer) || fresh(buffer)
    {
      var writable := buffer.Length - writerIndex;
      if n <= writable {
        Written(arriving[..n]);
      } else {
        Written(arriving[..writable]);
        Append(extrabuf);
        assert arriving[..n][..writable] == arriving[..writable] && arriving[..n][writable..] == extrabuf;
        SplitsAt(arriving[..n], writable);
        Associates(old(Contents()), arriving[..writable], extrabuf);
      }
    }

    /** The readv call: the tail of the array is the first segment, the 64K spill area the second. */
    method FillTail(arriving: seq<Byte>, n: nat) returns (extrabuf: seq<Byte>)
      requires Valid() && n <= |arriving| && n <= ReadCapacity(CurrentShape())
      modifies buffer
      ensures Valid() && Contents() == old(Contents())
      ensures var tail := Min(n, buffer.Length - writerIndex);
              buffer[writerIndex..writerIndex + tail] == arriving[..tail] && extrabuf == arriving[tail..n]
    {
      var writable := buffer.Length - writerIndex;
      var iovcnt := if writable < EXTRA_BUF then 2 else 1;
      extrabuf := Readv(buffer, writerIndex, writable, iovcnt, arriving, n);
      assert Contents() == buffer[..writerIndex][readerIndex..];
    }

    /**
     writeFd hands the readable bytes to the kernel, which takes a prefix or fails; the buffer is
     unchanged, and errno is saved on failure only.
     */
    method WriteFd(w: WriteResult, errno: int, saveErrno: int) returns (n: int, accepted: seq<Byte>, savedErrno: int)
      requires Valid()
      ensures w.Wrote? ==> n == Min(w.room, |Contents()|) && accepted == Contents()[..n] && savedErrno == saveErrno
      ensures !w.Wrote? ==> n == -1 && accepted == [] && savedErrno == errno
    {
      n, accepted := KernelWrite(w, buffer[readerIndex..writerIndex]);
      savedErrno := if n < 0 then errno else saveErrno;
    }
  }

  /** std::copy within one array, front to back; it is only sound when the destination starts before the source. */
  method CopyForward(a: array<Byte>, src: nat, dst: nat, n: nat)
    requires dst < src && src + n <= a.Length
    modifies a
    ensures a[dst..dst + n] == old(a[src..src + n])
  {
    var i := 0;
    while i < n
      invariant i <= n
      invariant forall k :: dst <= k < dst + i ==> a[k] == old(a[k - dst + src])
      invariant forall k :: src + i <= k < a.Length ==> a[k] == old(a[k])
    {
      a[dst + i] := a[src + i];
      i := i + 1;
    }
  }

  /** std::copy of `data` into the array. */
  method CopyIn(a: array<Byte>, off: nat, data: seq<Byte>)
    requires off + |data| <= a.Length
    modifies a
    ensures a[..off] == old(a[..off]) && a[off..off + |data|] == data
  {
    var i := 0;
    while i < |data|
      invariant i <= |data|
      invariant forall k :: 0 <= k < off ==> a[k] == old(a[k])
      invariant forall k :: off <= k < off + i ==> a[k] == data[k - off]
    {
      a[off + i] := data[i];
      i := i + 1;
    }
  }

  /** What write(2) answers: a kernel with room for `room` bytes takes as many of the offered ones as fit. */
  datatype WriteResult = Wrote(room: nat) | WouldBlock | Fault | OtherError

  /** The bytes of `data` the kernel accepts. */
  function Accepted(w: WriteResult, data: seq<Byte>): (taken: seq<Byte>)
    ensures taken <= data
  {
    if w.Wrote? then data[..Min(w.room, |data|)] else []
  }

  method KernelWrite(w: WriteResult, data: seq<Byte>) returns (n: int, accepted: seq<Byte>)
    ensures accepted == Accepted(w, data)
    ensures n == if w.Wrote? then |accepted| else -1
  {
    accepted := Accepted(w, data);
    n := if w.Wrote? then |accepted| else -1;
  }

  /**
   readv(2): the first segment is filled before the second is touched (POSIX.1-2017, readv).
   The second segment is the 64K array on the stack; what it received is returned.
   */
  method Readv(a: array<Byte>, off: nat, len: nat, iovcnt: nat, arriving: seq<Byte>, n: nat)
    returns (extrabuf: seq<Byte>)
    requires off + len <= a.Length
    requires n <= |arriving| && n <= len + if iovcnt == 2 then EXTRA_BUF else 0
    modifies a
    ensures a[..off] == old(a[..off])
    ensures a[off..off + Min(n, len)] == arriving[..Min(n, len)]
    ensures extrabuf == arriving[Min(n, len)..n]
  {
    var first := Min(n, len);
    CopyIn(a, off, arriving[..first]);
    extrabuf := arriving[first..n];
  }

  // ---------------------------------------------------------------------------
  // Whole runs

  datatype Op =
    | Append(data: seq<Byte>)
    | Retrieve(len: nat)
    | RetrieveAll
    | Reserve(len: nat)         // ensureWritableBytes called directly
    | Receive(data: seq<Byte>)  // bytes arriving on the socket, read by as many readFd calls as they take

  /** The reference: a queue of bytes. */
  function QueueAfter(ops: seq<Op>): seq<Byte> {
    if ops == [] then [] else Apply(QueueAfter(ops[..|ops| - 1]), ops[|ops| - 1])
  }

  function Apply(q: seq<Byte>, op: Op): seq<Byte> {
    match op
    case Append(data) => q + data
    case Retrieve(len) => if len < |q| then q[len..] else []
    case RetrieveAll => []
    case Reserve(_) => q
    case Receive(data) => q + data
  }

  /** The readable length an operation leaves or makes room for. */
  function Demand(q: seq<Byte>, op: Op): nat {
    |Apply(q, op)| + if op.Reserve? then op.len else 0
  }

  /** The largest queue of the run, counting what room was asked for. */
  function PeakOf(ops: seq<Op>): nat {
    if ops == [] then 0 else
      Max(PeakOf(ops[..|ops| - 1]), Demand(QueueAfter(ops[..|ops| - 1]), ops[|ops| - 1]))
  }

  /** Array and indices at the end of a run on a new buffer. */
  function ShapeAfter(initialSize: nat, ops: seq<Op>): (s: Shape)
    ensures WellShaped(s)
  {
    if ops == [] then NewShape(initialSize) else Reshape(ShapeAfter(initialSize, ops[..|ops| - 1]), ops[|ops| - 1])
  }

  function Reshape(s: Shape, op: Op): (t: Shape)
    requires WellShaped(s)
    ensures WellShaped(t)
  {
    match op
    case Append(data) => Appended(s, |data|)
    case Retrieve(len) => Retrieved(s, len)
    case RetrieveAll => s.(reader := CHEAP_PREPEND, writer := CHEAP_PREPEND)
    case Reserve(len) => MakeRoom(s, len)
    case Receive(data) => Received(s, |data|)
  }

  function Received(s: Shape, n: nat): (t: Shape)
    requires WellShaped(s)
    ensures WellShaped(t) && t.writer - t.reader == s.writer - s.reader + n
    decreases n
  {
    if n == 0 then s else
      var k := Min(n, ReadCapacity(s));
      Received(ReadIn(s, k), n - k)
  }

  /** Any run of operations: the real buffer ends with the bytes of the reference queue, in the predicted shape. */
  method Replay(initialSize: nat, ops: seq<Op>) returns (contents: seq<Byte>, shape: Shape)
    ensures contents == QueueAfter(ops)
    ensures shape == ShapeAfter(initialSize, ops)
  {
    var b := new Buffer(initialSize);
    for i := 0 to |ops|
      invariant b.Valid() && fresh(b) && fresh(b.buffer)
      invariant b.Contents() == QueueAfter(ops[..i]) && b.CurrentShape() == ShapeAfter(initialSize, ops[..i])
    {
      assert ops[..i + 1][..i] == ops[..i];
      match ops[i]
      case Append(data) => b.Append(data);
      case Retrieve(len) => b.Retrieve(len);
      case RetrieveAll => b.RetrieveAll();
      case Reserve(len) => b.EnsureWritableBytes(len);
      case Receive(data) => ReceiveAll(b, data);
    }
    assert ops[..|ops|] == ops;
    contents := b.buffer[b.readerIndex..b.writerIndex];
    shape := Shape(b.buffer.Length, b.readerIndex, b.writerIndex);
  }

  /** Reads everything that is waiting, one readFd at a time, each taking what fits. */
  method ReceiveAll(b: Buffer, data: seq<Byte>)
    requires b.Valid()
    modifies b, b.buffer
    ensures b.Valid() && b.Contents() == old(b.Contents()) + data
    ensures b.CurrentShape() == Received(old(b.CurrentShape()), |data|)
    ensures b.buffer == old(b.buffer) || fresh(b.buffer)
    decreases |data|
  {
    if data != [] {
      ghost var before := b.Contents();
      var n := ReceiveSome(b, data);
      ReceiveAll(b, data[n..]);
      SplitsAt(data, n);
      Associates(before, data[..n], data[n..]);
    }
  }

  /** One readFd, taking all that fits. */
  method ReceiveSome(b: Buffer, data: seq<Byte>) returns (n: nat)
    requires b.Valid() && data != []
    modifies b, b.buffer
    ensures b.Valid() && 0 < n <= |data| && b.Contents() == old(b.Contents()) + data[..n]
    ensures Received(old(b.CurrentShape()), |data|) == Received(b.CurrentShape(), |data| - n)
    ensures b.buffer == old(b.buffer) || fresh(b.buffer)
  {
    ghost var shape := b.CurrentShape();
    var writable := b.buffer.Length - b.writerIndex;
    n := Min(|data|, if writable < EXTRA_BUF then writable + EXTRA_BUF else writable);
    var _ := b.ReadFd(data, n, 0);
    assert b.CurrentShape() == ReadIn(shape, Min(|data|, ReadCapacity(shape)));
  }

  /** The largest array a buffer of this initial size needs for a queue that never exceeded `peak`. */
  function SpaceBound(initialSize: nat, peak: nat): nat {
    Max(CHEAP_PREPEND + initialSize, Max(peak + 8, 2 * peak + 6))
  }

  predicate Bounded(s: Shape, initialSize: nat, peak: nat) {
    WellShaped(s) && s.writer - s.reader <= peak && s.size <= SpaceBound(initialSize, peak)
  }

  lemma RoomIsBounded(s: Shape, initialSize: nat, peak: nat, len: nat)
    requires Bounded(s, initialSize, peak)
    ensures Bounded(MakeRoom(s, len), initialSize, Max(peak, s.writer - s.reader + len))
  {
  }

  lemma ReadIsBounded(s: Shape, initialSize: nat, peak: nat, n: nat)
    requires Bounded(s, initialSize, peak)
    ensures Bounded(ReadIn(s, n), initialSize, Max(peak, s.writer - s.reader + n))
  {
    var writable := s.size - s.writer;
    if n > writable {
      var full := s.(writer := s.size);
      var peak' := Max(peak, s.writer - s.reader + n);
      assert Bounded(full, initialSize, peak');
      RoomIsBounded(full, initialSize, peak', n - writable);
    }
  }

  lemma {:induction false} ReceivedIsBounded(s: Shape, initialSize: nat, peak: nat, n: nat)
    requires Bounded(s, initialSize, peak)
    ensures Bounded(Received(s, n), initialSize, Max(peak, s.writer - s.reader + n))
    decreases n
  {
    if n > 0 {
      var k := Min(n, ReadCapacity(s));
      ReadIsBounded(s, initialSize, peak, k);
      ReceivedIsBounded(ReadIn(s, k), initialSize, Max(peak, s.writer - s.reader + k), n - k);
    }
  }

  /** The bound follows the length that the operation reaches or makes room for. */
  predicate OpBounded(s: Shape, q: seq<Byte>, op: Op, initialSize: nat, peak: nat)
    requires WellShaped(s)
  {
    Bounded(Reshape(s, op), initialSize, Max(peak, Demand(q, op)))
  }

  lemma AppendIsBounded(s: Shape, q: seq<Byte>, data: seq<Byte>, initialSize: nat, peak: nat)
    requires Bounded(s, initialSize, peak) && s.writer - s.reader == |q|
    ensures OpBounded(s, q, Op.Append(data), initialSize, peak)
  {
    RoomIsBounded(s, initialSize, peak, |data|);
  }

  lemma ReserveIsBounded(s: Shape, q: seq<Byte>, len: nat, initialSize: nat, peak: nat)
    requires Bounded(s, initialSize, peak) && s.writer - s.reader == |q|
    ensures OpBounded(s, q, Reserve(len), initialSize, peak)
  {
    RoomIsBounded(s, initialSize, peak, len);
  }

  lemma ReceiveIsBounded(s: Shape, q: seq<Byte>, data: seq<Byte>, initialSize: nat, peak: nat)
    requires Bounded(s, initialSize, peak) && s.writer - s.reader == |q|
    ensures OpBounded(s, q, Receive(data), initialSize, peak)
  {
    ReceivedIsBounded(s, initialSize, peak, |data|);
  }

  lemma RemovalIsBounded(s: Shape, q: seq<Byte>, op: Op, initialSize: nat, peak: nat)
    requires Bounded(s, initialSize, peak) && s.writer - s.reader == |q| && (op.Retrieve? || op.RetrieveAll?)
    ensures OpBounded(s, q, op, initialSize, peak)
  {
  }

  lemma OpIsBounded(s: Shape, q: seq<Byte>, op: Op, initialSize: nat, peak: nat)
    requires Bounded(s, initialSize, peak) && s.writer - s.reader == |q|
    ensures OpBounded(s, q, op, initialSize, peak)
  {
    match op
    case Append(data) => AppendIsBounded(s, q, data, initialSize, peak);
    case Reserve(len) => ReserveIsBounded(s, q, len, initialSize, peak);
    case Receive(data) => ReceiveIsBounded(s, q, data, initialSize, peak);
    case _ => RemovalIsBounded(s, q, op, initialSize, peak);
  }

  lemma OpKeepsLength(s: Shape, q: seq<Byte>, op: Op)
    requires WellShaped(s) && s.writer - s.reader == |q|
    ensures Reshape(s, op).writer - Reshape(s, op).reader == |Apply(q, op)|
  {
  }

  lemma {:induction false} RunIsBounded(initialSize: nat, ops: seq<Op>)
    ensures var s := ShapeAfter(initialSize, ops);
            Bounded(s, initialSize, PeakOf(ops)) && s.writer - s.reader == |QueueAfter(ops)|
  {
    if ops != [] {
      var init := ops[..|ops| - 1];
      RunIsBounded(initialSize, init);
      OpIsBounded(ShapeAfter(initialSize, init), QueueAfter(init), ops[|ops| - 1], initialSize, PeakOf(init));
      OpKeepsLength(ShapeAfter(initialSize, init), QueueAfter(init), ops[|ops| - 1]);
    }
  }

  /** Over every run the array stays within the bound for the largest queue of the run. */
  lemma SpaceIsBounded(initialSize: nat, ops: seq<Op>)
    ensures ShapeAfter(initialSize, ops).size <= SpaceBound(initialSize, PeakOf(ops))
    ensures ShapeAfter(initialSize, ops).size <= Max(CHEAP_PREPEND + initialSize, 2 * PeakOf(ops) + 7)
  {
    RunIsBounded(initialSize, ops);
  }

  /** The bound is exact: every peak of two or more has a run whose array is that large. */
  lemma SpaceBoundIsReached(chunk: seq<Byte>)
    requires chunk != []
    ensures var ops := [Append(chunk), Retrieve(|chunk| - 1), Append(chunk)];
            && PeakOf(ops) == |chunk| + 1
            && ShapeAfter(0, ops).size == SpaceBound(0, PeakOf(ops))
  {
    var one := [Append(chunk)];
    var two := one + [Retrieve(|chunk| - 1)];
    var ops := [Append(chunk), Retrieve(|chunk| - 1), Append(chunk)];
    assert one[..0] == [] && two[..1] == one && ops[..2] == two;
    assert QueueAfter(one) == chunk && PeakOf(one) == |chunk|;
    assert ShapeAfter(0, one) == Shape(|chunk| + 8, 8, |chunk| + 8);
    assert |QueueAfter(two)| == 1 && PeakOf(two) == |chunk|;
    assert ShapeAfter(0, two) == Shape(|chunk| + 8, |chunk| + 7, |chunk| + 8);
  }
}
