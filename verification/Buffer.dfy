/** Bytes, line ends and fixed-width integers in network order. */
module Bytes {
  type Byte = x: int | 0 <= x < 256

  const CR: Byte := 13
  const LF: Byte := 10

  predicate CrlfAt(s: seq<Byte>, i: int) {
    0 <= i < |s| - 1 && s[i] == CR && s[i + 1] == LF
  }

  /** Index of the first CR LF pair, or -1: `std::search` for `kCRLF`. */
  function FirstCrlf(s: seq<Byte>): (i: int)
    ensures -1 <= i
    ensures i >= 0 ==> CrlfAt(s, i)
    ensures forall j | 0 <= j < (if i < 0 then |s| else i) :: !CrlfAt(s, j)
  {
    if |s| < 2 then -1
    else if s[0] == CR && s[1] == LF then 0
    else
      var r := FirstCrlf(s[1..]);
      assert forall j | 0 < j < |s| :: CrlfAt(s, j) == CrlfAt(s[1..], j - 1);
      if r < 0 then -1 else r + 1
  }

  // ---------------------------------------------------------------- integers in network order

  function Pow256(n: nat): (p: int)
    ensures p > 0
  {
    if n == 0 then 1 else 256 * Pow256(n - 1)
  }

  function EncodeUnsigned(width: nat, u: nat): (s: seq<Byte>)
    ensures |s| == width
  {
    if width == 0 then [] else EncodeUnsigned(width - 1, u / 256) + [u % 256]
  }

  function DecodeUnsigned(s: seq<Byte>): nat {
    if s == [] then 0 else DecodeUnsigned(s[..|s| - 1]) * 256 + s[|s| - 1]
  }

  /** Two's complement range of a signed integer of `width` bytes. */
  predicate Fits(width: nat, x: int) {
    width > 0 && -Pow256(width) <= 2 * x < Pow256(width)
  }

  function EncodeInt(width: nat, x: int): (s: seq<Byte>)
    requires Fits(width, x)
    ensures |s| == width
  {
    EncodeUnsigned(width, if x >= 0 then x else x + Pow256(width))
  }

  function DecodeInt(s: seq<Byte>): int {
    var u := DecodeUnsigned(s);
    if 2 * u < Pow256(|s|) then u else u - Pow256(|s|)
  }

  lemma {:induction false} DecodeUnsignedBound(s: seq<Byte>)
    ensures DecodeUnsigned(s) < Pow256(|s|)
  {
    if s != [] { DecodeUnsignedBound(s[..|s| - 1]); }
  }

  lemma {:induction false} UnsignedRoundTrip(width: nat, u: nat)
    requires u < Pow256(width)
    ensures DecodeUnsigned(EncodeUnsigned(width, u)) == u
  {
    if width > 0 {
      UnsignedRoundTrip(width - 1, u / 256);
      assert EncodeUnsigned(width, u)[..width - 1] == EncodeUnsigned(width - 1, u / 256);
    }
  }

  lemma {:induction false} UnsignedBytesRoundTrip(s: seq<Byte>)
    ensures EncodeUnsigned(|s|, DecodeUnsigned(s)) == s
  {
    if s != [] { UnsignedBytesRoundTrip(s[..|s| - 1]); }
  }

  /** Every integer that fits is read back unchanged. */
  lemma IntRoundTrip(width: nat, x: int)
    requires Fits(width, x)
    ensures DecodeInt(EncodeInt(width, x)) == x
  {
    UnsignedRoundTrip(width, if x >= 0 then x else x + Pow256(width));
  }

  /** Every byte string of the width is the encoding of the integer it is read as. */
  lemma IntBytesRoundTrip(s: seq<Byte>)
    requires s != []
    ensures Fits(|s|, DecodeInt(s)) && EncodeInt(|s|, DecodeInt(s)) == s
  {
    DecodeUnsignedBound(s);
    UnsignedBytesRoundTrip(s);
    Pow256Even(|s|);
  }

  lemma Pow256Even(n: nat)
    requires n > 0
    ensures Pow256(n) % 2 == 0
  {
  }

  /** The first byte on the wire is the most significant one. */
  lemma {:induction false} UnsignedOrder(hi: Byte, s: seq<Byte>)
    ensures DecodeUnsigned([hi] + s) == hi * Pow256(|s|) + DecodeUnsigned(s)
  {
    var t := [hi] + s;
    if s == [] {
      assert t[..0] == [];
    } else {
      assert t[..|t| - 1] == [hi] + s[..|s| - 1];
      UnsignedOrder(hi, s[..|s| - 1]);
      var p := Pow256(|s| - 1);
      assert 256 * (hi * p) == hi * (256 * p);
    }
  }

  lemma Digit(hi: int, p: nat, u: nat)
    requires 0 <= hi < 256 && u < p
    ensures hi < 128 ==> 0 <= hi * p + u < 128 * p
    ensures hi >= 128 ==> 128 * p <= hi * p + u
    ensures (hi - 256) * p == hi * p - 256 * p
  {
    if hi < 128 { assert hi * p <= 127 * p; } else { assert hi * p >= 128 * p; }
  }

  /** ... and its top bit is the sign. */
  lemma NetworkOrder(hi: Byte, s: seq<Byte>)
    ensures DecodeInt([hi] + s) == (if hi < 128 then hi else hi - 256) * Pow256(|s|) + DecodeUnsigned(s)
  {
    hide DecodeUnsigned, Pow256;
    UnsignedOrder(hi, s);
    DecodeUnsignedBound(s);
    Pow256Next(|s|);
    Digit(hi, Pow256(|s|), DecodeUnsigned(s));
    assert |[hi] + s| == |s| + 1;
  }

  lemma Pow256Next(n: nat)
    ensures Pow256(n + 1) == 256 * Pow256(n)
  {
  }
}

/**
  `muduo::net::Buffer`: a growable array with a reader and a writer index. Every method is
  specified by what it does to the readable bytes, `Contents()`.
 */
module Buffers {
  import opened Bytes

  const CHEAP_PREPEND: nat := 8
  const INITIAL_SIZE: nat := 1024
  const EXTRA_BUFFER: nat := 65536

  /** Result of `readv`. */
  datatype ReadResult = Failed(errno: int) | Got(bytes: seq<Byte>)

  /** Most bytes one `readv` can return: the second segment is only offered to small buffers. */
  function ReadLimit(writable: nat): nat {
    if writable < EXTRA_BUFFER then writable + EXTRA_BUFFER else writable
  }

  /** `std::copy` to a place at or before the source, inside one array. */
  method CopyDown(a: array<Byte>, dst: nat, src: nat, n: nat)
    requires dst <= src && src + n <= a.Length
    modifies a
    ensures a[dst..dst + n] == old(a[src..src + n])
  {
    for i := 0 to n
      invariant forall j | dst <= j < dst + i :: a[j] == old(a[j - dst + src])
      invariant forall j | dst + i <= j < a.Length :: a[j] == old(a[j])
    {
      a[dst + i] := a[src + i];
    }
  }

  datatype Op =
    | OpAppend(data: seq<Byte>)
    | OpRetrieve(len: nat)
    | OpRetrieveAll
    | OpUnwrite(len: nat)
    | OpPrepend(data: seq<Byte>)
    | OpEnsureWritable(len: nat)
    | OpShrink(reserve: nat)
    | OpReadFd(result: ReadResult)

  /** The readable bytes, and the room in front of and behind them. */
  datatype Queue = Queue(content: seq<Byte>, headroom: nat, room: nat) {
    function Size(): nat { headroom + |content| + room }
  }

  predicate Legal(q: Queue, op: Op) {
    match op
    case OpRetrieve(len) => len <= |q.content|
    case OpUnwrite(len) => len <= |q.content|
    case OpPrepend(data) => |data| <= q.headroom
    case OpReadFd(Got(bytes)) => |bytes| <= ReadLimit(q.room)
    case _ => true
  }

  /** `ensureWritableBytes`: grow to just enough, or move to the front if that is enough. */
  function Roomy(q: Queue, len: nat): (r: Queue)
    ensures r.content == q.content && r.room >= len && r.room >= q.room && r.Size() >= q.Size()
    ensures r.headroom == q.headroom || r.headroom == CHEAP_PREPEND < q.headroom
  {
    if q.room >= len then q
    else if q.room + q.headroom < len + CHEAP_PREPEND then q.(room := len)
    else q.(headroom := CHEAP_PREPEND, room := q.room + q.headroom - CHEAP_PREPEND)
  }

  function Filled(q: Queue, data: seq<Byte>): Queue
    requires |data| <= q.room
  {
    q.(content := q.content + data, room := q.room - |data|)
  }

  function Appended(q: Queue, data: seq<Byte>): Queue { Filled(Roomy(q, |data|), data) }

  function Emptied(q: Queue): Queue
    requires q.Size() >= CHEAP_PREPEND
  {
    Queue([], CHEAP_PREPEND, q.Size() - CHEAP_PREPEND)
  }

  function Retrieved(q: Queue, len: nat): Queue
    requires len <= |q.content| && q.Size() >= CHEAP_PREPEND
  {
    if len < |q.content| then q.(content := q.content[len..], headroom := q.headroom + len) else Emptied(q)
  }

  function Shrunk(q: Queue, reserve: nat): Queue {
    Appended(Roomy(Queue([], CHEAP_PREPEND, INITIAL_SIZE), |q.content| + reserve), q.content)
  }

  /** The first segment is filled, and the rest is appended from the second. */
  function Received(q: Queue, bytes: seq<Byte>): Queue {
    if |bytes| <= q.room then Filled(q, bytes) else Appended(Filled(q, bytes[..q.room]), bytes[q.room..])
  }

  function Apply(q: Queue, op: Op): (r: Queue)
    requires Legal(q, op) && q.Size() >= CHEAP_PREPEND
    ensures r.Size() >= CHEAP_PREPEND
  {
    match op
    case OpAppend(data) => Appended(q, data)
    case OpRetrieve(len) => Retrieved(q, len)
    case OpRetrieveAll => Emptied(q)
    case OpUnwrite(len) => q.(content := q.content[..|q.content| - len], room := q.room + len)
    case OpPrepend(data) => q.(content := data + q.content, headroom := q.headroom - |data|)
    case OpEnsureWritable(len) => Roomy(q, len)
    case OpShrink(reserve) => Shrunk(q, reserve)
    case OpReadFd(Got(bytes)) => Received(q, bytes)
    case OpReadFd(Failed(_)) => q
  }

  ghost predicate LegalRun(q: Queue, ops: seq<Op>)
    requires q.Size() >= CHEAP_PREPEND
    decreases |ops|
  {
    ops == [] || (Legal(q, ops[0]) && LegalRun(Apply(q, ops[0]), ops[1..]))
  }

  ghost function Exec(q: Queue, ops: seq<Op>): Queue
    requires q.Size() >= CHEAP_PREPEND && LegalRun(q, ops)
    decreases |ops|
  {
    if ops == [] then q else Exec(Apply(q, ops[0]), ops[1..])
  }

  /** The operations on a plain byte sequence. */
  function OnBytes(s: seq<Byte>, op: Op): seq<Byte>
    requires op.OpRetrieve? || op.OpUnwrite? ==> op.len <= |s|
  {
    match op
    case OpAppend(data) => s + data
    case OpRetrieve(len) => s[len..]
    case OpRetrieveAll => []
    case OpUnwrite(len) => s[..|s| - len]
    case OpPrepend(data) => data + s
    case OpEnsureWritable(_) => s
    case OpShrink(_) => s
    case OpReadFd(Got(bytes)) => s + bytes
    case OpReadFd(Failed(_)) => s
  }

  /** s becomes t by the operations, one after the other. */
  ghost predicate BytesRun(s: seq<Byte>, ops: seq<Op>, t: seq<Byte>)
    decreases |ops|
  {
    if ops == [] then t == s
    else (ops[0].OpRetrieve? || ops[0].OpUnwrite? ==> ops[0].len <= |s|) && BytesRun(OnBytes(s, ops[0]), ops[1..], t)
  }

  /** Growing, moving, shrinking and the two segments of a read leave no trace in the bytes. */
  lemma ApplyOnBytes(q: Queue, op: Op)
    requires Legal(q, op) && q.Size() >= CHEAP_PREPEND
    ensures Apply(q, op).content == OnBytes(q.content, op)
  {
    match op
    case OpReadFd(Got(bytes)) =>
      if |bytes| > q.room { assert bytes[..q.room] + bytes[q.room..] == bytes; }
    case OpShrink(_) => assert [] + q.content == q.content;
    case _ =>
  }

  /** Over every legal run the content is that of a plain byte sequence. */
  lemma {:induction false} ExecOnBytes(q: Queue, ops: seq<Op>)
    requires q.Size() >= CHEAP_PREPEND && LegalRun(q, ops)
    ensures BytesRun(q.content, ops, Exec(q, ops).content)
    decreases |ops|
  {
    hide Apply;
    if ops != [] {
      ApplyOnBytes(q, ops[0]);
      ExecOnBytes(Apply(q, ops[0]), ops[1..]);
    }
  }

  /** Nothing but prepending takes room in front below the eight bytes every buffer starts with. */
  lemma HeadroomKept(q: Queue, op: Op)
    requires Legal(q, op) && q.Size() >= CHEAP_PREPEND && !op.OpPrepend?
    ensures Apply(q, op).headroom >= q.headroom || Apply(q, op).headroom >= 8
  {
  }

  class Buffer {
    var buffer: array<Byte>
    var readerIndex: nat
    var writerIndex: nat

    ghost predicate Valid()
      reads this
    {
      readerIndex <= writerIndex <= buffer.Length && CHEAP_PREPEND <= buffer.Length
    }

    ghost function Contents(): seq<Byte>
      requires Valid()
      reads this, buffer
    {
      buffer[readerIndex..writerIndex]
    }

    /** Everything a caller can tell about the buffer. */
    ghost function View(): (q: Queue)
      requires Valid()
      reads this, buffer
      ensures q.Size() == buffer.Length
    {
      Queue(Contents(), PrependableBytes(), WritableBytes())
    }

    function ReadableBytes(): nat
      requires Valid()
      reads this
    {
      writerIndex - readerIndex
    }

    function WritableBytes(): nat
      requires Valid()
      reads this
    {
      buffer.Length - writerIndex
    }

    function PrependableBytes(): nat
      reads this
    {
      readerIndex
    }

    constructor (initialSize: nat)
      ensures Valid() && fresh(buffer)
      ensures View() == Queue([], 8, initialSize)
    {
      buffer := new Byte[CHEAP_PREPEND + initialSize](_ => 0);
      readerIndex := CHEAP_PREPEND;
      writerIndex := CHEAP_PREPEND;
    }

    method Swap(rhs: Buffer)
      requires Valid() && rhs.Valid()
      modifies this, rhs
      ensures Valid() && rhs.Valid()
      ensures buffer == old(rhs.buffer) && rhs.buffer == old(buffer)
      ensures readerIndex == old(rhs.readerIndex) && rhs.readerIndex == old(readerIndex)
      ensures writerIndex == old(rhs.writerIndex) && rhs.writerIndex == old(writerIndex)
    {
      buffer, rhs.buffer := rhs.buffer, buffer;
      readerIndex, rhs.readerIndex := rhs.readerIndex, readerIndex;
      writerIndex, rhs.writerIndex := rhs.writerIndex, writerIndex;
    }

    /** The first line end among the readable bytes, relative to `peek()`; -1 for none. */
    method FindCRLF() returns (pos: int)
      requires Valid()
      ensures pos == FirstCrlf(Contents())
    {
      ghost var s := Contents();
      var i := readerIndex;
      while i + 1 < writerIndex
        invariant readerIndex <= i <= writerIndex
        invariant forall j | 0 <= j < i - readerIndex :: !CrlfAt(s, j)
      {
        if buffer[i] == CR && buffer[i + 1] == LF {
          assert CrlfAt(s, i - readerIndex);
          return i - readerIndex;
        }
        i := i + 1;
      }
      pos := -1;
    }

    /** The bytes at `peek()`. */
    method Peek(len: nat) returns (s: seq<Byte>)
      requires Valid() && len <= ReadableBytes()
      ensures s == Contents()[..len]
    {
      s := buffer[readerIndex..readerIndex + len];
    }

    method RetrieveAll()
      requires Valid()
      modifies this
      ensures Valid() && buffer == old(buffer)
      ensures View() == Emptied(old(View()))
    {
      readerIndex := CHEAP_PREPEND;
      writerIndex := CHEAP_PREPEND;
    }

    method Retrieve(len: nat)
      requires Valid() && len <= ReadableBytes()
      modifies this
      ensures Valid() && buffer == old(buffer)
      ensures Contents() == old(Contents())[len..] && View() == Retrieved(old(View()), len)
    {
      if len < ReadableBytes() {
        readerIndex := readerIndex + len;
      } else {
        RetrieveAll();
      }
    }

    method RetrieveAsString(len: nat) returns (result: seq<Byte>)
      requires Valid() && len <= ReadableBytes()
      modifies this
      ensures Valid() && buffer == old(buffer)
      ensures result + Contents() == old(Contents()) && |result| == len
    {
      result := Peek(len);
      Retrieve(len);
    }

    /**
      Either the array grows or the readable bytes move to the front; the assertion that guards
      the move always holds.
     */
    method MakeSpace(len: nat)
      requires Valid() && WritableBytes() < len
      modifies this, buffer
      ensures Valid() && (buffer == old(buffer) || fresh(buffer))
      ensures Contents() == old(Contents()) && WritableBytes() >= len && View() == Roomy(old(View()), len)
    {
      if WritableBytes() + PrependableBytes() < len + CHEAP_PREPEND {
        var bigger := new Byte[writerIndex + len](_ => 0);
        for i := 0 to buffer.Length
          modifies bigger
          invariant forall j | 0 <= j < i :: bigger[j] == buffer[j]
        {
          bigger[i] := buffer[i];
        }
        buffer := bigger;
      } else {
        assert CHEAP_PREPEND < readerIndex;
        var readable := ReadableBytes();
        CopyDown(buffer, CHEAP_PREPEND, readerIndex, readable);
        readerIndex := CHEAP_PREPEND;
        writerIndex := readerIndex + readable;
        assert readable == ReadableBytes();
      }
    }

    method EnsureWritableBytes(len: nat)
      requires Valid()
      modifies this, buffer
      ensures Valid() && (buffer == old(buffer) || fresh(buffer))
      ensures Contents() == old(Contents()) && WritableBytes() >= len && View() == Roomy(old(View()), len)
    {
      if WritableBytes() < len {
        MakeSpace(len);
      }
    }

    /** Copies bytes behind the writer index and moves it, the array being large enough. */
    method Write(data: seq<Byte>)
      requires Valid() && |data| <= WritableBytes()
      modifies this`writerIndex, buffer
      ensures Valid()
      ensures Contents() == old(Contents()) + data && View() == Filled(old(View()), data)
    {
      for i := 0 to |data|
        modifies buffer
        invariant forall j | 0 <= j < i :: buffer[writerIndex + j] == data[j]
        invariant forall j | 0 <= j < writerIndex :: buffer[j] == old(buffer[j])
      {
        buffer[writerIndex + i] := data[i];
      }
      writerIndex := writerIndex + |data|;
    }

    method Append(data: seq<Byte>)
      requires Valid()
      modifies this, buffer
      ensures Valid() && (buffer == old(buffer) || fresh(buffer))
      ensures Contents() == old(Contents()) + data && View() == Appended(old(View()), data)
    {
      EnsureWritableBytes(|data|);
      Write(data);
    }

    method Unwrite(len: nat)
      requires Valid() && len <= ReadableBytes()
      modifies this
      ensures Valid() && buffer == old(buffer)
      ensures Contents() == old(Contents())[..old(ReadableBytes()) - len]
      ensures PrependableBytes() == old(PrependableBytes()) && WritableBytes() == old(WritableBytes()) + len
    {
      writerIndex := writerIndex - len;
    }

    method Prepend(data: seq<Byte>)
      requires Valid() && |data| <= PrependableBytes()
      modifies this, buffer
      ensures Valid() && buffer == old(buffer)
      ensures Contents() == data + old(Contents())
      ensures PrependableBytes() == old(PrependableBytes()) - |data| && WritableBytes() == old(WritableBytes())
    {
      readerIndex := readerIndex - |data|;
      for i := 0 to |data|
        modifies buffer
        invariant forall j | 0 <= j < i :: buffer[readerIndex + j] == data[j]
        invariant forall j | readerIndex + |data| <= j < buffer.Length :: buffer[j] == old(buffer[j])
      {
        buffer[readerIndex + i] := data[i];
      }
      assert buffer[readerIndex..readerIndex + |data|] == data;
      assert buffer[readerIndex + |data|..writerIndex] == old(Contents());
    }

    method CopyWith(reserve: nat) returns (other: Buffer)
      requires Valid()
      ensures fresh(other) && other.Valid() && fresh(other.buffer)
      ensures other.View() == Shrunk(View(), reserve)
    {
      hide Roomy, Filled;
      other := new Buffer(INITIAL_SIZE);
      other.EnsureWritableBytes(ReadableBytes() + reserve);
      other.Append(buffer[readerIndex..writerIndex]);
    }

    /** A fresh array with room for the readable bytes and `reserve` more. */
    method Shrink(reserve: nat)
      requires Valid()
      modifies this
      ensures Valid() && fresh(buffer)
      ensures Contents() == old(Contents()) && WritableBytes() >= reserve && View() == Shrunk(old(View()), reserve)
    {
      var other := CopyWith(reserve);
      Swap(other);
    }

    /**
      One scatter read: the kernel fills the writable bytes first and the stack buffer next.
      Whatever it returned is appended, in order and in full.
     */
    method ReadFd(result: ReadResult) returns (n: int, savedErrno: int)
      requires Valid()
      requires result.Got? ==> |result.bytes| <= WritableBytes() + if WritableBytes() < 65536 then 65536 else 0
      modifies this, buffer
      ensures Valid() && (buffer == old(buffer) || fresh(buffer))
      ensures result.Failed? ==> n == -1 && savedErrno == result.errno
      ensures result.Failed? ==> View() == old(View())
      ensures result.Got? ==> n == |result.bytes| && Contents() == old(Contents()) + result.bytes
      ensures result.Got? ==> View() == Received(old(View()), result.bytes)
    {
      savedErrno := 0;
      var writable := WritableBytes();
      match result
      case Failed(errno) =>
        n := -1;
        savedErrno := errno;
      case Got(bytes) =>
        n := |bytes|;
        if n <= writable {
          Write(bytes);
        } else {
          Write(bytes[..writable]);
          assert writerIndex == buffer.Length;
          Append(bytes[writable..]);
        }
    }

    // -------------------------------------------------------------- integers

    method AppendInt(width: nat, x: int)
      requires Valid() && Fits(width, x)
      modifies this, buffer
      ensures Valid() && (buffer == old(buffer) || fresh(buffer))
      ensures Contents() == old(Contents()) + EncodeInt(width, x)
    {
      Append(EncodeInt(width, x));
    }

    method PrependInt(width: nat, x: int)
      requires Valid() && Fits(width, x) && width <= PrependableBytes()
      modifies this, buffer
      ensures Valid() && buffer == old(buffer)
      ensures Contents() == EncodeInt(width, x) + old(Contents())
    {
      Prepend(EncodeInt(width, x));
    }

    method PeekInt(width: nat) returns (x: int)
      requires Valid() && 0 < width <= ReadableBytes()
      ensures x == DecodeInt(Contents()[..width])
      ensures Fits(width, x) && EncodeInt(width, x) == Contents()[..width]
    {
      var be := Peek(width);
      x := DecodeInt(be);
      IntBytesRoundTrip(be);
    }

    method ReadInt(width: nat) returns (x: int)
      requires Valid() && 0 < width <= ReadableBytes()
      modifies this
      ensures Valid() && buffer == old(buffer)
      ensures Fits(width, x) && EncodeInt(width, x) + Contents() == old(Contents())
    {
      x := PeekInt(width);
      Retrieve(width);
    }
  }

  /** What is written as an integer at the front is what `ReadInt` gives, whatever follows. */
  lemma ReadBack(width: nat, x: int, y: int, rest: seq<Byte>, rest': seq<Byte>)
    requires Fits(width, x) && Fits(width, y)
    requires EncodeInt(width, x) + rest == EncodeInt(width, y) + rest'
    ensures x == y && rest == rest'
  {
    var s := EncodeInt(width, x) + rest;
    assert s[..width] == EncodeInt(width, x) && s[..width] == EncodeInt(width, y);
    assert s[width..] == rest && s[width..] == rest';
    IntRoundTrip(width, x);
    IntRoundTrip(width, y);
  }

  // ---------------------------------------------------------------- whole runs

  method Perform(b: Buffer, op: Op)
    requires b.Valid() && Legal(b.View(), op)
    modifies b, b.buffer
    ensures b.Valid() && (b.buffer == old(b.buffer) || fresh(b.buffer))
    ensures b.View() == Apply(old(b.View()), op)
  {
    match op
    case OpAppend(data) => b.Append(data);
    case OpRetrieve(len) => b.Retrieve(len);
    case OpRetrieveAll => b.RetrieveAll();
    case OpUnwrite(len) => b.Unwrite(len);
    case OpPrepend(data) => b.Prepend(data);
    case OpEnsureWritable(len) => b.EnsureWritableBytes(len);
    case OpShrink(reserve) => b.Shrink(reserve);
    case OpReadFd(result) => var n, savedErrno := b.ReadFd(result);
  }

  /**
    Over every legal run of operations the buffer holds exactly the bytes of the sequence model,
    with exactly its room in front and behind.
   */
  method Run(b: Buffer, ops: seq<Op>)
    requires b.Valid() && LegalRun(b.View(), ops)
    modifies b, b.buffer
    ensures b.Valid() && b.View() == Exec(old(b.View()), ops)
    ensures BytesRun(old(b.Contents()), ops, b.Contents())
  {
    hide Apply, OnBytes;
    ghost var q0 := b.View();
    ExecOnBytes(q0, ops);
    var i := 0;
    assert ops[0..] == ops;
    while i < |ops|
      invariant 0 <= i <= |ops|
      invariant b.Valid() && (b.buffer == old(b.buffer) || fresh(b.buffer))
      invariant LegalRun(b.View(), ops[i..]) && Exec(b.View(), ops[i..]) == Exec(q0, ops)
    {
      assert ops[i..][0] == ops[i] && ops[i..][1..] == ops[i + 1..];
      Perform(b, ops[i]);
      i := i + 1;
    }
  }
}
