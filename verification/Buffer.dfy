/** Buffer.h and Buffer.cc: a byte queue kept in a growable array.

    The class follows the text with two repairs, each marked REPAIR at its line:
    - writableBytes subtracts writerIndex_ (the text subtracts readerIndex_, Buffer.h:35);
    - append advances writerIndex_ past what it copied (the text does not, Buffer.h:87-91).
    Module BufferAsWritten keeps both lines as they stand and says exactly when they do
    what the class does. */
module Buffers {
  newtype Byte = x: int | 0 <= x < 256

  const CHEAP_PREPEND: nat := 8
  const INITIAL_SIZE: nat := 1024
  const EXTRA_SIZE: nat := 65536

  function Max(a: nat, b: nat): nat { if a < b then b else a }
  function Min(a: nat, b: nat): nat { if a < b then a else b }

  /** The three numbers that place the content in the storage. */
  datatype Layout = Layout(size: nat, reader: nat, writer: nat) {
    predicate Valid() { CHEAP_PREPEND <= reader <= writer <= size }

    function Readable(): nat requires Valid() { writer - reader }

    function Writable(): nat requires Valid() { size - writer }
  }

  /** Where makeSpace leaves the content: at a grown end, or moved down to the front. */
  function MakeSpaceLayout(l: Layout, len: nat): Layout
    requires l.Valid()
  {
    if l.Writable() + l.reader < len + CHEAP_PREPEND
    then l.(size := l.writer + len)
    else l.(reader := CHEAP_PREPEND, writer := CHEAP_PREPEND + l.Readable())
  }

  function EnsureLayout(l: Layout, len: nat): Layout
    requires l.Valid()
  {
    if l.Writable() < len then MakeSpaceLayout(l, len) else l
  }

  /** makeSpace is entered only when the writable part is short. Then its growing branch
      never shrinks the vector, its compacting branch is entered only with the reader beyond
      the prepend area (so the forward copy moves strictly down), and either way len bytes fit. */
  lemma MakeSpaceFits(l: Layout, len: nat)
    requires l.Valid()
    ensures var l' := EnsureLayout(l, len);
            && l'.Valid() && len <= l'.Writable() && l'.Readable() == l.Readable()
            && l.size <= l'.size <= Max(l.size, l.Readable() + 2 * len + CHEAP_PREPEND - 1)
            && (l'.reader != l.reader ==> CHEAP_PREPEND < l.reader && l'.reader == CHEAP_PREPEND && l'.size == l.size)
            && (len <= l.Writable() ==> l' == l)
            && (l'.size != l.size ==> l.size < l.Readable() + len + CHEAP_PREPEND)
  {
  }

  function AppendLayout(l: Layout, len: nat): (l': Layout)
    requires l.Valid()
    ensures l'.Valid() && l'.Readable() == l.Readable() + len
    ensures l'.size <= Max(l.size, l.Readable() + 2 * len + CHEAP_PREPEND - 1)
  {
    MakeSpaceFits(l, len);
    var m := EnsureLayout(l, len);
    m.(writer := m.writer + len)
  }

  function RetrieveLayout(l: Layout, len: nat): (l': Layout)
    requires l.Valid()
    ensures l'.Valid() && l'.Readable() == l.Readable() - Min(len, l.Readable()) && l'.size == l.size
    ensures l'.Readable() == 0 ==> l'.writer == CHEAP_PREPEND
  {
    if len < l.Readable() then l.(reader := l.reader + len) else l.(reader := CHEAP_PREPEND, writer := CHEAP_PREPEND)
  }

  /** How many bytes readv may deliver: the writable part, and the stack area when that is short. */
  function ReadCapacity(l: Layout): nat
    requires l.Valid()
  {
    l.Writable() + if l.Writable() < EXTRA_SIZE then EXTRA_SIZE else 0
  }

  /** One read can always take at least the stack area's 65536 bytes, reaches the stack area only when
      the writable part alone is shorter than that, and never has more than that left to append. */
  lemma ReadOffers(l: Layout, n: nat)
    requires l.Valid() && n <= ReadCapacity(l)
    ensures EXTRA_SIZE <= ReadCapacity(l)
    ensures n > l.Writable() ==> l.Writable() < EXTRA_SIZE && n - l.Writable() <= EXTRA_SIZE
    ensures l.Writable() < EXTRA_SIZE ==> ReadCapacity(l) == l.Writable() + EXTRA_SIZE
  {
  }

  function ReadLayout(l: Layout, n: nat): (l': Layout)
    requires l.Valid()
    ensures l'.Valid() && l'.Readable() == l.Readable() + n
    ensures l'.size <= Max(l.size, l.Readable() + 2 * n + CHEAP_PREPEND - 1)
  {
    if n <= l.Writable() then l.(writer := l.writer + n)
    else AppendLayout(l.(writer := l.size), n - l.Writable())
  }

  /** What a caller can do to a buffer, and the byte queue it should look like. */
  datatype Op = Append(data: seq<Byte>) | Retrieve(len: nat) | ReadFd(delivered: seq<Byte>)

  function QueueStep(q: seq<Byte>, op: Op): seq<Byte> {
    match op
    case Append(data) => q + data
    case Retrieve(len) => q[Min(len, |q|)..]
    case ReadFd(delivered) => q + delivered
  }

  function LayoutStep(l: Layout, op: Op): (l': Layout)
    requires l.Valid()
    ensures l'.Valid()
  {
    match op
    case Append(data) => AppendLayout(l, |data|)
    case Retrieve(len) => RetrieveLayout(l, len)
    case ReadFd(delivered) => ReadLayout(l, |delivered|)
  }

  function QueueRun(q: seq<Byte>, ops: seq<Op>): seq<Byte>
    decreases |ops|
  {
    if ops == [] then q else QueueRun(QueueStep(q, ops[0]), ops[1..])
  }

  function LayoutRun(l: Layout, ops: seq<Op>): (l': Layout)
    requires l.Valid()
    ensures l'.Valid()
    decreases |ops|
  {
    if ops == [] then l else LayoutRun(LayoutStep(l, ops[0]), ops[1..])
  }

  /** The content stays within h bytes after each operation. */
  predicate ContentWithin(q: seq<Byte>, ops: seq<Op>, h: nat)
    decreases |ops|
  {
    |q| <= h && (ops != [] ==> ContentWithin(QueueStep(q, ops[0]), ops[1..], h))
  }

  /** Over a whole run the indices delimit exactly as many bytes as the queue holds, and the
      storage never exceeds the larger of where it started and 2h + 7. */
  lemma {:induction false} RunStaysBounded(l: Layout, q: seq<Byte>, ops: seq<Op>, h: nat)
    requires l.Valid() && l.Readable() == |q| && ContentWithin(q, ops, h)
    ensures LayoutRun(l, ops).Readable() == |QueueRun(q, ops)|
    ensures LayoutRun(l, ops).size <= Max(l.size, 2 * h + CHEAP_PREPEND - 1)
    decreases |ops|
  {
    if ops != [] {
      RunStaysBounded(LayoutStep(l, ops[0]), QueueStep(q, ops[0]), ops[1..], h);
    }
  }

  /** Every read of a run delivers no more than the layout of its moment offers. */
  predicate Deliverable(l: Layout, ops: seq<Op>)
    requires l.Valid()
    decreases |ops|
  {
    ops != [] ==>
      && (ops[0].ReadFd? ==> |ops[0].delivered| <= ReadCapacity(l))
      && Deliverable(LayoutStep(l, ops[0]), ops[1..])
  }

  /** What a read or write system call reported. */
  datatype IoResult = Done(n: nat) | Failed(errno: int)

  class Buffer {
    var buffer: array<Byte>
    var readerIndex: nat
    var writerIndex: nat

    ghost predicate Valid()
      reads this
    {
      CHEAP_PREPEND <= readerIndex <= writerIndex <= buffer.Length
    }

    ghost function LayoutOf(): (l: Layout)
      requires Valid()
      reads this
      ensures l.Valid()
    {
      Layout(buffer.Length, readerIndex, writerIndex)
    }

    ghost function Contents(): (s: seq<Byte>)
      requires Valid()
      reads this, buffer
      ensures |s| == LayoutOf().Readable()
    {
      buffer[readerIndex..writerIndex]
    }

    constructor (initialSize: nat := INITIAL_SIZE)
      ensures Valid() && fresh(buffer) && Contents() == []
      ensures LayoutOf() == Layout(CHEAP_PREPEND + initialSize, CHEAP_PREPEND, CHEAP_PREPEND)
    {
      buffer := new Byte[CHEAP_PREPEND + initialSize](_ => 0);
      readerIndex := CHEAP_PREPEND;
      writerIndex := CHEAP_PREPEND;
    }

    function ReadableBytes(): nat
      requires Valid()
      reads this
    {
      writerIndex - readerIndex
    }

    function WritableBytes(): nat
      requires Valid()
      reads this
    {
      buffer.Length - writerIndex  // REPAIR of Buffer.h:35
    }

    function PrependableBytes(): nat
      reads this
    {
      readerIndex
    }

    method Retrieve(len: nat)
      requires Valid()
      modifies `readerIndex, `writerIndex
      ensures Valid() && LayoutOf() == RetrieveLayout(old(LayoutOf()), len)
      ensures Contents() == old(Contents())[Min(len, |old(Contents())|)..]
      ensures Contents() == [] ==> readerIndex == writerIndex == CHEAP_PREPEND
    {
      if len < ReadableBytes() {
        readerIndex := readerIndex + len;
      } else {
        RetrieveAll();
      }
    }

    method RetrieveAll()
      modifies `readerIndex, `writerIndex
      requires Valid()
      ensures Valid() && Contents() == []
      ensures readerIndex == writerIndex == CHEAP_PREPEND
    {
      readerIndex := CHEAP_PREPEND;
      writerIndex := CHEAP_PREPEND;
    }

    /** The string constructor reads len bytes from peek() whatever the content's length, so the
        caller owes only that they lie in the storage; a longer len returns stale bytes too. */
    method RetrieveAsString(len: nat) returns (result: seq<Byte>)
      requires Valid() && readerIndex + len <= buffer.Length
      modifies `readerIndex, `writerIndex
      ensures Valid() && LayoutOf() == RetrieveLayout(old(LayoutOf()), len)
      ensures |result| == len
      ensures len <= |old(Contents())| ==> result + Contents() == old(Contents())
      ensures |old(Contents())| < len ==> old(Contents()) < result && Contents() == []
    {
      result := buffer[readerIndex..readerIndex + len];
      Retrieve(len);
    }

    method RetrieveAllAsString() returns (result: seq<Byte>)
      requires Valid()
      modifies `readerIndex, `writerIndex
      ensures Valid() && result == old(Contents()) && Contents() == []
      ensures LayoutOf() == RetrieveLayout(old(LayoutOf()), |old(Contents())|)
    {
      result := RetrieveAsString(ReadableBytes());
    }

    /** std::copy onto the front: a forward copy whose source and target overlap. */
    method MoveToFront()
      requires Valid()
      modifies this`readerIndex, this`writerIndex, buffer
      ensures Valid() && buffer == old(buffer) && Contents() == old(Contents())
      ensures readerIndex == CHEAP_PREPEND && writerIndex == CHEAP_PREPEND + |old(Contents())|
    {
      var readable := ReadableBytes();
      ghost var was := Contents();
      var i := 0;
      while i < readable
        invariant 0 <= i <= readable && Valid()
        invariant readerIndex == old(readerIndex) && writerIndex == old(writerIndex)
        invariant forall j :: 0 <= j < i ==> buffer[CHEAP_PREPEND + j] == was[j]
        invariant forall j :: i <= j < readable ==> buffer[readerIndex + j] == was[j]
      {
        buffer[CHEAP_PREPEND + i] := buffer[readerIndex + i];
        i := i + 1;
      }
      readerIndex := CHEAP_PREPEND;
      writerIndex := readerIndex + readable;
    }

    /** vector::resize to a larger size: new storage, old bytes, then zeros. */
    method Resize(size: nat)
      requires Valid() && buffer.Length <= size
      modifies `buffer
      ensures fresh(buffer) && buffer.Length == size && Valid()
      ensures Contents() == old(Contents())
    {
      var was := buffer;
      buffer := new Byte[size](i requires 0 <= i reads was => if i < was.Length then was[i] else 0);
    }

    method MakeSpace(len: nat)
      requires Valid() && LayoutOf().Writable() < len
      modifies this, buffer
      ensures Valid() && (buffer == old(buffer) || fresh(buffer))
      ensures LayoutOf() == MakeSpaceLayout(old(LayoutOf()), len)
      ensures Contents() == old(Contents())
    {
      MakeSpaceFits(LayoutOf(), len);
      if WritableBytes() + PrependableBytes() < len + CHEAP_PREPEND {
        Resize(writerIndex + len);
      } else {
        MoveToFront();
      }
    }

    method EnsureWritableBytes(len: nat)
      requires Valid()
      modifies this, buffer
      ensures Valid() && (buffer == old(buffer) || fresh(buffer))
      ensures LayoutOf() == EnsureLayout(old(LayoutOf()), len) && len <= LayoutOf().Writable()
      ensures Contents() == old(Contents())
    {
      MakeSpaceFits(LayoutOf(), len);
      if WritableBytes() < len {
        MakeSpace(len);
      }
    }

    /** The scatter of one system call or copy: data lands right after the content. */
    method Fill(data: seq<Byte>)
      requires Valid() && |data| <= LayoutOf().Writable()
      modifies buffer
      ensures Contents() == old(Contents())
      ensures buffer[writerIndex..writerIndex + |data|] == data
    {
      var i := 0;
      while i < |data|
        invariant 0 <= i <= |data|
        invariant Contents() == old(Contents())
        invariant buffer[writerIndex..writerIndex + i] == data[..i]
      {
        buffer[writerIndex + i] := data[i];
        i := i + 1;
      }
    }

    /** Data stored behind the content, and the writer moved past it. */
    method Take(data: seq<Byte>)
      requires Valid() && |data| <= LayoutOf().Writable()
      modifies `writerIndex, buffer
      ensures Valid() && LayoutOf() == old(LayoutOf()).(writer := old(LayoutOf()).writer + |data|)
      ensures Contents() == old(Contents()) + data
    {
      Fill(data);
      assert buffer[readerIndex..writerIndex + |data|]
          == buffer[readerIndex..writerIndex] + buffer[writerIndex..writerIndex + |data|];
      writerIndex := writerIndex + |data|;  // REPAIR of Buffer.h:87-91, where Append calls this
    }

    method Append(data: seq<Byte>)
      requires Valid()
      modifies this, buffer
      ensures Valid() && (buffer == old(buffer) || fresh(buffer))
      ensures LayoutOf() == AppendLayout(old(LayoutOf()), |data|)
      ensures Contents() == old(Contents()) + data
    {
      EnsureWritableBytes(|data|);
      hide EnsureLayout, MakeSpaceLayout;
      Take(data);
    }

    /** readv into the writable part and then the stack area; `kernel` is what it reports and
        `delivered` the bytes it stored, at most what the chosen iovec count offers. */
    method ReadFd(kernel: IoResult, delivered: seq<Byte>) returns (n: int, savedErrno: int)
      requires Valid()
      requires kernel.Done? ==> kernel.n == |delivered| <= ReadCapacity(LayoutOf())
      modifies this, buffer
      ensures Valid() && (buffer == old(buffer) || fresh(buffer))
      ensures kernel.Failed? ==> n < 0 && savedErrno == kernel.errno && LayoutOf() == old(LayoutOf())
                                 && Contents() == old(Contents())
      ensures kernel.Done? ==> n == |delivered| && savedErrno == 0
                               && LayoutOf() == ReadLayout(old(LayoutOf()), |delivered|)
                               && Contents() == old(Contents()) + delivered
    {
      hide AppendLayout, EnsureLayout, MakeSpaceLayout;
      savedErrno := 0;
      var writable := WritableBytes();
      if kernel.Failed? {
        n := -1;
        savedErrno := kernel.errno;
        return;
      }
      n := kernel.n;
      var direct := Min(kernel.n, writable);
      assert delivered == delivered[..direct] + delivered[direct..];
      Take(delivered[..direct]);
      if n > writable {
        assert writerIndex == buffer.Length;
        Append(delivered[direct..]);
      }
    }

    /** A whole run of calls: the object stays the byte queue, with the storage the layout says. */
    method Perform(ops: seq<Op>)
      requires Valid() && Deliverable(LayoutOf(), ops)
      modifies this, buffer
      ensures Valid() && (buffer == old(buffer) || fresh(buffer))
      ensures Contents() == QueueRun(old(Contents()), ops)
      ensures LayoutOf() == LayoutRun(old(LayoutOf()), ops)
    {
      var i := 0;
      while i < |ops|
        invariant 0 <= i <= |ops| && Valid() && (buffer == old(buffer) || fresh(buffer))
        invariant Deliverable(LayoutOf(), ops[i..])
        invariant QueueRun(Contents(), ops[i..]) == QueueRun(old(Contents()), ops)
        invariant LayoutRun(LayoutOf(), ops[i..]) == LayoutRun(old(LayoutOf()), ops)
      {
        assert ops[i..][0] == ops[i] && ops[i..][1..] == ops[i + 1..];
        PerformOne(ops[i]);
        i := i + 1;
      }
    }

    method PerformOne(op: Op)
      requires Valid() && (op.ReadFd? ==> |op.delivered| <= ReadCapacity(LayoutOf()))
      modifies this, buffer
      ensures Valid() && (buffer == old(buffer) || fresh(buffer))
      ensures Contents() == QueueStep(old(Contents()), op) && LayoutOf() == LayoutStep(old(LayoutOf()), op)
    {
      hide AppendLayout, RetrieveLayout, ReadLayout, ReadCapacity;
      match op
      case Append(data) => Append(data);
      case Retrieve(len) => Retrieve(len);
      case ReadFd(delivered) =>
        var n, savedErrno := ReadFd(Done(|delivered|), delivered);
    }

    /** write from the front of the content; retrieving what was written is the caller's part. */
    method WriteFd(kernel: IoResult) returns (n: int, saveErrno: int, sent: seq<Byte>)
      requires Valid() && (kernel.Done? ==> kernel.n <= |Contents()|)
      ensures kernel.Failed? ==> n < 0 && saveErrno == kernel.errno && sent == []
      ensures kernel.Done? ==> n == kernel.n == |sent| && sent + Contents()[n..] == Contents()
    {
      saveErrno := 0;
      match kernel
      case Failed(e) => n, saveErrno, sent := -1, e, [];
      case Done(k) => n, sent := k, buffer[readerIndex..readerIndex + k];
    }
  }
}

/** The two lines of Buffer.h that the class above repairs, as they stand. A write past the end
    of the vector is None: what happens next is undefined. */
module BufferAsWritten {
  import opened Options
  import opened Buffers

  datatype Raw = Raw(store: seq<Byte>, reader: nat, writer: nat) {
    predicate Valid() { CHEAP_PREPEND <= reader <= writer <= |store| }

    function Contents(): seq<Byte> requires Valid() { store[reader..writer] }

    /** Buffer.h:35 */
    function WritableBytes(): nat requires Valid() { |store| - reader }

    function MakeSpace(len: nat): Raw
      requires Valid()
    {
      if WritableBytes() + reader < len + CHEAP_PREPEND
      then this.(store := Resized(store, writer + len))
      else Raw(store[..CHEAP_PREPEND] + Contents() + store[CHEAP_PREPEND + |Contents()|..],
               CHEAP_PREPEND, CHEAP_PREPEND + |Contents()|)
    }

    function Ensure(len: nat): Raw
      requires Valid()
    {
      if WritableBytes() < len then MakeSpace(len) else this
    }

    /** Buffer.h:87-91: the bytes are copied, the writer stays. */
    function Append(data: seq<Byte>): Option<Raw>
      requires Valid()
    {
      var b := Ensure(|data|);
      if b.writer + |data| <= |b.store|
      then Some(b.(store := b.store[..b.writer] + data + b.store[b.writer + |data|..]))
      else None
    }

    /** Buffer.cc:14-48 with both lines as written; the kernel is offered WritableBytes() bytes
        from the writer on, and `delivered` is what it stored. */
    function ReadFd(delivered: seq<Byte>): Option<Raw>
      requires Valid()
    {
      var writable := WritableBytes();
      var direct := Min(|delivered|, writable);
      if |store| < writer + direct then None
      else
        var stored := store[..writer] + delivered[..direct] + store[writer + direct..];
        if |delivered| <= writable then Some(Raw(stored, reader, writer + |delivered|))
        else Raw(stored, reader, |store|).Append(delivered[direct..])
    }
  }

  function Resized(s: seq<Byte>, n: nat): (r: seq<Byte>)
    ensures |r| == n
  {
    if n <= |s| then s[..n] else s + seq(n - |s|, _ => 0)
  }

  /** What makeSpace leaves: the content never changes. */
  lemma EnsureKeepsContents(b: Raw, len: nat)
    requires b.Valid()
    ensures b.Ensure(len).Valid() && b.Ensure(len).Contents() == b.Contents()
  {
  }

  /** The written append adds its argument at the back exactly when there is nothing to add. */
  lemma AppendAsWrittenCorrectIff(b: Raw, data: seq<Byte>)
    requires b.Valid()
    ensures (b.Append(data).Some? && b.Append(data).value.Valid()
             && b.Append(data).value.Contents() == b.Contents() + data)
            <==> data == []
  {
    EnsureKeepsContents(b, |data|);
    var e := b.Ensure(|data|);
    if e.writer + |data| <= |e.store| {
      var r := b.Append(data).value;
      assert forall i :: 0 <= i < e.writer ==> r.store[i] == e.store[i];
      assert r.Contents() == e.Contents();
      assert |b.Contents() + data| == |b.Contents()| + |data|;
    }
  }

  /** And it stays inside the vector exactly when the true free space sufficed, or the vector was
      grown, or the content is moved down into room that suffices. */
  lemma AppendAsWrittenInBoundsIff(b: Raw, data: seq<Byte>)
    requires b.Valid()
    ensures b.Append(data).Some? <==>
              || b.writer + |data| <= |b.store|
              || |b.store| < |data| + CHEAP_PREPEND
              || (|b.store| - b.reader < |data| && |b.Contents()| + |data| + CHEAP_PREPEND <= |b.store|)
  {
  }

  /** The written readFd delivers every byte in order exactly when they fit in the true free
      space, that is when neither faulty line matters. */
  lemma ReadAsWrittenCorrectIff(b: Raw, delivered: seq<Byte>)
    requires b.Valid()
    ensures (b.ReadFd(delivered).Some? && b.ReadFd(delivered).value.Valid()
             && b.ReadFd(delivered).value.Contents() == b.Contents() + delivered)
            <==> b.writer + |delivered| <= |b.store|
  {
    var direct := Min(|delivered|, b.WritableBytes());
    if b.writer + direct <= |b.store| {
      var stored := b.store[..b.writer] + delivered[..direct] + b.store[b.writer + direct..];
      if |delivered| <= b.WritableBytes() {
        assert stored[b.reader..b.writer + |delivered|] == b.Contents() + delivered;
      } else {
        var full := Raw(stored, b.reader, |b.store|);
        var extra := delivered[direct..];
        EnsureKeepsContents(full, |extra|);
        if full.Append(extra).Some? {
          assert full.Append(extra).value.Contents() == full.Contents();
          assert |full.Contents()| == |b.Contents()| + direct;
        }
      }
    }
  }

  /** A read of one byte more than a fresh default buffer holds: the last byte is copied behind the
      end of the vector. */
  lemma ReadAsWrittenOverruns(delivered: seq<Byte>)
    requires |delivered| == INITIAL_SIZE + 1
    ensures var b := Raw(seq(CHEAP_PREPEND + INITIAL_SIZE, _ => 0), CHEAP_PREPEND, CHEAP_PREPEND);
            b.Valid() && b.ReadFd(delivered) == None
  {
    var b := Raw(seq(CHEAP_PREPEND + INITIAL_SIZE, _ => 0), CHEAP_PREPEND, CHEAP_PREPEND);
    var full := Raw(b.store[..b.writer] + delivered[..INITIAL_SIZE], b.reader, |b.store|);
    assert full.Append(delivered[INITIAL_SIZE..]) == None;
  }

  /** A fresh default buffer and one byte already show it. */
  lemma AppendAsWrittenLosesOneByte()
    ensures var b := Raw(seq(CHEAP_PREPEND + INITIAL_SIZE, _ => 0), CHEAP_PREPEND, CHEAP_PREPEND);
            b.Valid() && b.Append([65]).Some? && b.Append([65]).value.Contents() == []
  {
  }
}
