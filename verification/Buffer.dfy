/**
 Buffer.h and Buffer.cpp: a growable byte queue kept in one array between two
 indices.  The class is proved against the byte sequence it holds (`Content`) and
 against the three numbers that describe its memory (`Layout`); the memory bound is
 then proved about runs of layouts.
 */
module ByteBuffer {

  type Byte = bv8

  const CHEAP_PREPEND: nat := 8
  const INITIAL_SIZE: nat := 1024
  /** Size of the stack buffer `readFd` lets the kernel spill into. */
  const EXTRA_SIZE: nat := 65536

  /** What `readv` reports: the bytes it scattered, in order, or an errno. */
  datatype ReadResult = Delivered(bytes: seq<Byte>) | Failed(errno: int)

  function Zeros(n: nat): (z: seq<Byte>)
    ensures |z| == n && forall i :: 0 <= i < n ==> z[i] == 0
  {
    seq(n, _ => 0)
  }

  function Max(a: nat, b: nat): nat {
    if a < b then b else a
  }

  // ---------------------------------------------------------------- memory layout

  datatype Layout = Layout(size: nat, reader: nat, writer: nat) {
    predicate Valid() {
      reader <= writer <= size
    }

    function Readable(): nat
      requires Valid()
    {
      writer - reader
    }

    function Writable(): nat
      requires Valid()
    {
      size - writer
    }

    /** makeSpace: grow when the free bytes on both sides do not suffice, else slide. */
    function MadeSpace(len: nat): (l: Layout)
      requires Valid() && Writable() < len
      ensures l.Valid() && l.Writable() >= len && l.Readable() == Readable()
    {
      if Writable() + reader < len + CHEAP_PREPEND
      then Layout(writer + len, reader, writer)
      else Layout(size, CHEAP_PREPEND, CHEAP_PREPEND + Readable())
    }

    function Ensured(len: nat): (l: Layout)
      requires Valid()
      ensures l.Valid() && l.Writable() >= len && l.Readable() == Readable()
    {
      if Writable() < len then MadeSpace(len) else this
    }

    function Appended(len: nat): (l: Layout)
      requires Valid()
      ensures l.Valid() && l.Readable() == Readable() + len
    {
      var l := Ensured(len);
      l.(writer := l.writer + len)
    }

    function AfterRead(n: nat): (l: Layout)
      requires Valid()
      ensures l.Valid() && l.Readable() == Readable() + n
    {
      if n <= Writable() then this.(writer := writer + n)
      else this.(writer := size).Appended(n - Writable())
    }
  }

  const INITIAL: Layout := Layout(CHEAP_PREPEND + INITIAL_SIZE, CHEAP_PREPEND, CHEAP_PREPEND)

  // ---------------------------------------------------------------- the class

  class Buffer {
    var storage: array<Byte>
    var readerIndex: nat
    var writerIndex: nat

    ghost predicate Valid()
      reads this
    {
      readerIndex <= writerIndex <= storage.Length
    }

    /** The readable bytes, in order: the value a client sees. */
    ghost function Content(): seq<Byte>
      requires Valid()
      reads this, storage
    {
      storage[readerIndex..writerIndex]
    }

    ghost function Shape(): Layout
      reads this
    {
      Layout(storage.Length, readerIndex, writerIndex)
    }

    constructor ()
      ensures Valid() && fresh(storage)
      ensures Content() == [] && Shape() == INITIAL
    {
      storage := new Byte[CHEAP_PREPEND + INITIAL_SIZE](_ => 0);
      readerIndex, writerIndex := CHEAP_PREPEND, CHEAP_PREPEND;
    }

    method Swap(rhs: Buffer)
      requires Valid() && rhs.Valid()
      modifies this, rhs
      ensures Valid() && rhs.Valid()
      ensures storage == old(rhs.storage) && rhs.storage == old(storage)
      ensures Content() == old(rhs.Content()) && Shape() == old(rhs.Shape())
      ensures rhs.Content() == old(Content()) && rhs.Shape() == old(Shape())
    {
      storage, rhs.storage := rhs.storage, storage;
      readerIndex, rhs.readerIndex := rhs.readerIndex, readerIndex;
      writerIndex, rhs.writerIndex := rhs.writerIndex, writerIndex;
    }

    function ReadableBytes(): (n: nat)
      requires Valid()
      reads this, storage
      ensures n == |Content()|
    {
      writerIndex - readerIndex
    }

    function WritableBytes(): nat
      requires Valid()
      reads this
    {
      storage.Length - writerIndex
    }

    method Retrieve(len: nat)
      requires Valid() && len <= ReadableBytes()
      modifies this
      ensures Valid() && storage == old(storage)
      ensures Content() == old(Content())[len..]
      ensures Shape() == old(Shape()).(reader := old(readerIndex) + len)
    {
      readerIndex := readerIndex + len;
    }

    /** `retrieveUntil(end)`, with the pointer given by its offset in the storage. */
    method RetrieveUntil(end: nat)
      requires Valid() && readerIndex <= end <= writerIndex
      modifies this
      ensures Valid() && storage == old(storage)
      ensures Content() == old(Content())[end - old(readerIndex)..]
    {
      Retrieve(end - readerIndex);
    }

    /** Needs no `Valid`: it repairs the indices, provided the storage holds the prepend area. */
    method RetrieveAll()
      requires CHEAP_PREPEND <= storage.Length
      modifies this
      ensures Valid() && storage == old(storage)
      ensures Content() == []
      ensures Shape() == Layout(old(storage.Length), CHEAP_PREPEND, CHEAP_PREPEND)
    {
      readerIndex, writerIndex := CHEAP_PREPEND, CHEAP_PREPEND;
    }

    method RetrieveAsString() returns (str: seq<Byte>)
      requires Valid() && CHEAP_PREPEND <= storage.Length
      modifies this
      ensures Valid() && storage == old(storage)
      ensures str == old(Content()) && Content() == []
    {
      str := storage[readerIndex..writerIndex];
      RetrieveAll();
    }

    method Append(data: seq<Byte>)
      requires Valid()
      modifies this, storage
      ensures Valid() && (storage == old(storage) || fresh(storage))
      ensures Content() == old(Content()) + data
      ensures Shape() == old(Shape()).Appended(|data|)
    {
      EnsureWritableBytes(|data|);
      CopyToTail(data);
      HasWritten(|data|);
    }

    /** `std::copy` to `beginWrite()`: the bytes land behind the content. */
    method CopyToTail(data: seq<Byte>)
      requires Valid() && |data| <= WritableBytes()
      modifies storage
      ensures storage[readerIndex..writerIndex + |data|] == old(Content()) + data
    {
      forall i | 0 <= i < |data| {
        storage[writerIndex + i] := data[i];
      }
      assert storage[readerIndex..writerIndex] == old(Content());
      assert storage[writerIndex..writerIndex + |data|] == data;
    }

    method EnsureWritableBytes(len: nat)
      requires Valid()
      modifies this, storage
      ensures Valid() && (storage == old(storage) || fresh(storage))
      ensures WritableBytes() >= len
      ensures Content() == old(Content())
      ensures Shape() == old(Shape()).Ensured(len)
    {
      if WritableBytes() < len {
        MakeSpace(len);
      }
    }

    method HasWritten(len: nat)
      requires Valid() && len <= WritableBytes()
      modifies this
      ensures Valid() && storage == old(storage)
      ensures Shape() == old(Shape()).(writer := old(writerIndex) + len)
    {
      writerIndex := writerIndex + len;
    }

    method Prepend(data: seq<Byte>)
      requires Valid() && |data| <= readerIndex
      modifies this, storage
      ensures Valid() && storage == old(storage)
      ensures Content() == data + old(Content())
      ensures Shape() == old(Shape()).(reader := old(readerIndex) - |data|)
    {
      ghost var before := Content();
      readerIndex := readerIndex - |data|;
      forall i | 0 <= i < |data| {
        storage[readerIndex + i] := data[i];
      }
      assert storage[readerIndex..readerIndex + |data|] == data;
      assert storage[readerIndex + |data|..writerIndex] == before;
    }

    /**
     The new vector holds the content behind a fresh prepend area, but neither index is
     moved.  `ShrinkExact` says when the buffer is still the same queue afterwards.
     */
    method Shrink(reserve: nat)
      requires Valid()
      modifies this
      ensures fresh(storage) && storage[..] == ShrunkStorage(old(Content()), reserve)
      ensures readerIndex == old(readerIndex) && writerIndex == old(writerIndex)
    {
      var n := writerIndex - readerIndex;
      var buf := new Byte[CHEAP_PREPEND + n + reserve](_ => 0);
      forall i | 0 <= i < n {
        buf[CHEAP_PREPEND + i] := storage[readerIndex + i];
      }
      storage := buf;
      assert storage[..] == ShrunkStorage(old(Content()), reserve);
    }

    /** `readFd`: one scatter read into the free tail and a stack buffer. */
    method ReadFd(result: ReadResult) returns (n: int, savedErrno: int)
      requires Valid()
      requires result.Delivered? ==> |result.bytes| <= WritableBytes() + EXTRA_SIZE
      modifies this, storage
      ensures Valid() && (storage == old(storage) || fresh(storage))
      ensures result.Failed? ==>
                n < 0 && savedErrno == result.errno && Content() == old(Content()) && Shape() == old(Shape())
      ensures result.Delivered? ==>
                && n == |result.bytes|
                && Content() == old(Content()) + result.bytes
                && Shape() == old(Shape()).AfterRead(n)
    {
      savedErrno := 0;
      if result.Failed? {
        savedErrno := result.errno;
        return -1, savedErrno;
      }
      var bytes := result.bytes;
      n := |bytes|;
      var writable := WritableBytes();
      // the kernel fills the first vector before it touches the second
      if n <= writable {
        CopyToTail(bytes);
        writerIndex := writerIndex + n;
      } else {
        var extrabuf := bytes[writable..];
        CopyToTail(bytes[..writable]);
        writerIndex := storage.Length;
        Append(extrabuf);
        assert old(Content()) + bytes[..writable] + extrabuf == old(Content()) + bytes;
      }
    }

    method MakeSpace(len: nat)
      requires Valid() && WritableBytes() < len
      modifies this, storage
      ensures Valid() && (storage == old(storage) || fresh(storage))
      ensures Content() == old(Content())
      ensures Shape() == old(Shape()).MadeSpace(len)
    {
      if WritableBytes() + readerIndex < len + CHEAP_PREPEND {
        Resize(writerIndex + len);
      } else {
        assert CHEAP_PREPEND < readerIndex;
        var readable := writerIndex - readerIndex;
        SlideToFront(readable);
        readerIndex := CHEAP_PREPEND;
        writerIndex := readerIndex + readable;
        assert readable == writerIndex - readerIndex;
      }
    }

    /** `std::vector::resize` to a larger size: old bytes kept, new ones zero. */
    method Resize(size: nat)
      requires Valid() && storage.Length <= size
      modifies this
      ensures Valid() && fresh(storage) && Shape() == old(Shape()).(size := size)
      ensures storage[..old(storage.Length)] == old(storage[..])
      ensures Content() == old(Content())
    {
      var bigger := new Byte[size](_ => 0);
      forall i | 0 <= i < storage.Length {
        bigger[i] := storage[i];
      }
      ghost var was := storage[..];
      storage := bigger;
      assert storage[..|was|] == was;
      assert storage[readerIndex..writerIndex] == storage[..|was|][readerIndex..writerIndex];
    }

    /** `std::copy` onto an overlapping, lower range: it must run upwards to be correct. */
    method SlideToFront(readable: nat)
      requires Valid() && readable == writerIndex - readerIndex && CHEAP_PREPEND < readerIndex
      modifies storage
      ensures storage[CHEAP_PREPEND..CHEAP_PREPEND + readable] == old(Content())
    {
      var i := 0;
      while i < readable
        invariant 0 <= i <= readable
        invariant storage[CHEAP_PREPEND..CHEAP_PREPEND + i] == old(Content())[..i]
        invariant storage[readerIndex + i..writerIndex] == old(Content())[i..]
      {
        assert storage[readerIndex + i] == old(Content())[i];
        storage[CHEAP_PREPEND + i] := storage[readerIndex + i];
        i := i + 1;
      }
    }
  }

  // ---------------------------------------------------------------- memory bound

  datatype Op = Append(n: nat) | Prepend(n: nat) | Retrieve(n: nat) | RetrieveAll | ReadFd(n: nat)

  /** The asserts of `prepend` and `retrieve`, and the capacity of the scatter read. */
  predicate Legal(l: Layout, op: Op)
    requires l.Valid()
  {
    match op
    case Append(_) => true
    case Prepend(n) => n <= l.reader
    case Retrieve(n) => n <= l.Readable()
    case RetrieveAll => CHEAP_PREPEND <= l.size
    case ReadFd(n) => n <= l.Writable() + EXTRA_SIZE
  }

  function Apply(l: Layout, op: Op): (r: Layout)
    requires l.Valid() && Legal(l, op)
    ensures r.Valid()
  {
    match op
    case Append(n) => l.Appended(n)
    case Prepend(n) => l.(reader := l.reader - n)
    case Retrieve(n) => l.(reader := l.reader + n)
    case RetrieveAll => Layout(l.size, CHEAP_PREPEND, CHEAP_PREPEND)
    case ReadFd(n) => l.AfterRead(n)
  }

  /** `ls` is the run of layouts a new buffer goes through under `ops`. */
  predicate IsRun(ls: seq<Layout>, ops: seq<Op>) {
    && |ls| == |ops| + 1
    && ls[0] == INITIAL
    && (forall i :: 0 <= i < |ls| ==> ls[i].Valid())
    && forall i :: 0 <= i < |ops| ==> Legal(ls[i], ops[i]) && ls[i + 1] == Apply(ls[i], ops[i])
  }

  /** The largest number of readable bytes seen so far. */
  function Peak(ls: seq<Layout>): (p: nat)
    requires forall i :: 0 <= i < |ls| ==> ls[i].Valid()
    ensures forall i :: 0 <= i < |ls| ==> ls[i].Readable() <= p
  {
    if ls == [] then 0 else Max(Peak(ls[..|ls| - 1]), ls[|ls| - 1].Readable())
  }

  /** Space is made by sliding, in storage of the same size, exactly when all of it fits there. */
  lemma SlidesExactly(l: Layout, len: nat)
    requires l.Valid() && l.Writable() < len
    ensures var m := l.MadeSpace(len);
            && (m.size == l.size <==> CHEAP_PREPEND + l.Readable() + len <= l.size)
            && (if m.size == l.size then m == Layout(l.size, CHEAP_PREPEND, CHEAP_PREPEND + l.Readable())
                else m == Layout(l.writer + len, l.reader, l.writer))
  {
  }

  /** No space is made where there is enough. */
  lemma EnsuresOnlyIfNeeded(l: Layout, len: nat)
    requires l.Valid()
    ensures l.Ensured(len) == l <==> len <= l.Writable()
  {
  }

  /** One operation: the storage either keeps its size or fits twice what is now readable. */
  lemma StepBound(l: Layout, op: Op)
    requires l.Valid() && Legal(l, op)
    ensures Apply(l, op).size == l.size || Apply(l, op).size <= 2 * Apply(l, op).Readable() + 7
  {
  }

  /** The storage never exceeds its initial size or twice the peak content plus seven bytes. */
  lemma {:induction false} MemoryBound(ls: seq<Layout>, ops: seq<Op>)
    requires IsRun(ls, ops)
    ensures ls[|ops|].size <= Max(CHEAP_PREPEND + INITIAL_SIZE, 2 * Peak(ls) + 7)
  {
    if ops == [] {
    } else {
      var n := |ops| - 1;
      assert IsRun(ls[..n + 1], ops[..n]);
      MemoryBound(ls[..n + 1], ops[..n]);
      assert ls[..|ls| - 1] == ls[..n + 1];
      StepBound(ls[n], ops[n]);
    }
  }

  /** The bound cannot be improved: a run that reaches it exactly. */
  lemma MemoryBoundIsTight()
    ensures exists ls: seq<Layout>, ops: seq<Op> ::
              IsRun(ls, ops) && ls[|ops|].size == 2 * Peak(ls) + 7 > CHEAP_PREPEND + INITIAL_SIZE
  {
    var ls1, ops1 := ExtendRun([INITIAL], [], Append(1024));
    var ls2, ops2 := ExtendRun(ls1, ops1, Retrieve(1024));
    var ls3, ops3 := ExtendRun(ls2, ops2, Append(1025));
    PeakOfExtended([], INITIAL);
    assert [] + [INITIAL] == [INITIAL];
    assert ls3[|ops3|].size == 2 * Peak(ls3) + 7;
  }

  lemma ExtendRun(ls: seq<Layout>, ops: seq<Op>, op: Op) returns (ls': seq<Layout>, ops': seq<Op>)
    requires IsRun(ls, ops) && Legal(ls[|ops|], op)
    ensures IsRun(ls', ops') && |ops'| == |ops| + 1
    ensures ls'[|ops'|] == Apply(ls[|ops|], op)
    ensures Peak(ls') == Max(Peak(ls), Apply(ls[|ops|], op).Readable())
  {
    ls', ops' := ls + [Apply(ls[|ops|], op)], ops + [op];
    PeakOfExtended(ls, Apply(ls[|ops|], op));
  }

  lemma PeakOfExtended(ls: seq<Layout>, l: Layout)
    requires l.Valid() && forall i :: 0 <= i < |ls| ==> ls[i].Valid()
    ensures Peak(ls + [l]) == Max(Peak(ls), l.Readable())
  {
    assert (ls + [l])[..|ls|] == ls;
  }

  // ---------------------------------------------------------------- shrink

  function ShrunkStorage(content: seq<Byte>, reserve: nat): seq<Byte> {
    Zeros(CHEAP_PREPEND) + content + Zeros(reserve)
  }

  /** `shrink` left a legal buffer that holds the same bytes. */
  predicate SurvivesShrink(l: Layout, content: seq<Byte>, reserve: nat)
    requires l.Valid() && |content| == l.Readable()
  {
    var bytes := ShrunkStorage(content, reserve);
    l.writer <= |bytes| && bytes[l.reader..l.writer] == content
  }

  /** Exactly the buffers whose content `shrink` keeps, whatever the bytes are. */
  lemma ShrinkExact(l: Layout, reserve: nat)
    requires l.Valid()
    ensures (forall content | |content| == l.Readable() :: SurvivesShrink(l, content, reserve))
            <==> l.reader == CHEAP_PREPEND || (l.Readable() == 0 && l.reader <= CHEAP_PREPEND + reserve)
  {
    if l.reader == CHEAP_PREPEND {
      forall content: seq<Byte> | |content| == l.Readable()
        ensures SurvivesShrink(l, content, reserve)
      {
        assert ShrunkStorage(content, reserve)[l.reader..l.writer] == content;
      }
    } else if l.Readable() != 0 {
      var n := l.Readable();
      var ones: seq<Byte> := seq(n, _ => 1);
      var bytes := ShrunkStorage(ones, reserve);
      if l.writer <= |bytes| {
        // a nonzero byte would have to come out of one of the two zero areas
        var k := if l.reader < CHEAP_PREPEND then 0 else n - 1;
        assert bytes[l.reader..l.writer][k] == bytes[l.reader + k] == 0;
        assert ones[k] == 1;
      }
      assert !SurvivesShrink(l, ones, reserve);
    } else {
      assert |ShrunkStorage([], reserve)| == CHEAP_PREPEND + reserve;
      if l.reader <= CHEAP_PREPEND + reserve {
        forall content: seq<Byte> | |content| == l.Readable()
          ensures SurvivesShrink(l, content, reserve)
        {
          assert content == [];
        }
      } else {
        assert !SurvivesShrink(l, [], reserve);
      }
    }
  }

  /** An ordinary run leads outside that condition: two bytes come in, one is taken, shrink loses the other. */
  lemma ShrinkLosesBytes(reserve: nat)
    ensures exists ls: seq<Layout>, ops: seq<Op>, content: seq<Byte> ::
              && IsRun(ls, ops) && |content| == ls[|ops|].Readable()
              && !SurvivesShrink(ls[|ops|], content, reserve)
  {
    var ls, ops := ExtendRun([INITIAL], [], Append(2));
    ls, ops := ExtendRun(ls, ops, Retrieve(1));
    ShrinkExact(ls[|ops|], reserve);
  }
}
