/** The sliding-window byte buffer: a prepend area, the readable bytes, and free
    space at the end. Every operation is specified by what it does to the
    readable bytes alone. */
module ByteBuffer {
  import opened Bytes

  const CHEAP_PREPEND := 8
  const INITIAL_SIZE := 1024
  const EXTRA_SIZE := 65536

  /** What a read delivered, or why it failed. */
  datatype ReadAnswer = Got(bytes: seq<byte>) | ReadFailed(errno: int)

  /** Making room for `len` bytes by compaction, with the given space behind and
      before the readable bytes. */
  predicate Compacts(writable: nat, prependable: nat, len: nat) {
    writable < len && writable + prependable >= len + CHEAP_PREPEND
  }

  /** The source asserts that more than eight bytes are readable when it compacts. */
  predicate Stops(writable: nat, prependable: nat, readable: nat, len: nat) {
    Compacts(writable, prependable, len) && readable <= CHEAP_PREPEND
  }

  /** The space behind the readable bytes once there is room for `len` more. */
  function RoomFor(writable: nat, prependable: nat, len: nat): (n: nat)
    ensures n >= len
  {
    if len <= writable then writable
    else if Compacts(writable, prependable, len) then writable + prependable - CHEAP_PREPEND
    else len
  }

  /** `failed` is set where the assertion of the compaction branch fails. */
  class Buffer {
    var data: array<byte>
    var readerIndex: nat
    var writerIndex: nat
    var failed: bool

    ghost predicate Valid()
      reads this
    {
      CHEAP_PREPEND <= data.Length && readerIndex <= writerIndex <= data.Length
    }

    /** The abstract value: the bytes a reader can still take, in order. */
    ghost function Readable(): (s: seq<byte>)
      reads this, data
      requires Valid()
    {
      data[readerIndex..writerIndex]
    }

    function ReadableBytes(): (n: nat)
      reads this, data
      requires Valid()
      ensures n == |Readable()|
    {
      writerIndex - readerIndex
    }

    function WritableBytes(): (r: nat)
      reads this
      requires Valid()
    {
      data.Length - writerIndex
    }

    function PrependableBytes(): (r: nat)
      reads this
    {
      readerIndex
    }

    /** Would the source's assertion fail if room for `len` bytes were made now? */
    predicate StopsFor(len: nat)
      reads this
      requires Valid()
    {
      Stops(WritableBytes(), PrependableBytes(), writerIndex - readerIndex, len)
    }

    predicate CompactsFor(len: nat)
      reads this
      requires Valid()
    {
      Compacts(WritableBytes(), PrependableBytes(), len)
    }

    function Room(len: nat): (r: nat)
      reads this
      requires Valid()
    {
      RoomFor(WritableBytes(), PrependableBytes(), len)
    }

    constructor (initialSize: nat := INITIAL_SIZE)
      ensures Valid() && fresh(data)
      ensures Readable() == [] && PrependableBytes() == 8
      ensures WritableBytes() == initialSize && !failed
    {
      failed := false;
      data := new byte[CHEAP_PREPEND + initialSize](_ => 0);
      readerIndex, writerIndex := CHEAP_PREPEND, CHEAP_PREPEND;
    }

    method Swap(rhs: Buffer)
      requires Valid() && rhs.Valid()
      modifies this`data, this`readerIndex, this`writerIndex, rhs`data, rhs`readerIndex, rhs`writerIndex
      ensures Valid() && rhs.Valid()
      ensures data == old(rhs.data) && rhs.data == old(data)
      ensures Readable() == old(rhs.Readable()) && rhs.Readable() == old(Readable())
      ensures readerIndex == old(rhs.readerIndex) && writerIndex == old(rhs.writerIndex)
      ensures rhs.readerIndex == old(readerIndex) && rhs.writerIndex == old(writerIndex)
    {
      data, rhs.data := rhs.data, data;
      readerIndex, rhs.readerIndex := rhs.readerIndex, readerIndex;
      writerIndex, rhs.writerIndex := rhs.writerIndex, writerIndex;
    }

    method RetrieveAll()
      requires Valid()
      modifies `readerIndex, `writerIndex
      ensures Valid()
      ensures Readable() == [] && PrependableBytes() == CHEAP_PREPEND
    {
      readerIndex, writerIndex := CHEAP_PREPEND, CHEAP_PREPEND;
    }

    method Retrieve(len: nat)
      requires Valid() && len <= |Readable()|
      modifies `readerIndex, `writerIndex
      ensures Valid()
      ensures Readable() == old(Readable())[len..]
      ensures len < old(ReadableBytes()) ==> writerIndex == old(writerIndex)
    {
      if len < ReadableBytes() {
        readerIndex := readerIndex + len;
      } else {
        RetrieveAll();
      }
    }

    method RetrieveAsString(len: nat) returns (s: seq<byte>)
      requires Valid() && len <= |Readable()|
      modifies `readerIndex, `writerIndex
      ensures Valid()
      ensures old(Readable()) == s + Readable() && |s| == len
    {
      s := data[readerIndex..readerIndex + len];
      Retrieve(len);
    }

    /** Makes room for `len` bytes: by growing the storage, or by moving the
        readable bytes left over themselves. The copy is right whether or not the
        source's assertion stops the program first. */
    method MakeSpace(len: nat)
      requires Valid() && WritableBytes() < len
      modifies this, data
      ensures Valid() && (data == old(data) || fresh(data))
      ensures Readable() == old(Readable()) && WritableBytes() == old(Room(len))
      ensures PrependableBytes() == if old(CompactsFor(len)) then CHEAP_PREPEND else old(PrependableBytes())
      ensures failed == (old(failed) || old(StopsFor(len)))
      ensures var w, p := old(WritableBytes()), old(PrependableBytes());
              if w + p < len + 8
              then WritableBytes() == len && PrependableBytes() == p && failed == old(failed)
              else WritableBytes() == w + p - 8 && PrependableBytes() == 8
                   && failed == (old(failed) || old(ReadableBytes()) <= 8)
    {
      if WritableBytes() + PrependableBytes() < len + CHEAP_PREPEND {
        var storage, w := data, writerIndex;
        data := new byte[w + len](i requires 0 <= i reads storage => if i < storage.Length then storage[i] else 0);
      } else {
        if !(CHEAP_PREPEND < ReadableBytes()) {
          failed := true;
        }
        // The move goes left: without this the copy would overwrite unread bytes.
        assert CHEAP_PREPEND < readerIndex;
        var readable := ReadableBytes();
        MoveLeft();
        readerIndex := CHEAP_PREPEND;
        writerIndex := readerIndex + readable;
      }
    }

    /** Copies the readable bytes, from the first on, to just behind the prepend area. */
    method MoveLeft()
      requires Valid() && CHEAP_PREPEND < readerIndex
      modifies data
      ensures data[CHEAP_PREPEND..CHEAP_PREPEND + (writerIndex - readerIndex)] == old(Readable())
    {
      ghost var was := Readable();
      var readable := ReadableBytes();
      var i := 0;
      while i < readable
        invariant 0 <= i <= readable == writerIndex - readerIndex
        invariant forall k :: 0 <= k < i ==> data[CHEAP_PREPEND + k] == was[k]
        invariant forall k :: readerIndex + i <= k < writerIndex ==> data[k] == was[k - readerIndex]
      {
        data[CHEAP_PREPEND + i] := data[readerIndex + i];
        i := i + 1;
      }
    }

    method EnsureWritableBytes(len: nat)
      requires Valid()
      modifies this, data
      ensures Valid() && (data == old(data) || fresh(data))
      ensures Readable() == old(Readable()) && WritableBytes() == old(Room(len))
      ensures PrependableBytes() == if old(CompactsFor(len)) then CHEAP_PREPEND else old(PrependableBytes())
      ensures len <= old(WritableBytes()) ==> data == old(data)
      ensures failed == (old(failed) || old(StopsFor(len)))
    {
      if WritableBytes() < len {
        MakeSpace(len);
      }
    }

    /** Fills free space with `s` and moves the write position past it. */
    method CopyToEnd(s: seq<byte>)
      requires Valid() && |s| <= WritableBytes()
      modifies `writerIndex, data
      ensures Valid() && readerIndex == old(readerIndex) && WritableBytes() == old(WritableBytes()) - |s|
      ensures Readable() == old(Readable()) + s
    {
      ghost var was := Readable();
      forall i | 0 <= i < |s| {
        data[writerIndex + i] := s[i];
      }
      assert data[readerIndex..writerIndex] == was;
      assert data[writerIndex..writerIndex + |s|] == s;
      writerIndex := writerIndex + |s|;
    }

    method Append(s: seq<byte>)
      requires Valid()
      modifies this, data
      ensures Valid() && (data == old(data) || fresh(data))
      ensures Readable() == old(Readable()) + s && WritableBytes() == old(Room(|s|)) - |s|
      ensures PrependableBytes() == if old(CompactsFor(|s|)) then CHEAP_PREPEND else old(PrependableBytes())
      ensures |s| <= old(WritableBytes()) ==> data == old(data)
      ensures failed == (old(failed) || old(StopsFor(|s|)))
    {
      EnsureWritableBytes(|s|);
      CopyToEnd(s);
    }

    /** Takes back the last `len` bytes written. */
    method Unwrite(len: nat)
      requires Valid() && len <= |Readable()|
      modifies `writerIndex
      ensures Valid()
      ensures Readable() == old(Readable()[..|Readable()| - len])
    {
      writerIndex := writerIndex - len;
    }

    method Prepend(s: seq<byte>)
      requires Valid() && |s| <= PrependableBytes()
      modifies `readerIndex, data
      ensures Valid()
      ensures Readable() == s + old(Readable())
      ensures PrependableBytes() == old(PrependableBytes()) - |s|
    {
      ghost var was := Readable();
      readerIndex := readerIndex - |s|;
      forall i | 0 <= i < |s| {
        data[readerIndex + i] := s[i];
      }
      assert data[readerIndex..readerIndex + |s|] == s;
      assert data[readerIndex + |s|..writerIndex] == was;
    }

    /** Moves the readable bytes into fresh storage with `reserve` bytes to spare. */
    method Shrink(reserve: nat)
      requires Valid()
      modifies this
      ensures Valid() && fresh(data)
      ensures Readable() == old(Readable()) && WritableBytes() >= reserve
      ensures PrependableBytes() == CHEAP_PREPEND && failed == old(failed)
    {
      var other := new Buffer();
      other.EnsureWritableBytes(ReadableBytes() + reserve);
      var s := RetrieveAsString(ReadableBytes());
      other.Append(s);
      Swap(other);
    }

    /** How many bytes one scatter read may deliver. */
    function ReadLimit(): (r: nat)
      reads this
      requires Valid()
    {
      WritableBytes() + (if WritableBytes() < EXTRA_SIZE then EXTRA_SIZE else 0)
    }

    /** A scatter read and the kernel's answer: bytes beyond the free space land in
        a spare area first and are appended from there; a failed read changes
        nothing but the saved error. */
    method ReadFd(answer: ReadAnswer) returns (n: int, savedErrno: int)
      requires Valid() && (answer.Got? ==> |answer.bytes| <= ReadLimit())
      modifies this, data
      ensures Valid() && (data == old(data) || fresh(data))
      ensures answer.ReadFailed? ==> n < 0 && savedErrno == answer.errno
                                     && Readable() == old(Readable()) && failed == old(failed)
      ensures answer.Got? ==>
                && n == |answer.bytes| && Readable() == old(Readable()) + answer.bytes
                && (n > old(WritableBytes()) ==>
                      failed == (old(failed) || Stops(0, old(PrependableBytes()),
                                                      old(ReadableBytes()) + old(WritableBytes()),
                                                      n - old(WritableBytes()))))
                && (n <= old(WritableBytes()) ==> failed == old(failed))
    {
      var writable := WritableBytes();
      n, savedErrno := -1, 0;
      match answer {
        case ReadFailed(errno) =>
          savedErrno := errno;
        case Got(bytes) =>
          n := |bytes|;
          if n <= writable {
            CopyToEnd(bytes);
          } else {
            CopyToEnd(bytes[..writable]);
            Append(bytes[writable..]);
            assert bytes == bytes[..writable] + bytes[writable..];
          }
      }
    }

    method AppendInt32(u: nat)
      requires Valid() && u < U32_SIZE
      modifies this, data
      ensures Valid() && (data == old(data) || fresh(data))
      ensures Readable() == old(Readable()) + BigEndian32(u) && WritableBytes() == old(Room(4)) - 4
      ensures PrependableBytes() == if old(CompactsFor(4)) then CHEAP_PREPEND else old(PrependableBytes())
      ensures failed == (old(failed) || old(StopsFor(4)))
    {
      Append(BigEndian32(u));
    }

    /** The readable bytes from `offset` on, `len` of them. */
    method Span(offset: nat, len: nat) returns (s: seq<byte>)
      requires Valid() && offset + len <= |Readable()|
      ensures s == Readable()[offset..offset + len]
    {
      s := data[readerIndex..writerIndex][offset..offset + len];
    }

    method PeekInt32() returns (i: int)
      requires Valid() && |Readable()| >= 4
      ensures i == AsInt32(FromBigEndian32(Readable()))
    {
      var s := Span(0, 4);
      assert s[..4] == Readable()[..4];
      i := AsInt32(FromBigEndian32(s));
    }

    /** Takes an integer off the front: what `AppendInt32` wrote there last. */
    method ReadInt32() returns (i: int)
      requires Valid() && |Readable()| >= 4
      modifies `readerIndex, `writerIndex
      ensures Valid() && data == old(data) && Readable() == old(Readable())[4..]
      ensures forall u :: 0 <= u < U32_SIZE && BigEndian32(u) <= old(Readable()) ==> i == AsInt32(u)
    {
      ghost var was := Readable();
      i := PeekInt32();
      forall u | 0 <= u < U32_SIZE && BigEndian32(u) <= was ensures i == AsInt32(u) {
        assert was[..4] == BigEndian32(u);
        BigEndian32Inverse(u, was[..4]);
        FirstFour(was[..4], was);
      }
      Retrieve(4);
    }

    method PrependInt32(u: nat)
      requires Valid() && u < U32_SIZE && 4 <= PrependableBytes()
      modifies `readerIndex, data
      ensures Valid()
      ensures Readable() == BigEndian32(u) + old(Readable())
      ensures PrependableBytes() == old(PrependableBytes()) - 4
    {
      Prepend(BigEndian32(u));
    }
  }

  /** The source's assertion in the compaction branch fails on this buffer. */
  method CompactionAssertionTooStrong() returns (b: Buffer, len: nat)
    ensures fresh(b) && b.Valid() && !b.failed
    ensures b.CompactsFor(len) && b.StopsFor(len)
  {
    b := new Buffer();
    b.Append(seq(1020, _ => 0));
    b.Retrieve(1016);
    len := 10;
  }
}
