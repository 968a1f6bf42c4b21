/** The codec object: it encodes one message into an empty buffer, and drains a
    buffer frame by frame into its message and error callbacks. */
module ProtobufCodec {
  import opened Bytes
  import opened ByteBuffer
  import opened Codec
  import Adler32

  /** `whole` is what remains to be decoded of `s`, after the messages `done`. */
  ghost predicate Continues(f: Format, whole: Decoded, done: seq<Payload>, s: seq<byte>) {
    var d := Decode(f, s);
    whole == Decoded(done + d.messages, d.rest, d.error)
  }

  /** One round of the decoding loop. */
  lemma Advance(f: Format, whole: Decoded, done: seq<Payload>, s: seq<byte>)
    requires Continues(f, whole, done, s)
    ensures match FirstFrame(f, s)
            case NeedMore => whole == Decoded(done, s, NoError)
            case Bad(e) => whole == Decoded(done, s, e)
            case Message(p, n) => Continues(f, whole, done + [p], s[n..])
  {
    match FirstFrame(f, s)
    case NeedMore =>
      assert done + [] == done;
    case Bad(_) =>
      assert done + [] == done;
    case Message(p, n) =>
      ConcatAssociative(done, [p], Decode(f, s[n..]).messages);
  }

  /** A message as the serializer sees it: whether all required fields are set,
      and the bytes it serializes to. */
  datatype ProtoMessage = ProtoMessage(initialized: bool, wire: Payload)

  /** Encoding into an empty buffer, with the given space behind and before it, meets
      the buffer's too strong assertion: when room is made for the tag, or for the
      payload or the checksum behind what is there by then. */
  predicate EncodingStops(writable: nat, prependable: nat, tag: nat, wire: nat) {
    || Stops(writable, prependable, 0, tag)
    || Stops(RoomFor(writable, prependable, tag) - tag, prependable, tag, wire)
    || (var w := RoomFor(writable, prependable, tag) - tag;
        Stops(RoomFor(w, prependable, wire) - wire, prependable, tag + wire, CHECKSUM_LEN))
  }

  /** The prepend area may be back at its least by the time of the checksum; then
      enough is readable. */
  lemma LaterStop(w: nat, before: nat, after: nat, tag: nat, wire: nat)
    requires !Stops(w, before, tag, wire)
    requires after == if Compacts(w, before, wire) then CHEAP_PREPEND else before
    ensures var room := RoomFor(w, before, wire) - wire;
            Stops(room, after, tag + wire, CHECKSUM_LEN) <==> Stops(room, before, tag + wire, CHECKSUM_LEN)
  {
  }

  /** A new buffer never meets it, nor any other whose prepend area is intact. */
  lemma IntactEncodes(writable: nat, tag: nat, wire: nat)
    ensures !EncodingStops(writable, CHEAP_PREPEND, tag, wire)
  {
  }

  /** An empty buffer far from its beginning can: here the last bytes written were taken
      back after all before them had been read. */
  method UnwrittenBufferStops() returns (buf: Buffer)
    ensures fresh(buf) && buf.Valid() && buf.Readable() == [] && !buf.failed
    ensures buf.PrependableBytes() >= HEADER_LEN
    ensures EncodingStops(buf.WritableBytes(), buf.PrependableBytes(), 4, 100)
  {
    buf := new Buffer();
    buf.Append(seq(1000, _ => 0));
    buf.Retrieve(992);
    buf.Unwrite(8);
  }

  class ProtobufCodecLite {
    const format: Format
    // What the two callbacks have been handed so far.
    var delivered: seq<Payload>
    var reported: seq<ErrorCode>

    constructor (format: Format)
      requires format.Valid()
      ensures this.format == format && delivered == [] && reported == []
    {
      this.format := format;
      delivered, reported := [], [];
    }

    /** Appends the serialized message and returns its size, or appends nothing and
        returns -1. The size is compared after narrowing to eight bits, so only
        sizes below 256 pass. */
    method SerializeToBuffer(message: ProtoMessage, buf: Buffer) returns (n: int)
      requires buf.Valid()
      modifies buf, buf.data
      ensures buf.Valid() && (buf.data == old(buf.data) || fresh(buf.data))
      ensures message.initialized ==>
                && buf.PrependableBytes() == (if old(buf.CompactsFor(|message.wire|)) then CHEAP_PREPEND
                                              else old(buf.PrependableBytes()))
                && buf.failed == (old(buf.failed) || old(buf.StopsFor(|message.wire|)))
      ensures !message.initialized ==>
                buf.failed == old(buf.failed) && buf.PrependableBytes() == old(buf.PrependableBytes())
      ensures message.initialized && |message.wire| < 256 ==>
                buf.WritableBytes() == old(buf.Room(|message.wire|)) - |message.wire|
      ensures if message.initialized && |message.wire| < 256
              then n == |message.wire| && buf.Readable() == old(buf.Readable()) + message.wire
              else n == -1 && buf.Readable() == old(buf.Readable())
    {
      if !message.initialized {
        return -1;
      }
      var byteSize := |message.wire|;
      buf.EnsureWritableBytes(byteSize);
      var written := |message.wire|;
      if written != byteSize % 256 {
        return -1;
      }
      buf.CopyToEnd(message.wire);
      n := byteSize;
    }

    /** Encodes one message. `completed` is false where an assertion of the source
        stops the program: the one on the total size, or the buffer's own. The
        condition is on the message and the buffer before the call. */
    method FillEmptyBuffer(buf: Buffer, message: ProtoMessage) returns (completed: bool)
      requires buf.Valid() && buf.Readable() == [] && buf.PrependableBytes() >= HEADER_LEN && !buf.failed
      modifies buf, buf.data
      ensures buf.Valid()
      ensures completed <==>
                && message.initialized && |message.wire| < 256
                && !EncodingStops(old(buf.WritableBytes()), old(buf.PrependableBytes()), |format.tag|, |message.wire|)
      ensures completed ==> buf.Readable() == Frame(format, message.wire) && !buf.failed
    {
      var n := AppendTagAndWire(buf, message);
      AppendChecksum(buf);
      if buf.ReadableBytes() != |format.tag| + n + CHECKSUM_LEN || buf.failed {
        return false;
      }
      var header := BigEndian32(Truncate32(buf.ReadableBytes()));
      buf.Prepend(header);
      completed := true;
    }

    method AppendTagAndWire(buf: Buffer, message: ProtoMessage) returns (n: int)
      requires buf.Valid() && buf.Readable() == [] && !buf.failed
      modifies buf, buf.data
      ensures buf.Valid() && (buf.data == old(buf.data) || fresh(buf.data))
      ensures if message.initialized && |message.wire| < 256
              then n == |message.wire| && buf.Readable() == format.tag + message.wire
              else n == -1 && buf.Readable() == format.tag
      ensures buf.PrependableBytes() == CHEAP_PREPEND || buf.PrependableBytes() == old(buf.PrependableBytes())
      ensures message.initialized && |message.wire| < 256 ==>
                (buf.failed || buf.StopsFor(CHECKSUM_LEN) <==>
                  EncodingStops(old(buf.WritableBytes()), old(buf.PrependableBytes()), |format.tag|, |message.wire|))
    {
      ghost var w0, p0, tag, wire := buf.WritableBytes(), buf.PrependableBytes(), |format.tag|, |message.wire|;
      buf.Append(format.tag);
      ghost var w1 := buf.WritableBytes();
      assert buf.Readable() == format.tag && w1 == RoomFor(w0, p0, tag) - tag;
      assert buf.failed == Stops(w0, p0, 0, tag);
      n := SerializeToBuffer(message, buf);
      if message.initialized && wire < 256 && !Stops(w0, p0, 0, tag) && !Stops(w1, p0, tag, wire) {
        LaterStop(w1, p0, buf.PrependableBytes(), tag, wire);
      }
    }

    method AppendChecksum(buf: Buffer)
      requires buf.Valid()
      modifies buf, buf.data
      ensures buf.Valid() && (buf.data == old(buf.data) || fresh(buf.data))
      ensures buf.Readable() == old(buf.Readable()) + BigEndian32(Adler32.Checksum(old(buf.Readable())))
      ensures buf.PrependableBytes() == if old(buf.CompactsFor(4)) then CHEAP_PREPEND else old(buf.PrependableBytes())
      ensures buf.failed == (old(buf.failed) || old(buf.StopsFor(4)))
    {
      var covered := buf.data[buf.readerIndex..buf.writerIndex];
      var sum := Adler32.Checksum(covered);
      buf.AppendInt32(sum);
    }

    /** Examines the head of the buffer, taking nothing out. */
    method Examine(buf: Buffer) returns (h: Head)
      requires buf.Valid() && format.Valid()
      ensures h == FirstFrame(format, buf.Readable())
    {
      if buf.ReadableBytes() < format.MinMessageLen() + HEADER_LEN {
        return NeedMore;
      }
      var len := buf.PeekInt32();
      if len > MAX_MESSAGE_LEN || len < format.MinMessageLen() {
        return Bad(InvalidLength);
      }
      if buf.ReadableBytes() < HEADER_LEN + len {
        return NeedMore;
      }
      var body := buf.Span(HEADER_LEN, len);
      match Parse(format, body) {
        case Accepted(p) => h := Message(p, HEADER_LEN + len);
        case Rejected(e) => h := Bad(e);
      }
    }

    /** Drains `buf`: the new leftover, the messages handed on and the error
        reported are those of `Decode` on the bytes that were readable. */
    method OnMessage(buf: Buffer)
      requires buf.Valid() && format.Valid()
      modifies this, buf`readerIndex, buf`writerIndex
      ensures buf.Valid()
      ensures var d := Decode(format, old(buf.Readable()));
              && buf.Readable() == d.rest
              && delivered == old(delivered) + d.messages
              && reported == old(reported) + (if d.error == NoError then [] else [d.error])
    {
      ghost var whole := Decode(format, buf.Readable());
      ghost var done: seq<Payload> := [];
      var h := Examine(buf);
      while h.Message?
        invariant buf.Valid()
        invariant h == FirstFrame(format, buf.Readable())
        invariant delivered == old(delivered) + done && reported == old(reported)
        invariant Continues(format, whole, done, buf.Readable())
        decreases buf.ReadableBytes()
      {
        Advance(format, whole, done, buf.Readable());
        ConcatAssociative(old(delivered), done, [h.payload]);
        delivered := delivered + [h.payload];
        done := done + [h.payload];
        buf.Retrieve(h.size);
        h := Examine(buf);
      }
      Advance(format, whole, done, buf.Readable());
      if h.Bad? {
        ErrorsAreReal(format, buf.Readable());
        reported := reported + [h.error];
      }
    }
  }
}
