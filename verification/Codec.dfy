/** The length-prefixed, checksummed framing of messages: what one frame is, how
    the decoder splits a byte stream into messages, and the theorems that tie
    the two together. */
module Codec {
  import opened Bytes
  import opened Adler32

  const HEADER_LEN := 4
  const CHECKSUM_LEN := 4
  const MAX_MESSAGE_LEN := 64 * 1024 * 1024

  datatype ErrorCode =
    NoError | InvalidLength | ChecksumError | InvalidNameLen | UnknownMessageType | ParseError

  /** A codec's parameters: its tag, and which payloads the message parser accepts. */
  datatype Format = Format(tag: seq<byte>, parses: seq<byte> -> bool) {
    /** The minimum length and the header fit the source's `int` arithmetic. */
    predicate Valid() {
      |tag| + CHECKSUM_LEN + HEADER_LEN <= I32_MAX
    }

    function MinMessageLen(): (r: nat) {
      |tag| + CHECKSUM_LEN
    }
  }

  type Payload = seq<byte>

  function Body(f: Format, p: Payload): (s: seq<byte>)
    ensures |s| == |f.tag| + |p| + CHECKSUM_LEN
  {
    f.tag + p + BigEndian32(Checksum(f.tag + p))
  }

  function Frame(f: Format, p: Payload): (s: seq<byte>) {
    BigEndian32(Truncate32(|Body(f, p)|)) + Body(f, p)
  }

  function Frames(f: Format, ps: seq<Payload>): (s: seq<byte>) {
    if ps == [] then [] else Frame(f, ps[0]) + Frames(f, ps[1..])
  }

  datatype Parsed = Accepted(payload: Payload) | Rejected(error: ErrorCode)

  function Parse(f: Format, body: seq<byte>): (r: Parsed)
    requires |body| >= f.MinMessageLen()
  {
    var covered, sum := body[..|body| - CHECKSUM_LEN], body[|body| - CHECKSUM_LEN..];
    if FromBigEndian32(sum) != Checksum(covered) then Rejected(ChecksumError)
    else if body[..|f.tag|] != f.tag then Rejected(UnknownMessageType)
    else if !f.parses(covered[|f.tag|..]) then Rejected(ParseError)
    else Accepted(covered[|f.tag|..])
  }

  /** What the head of the stream is: not a whole frame yet, an error, or a frame
      of `size` bytes. */
  datatype Head = NeedMore | Bad(error: ErrorCode) | Message(payload: Payload, size: nat)

  function FirstFrame(f: Format, s: seq<byte>): (h: Head)
    ensures h.Message? ==> HEADER_LEN <= h.size <= |s|
  {
    if |s| < f.MinMessageLen() + HEADER_LEN then NeedMore
    else
      var len := AsInt32(FromBigEndian32(s));
      if len > MAX_MESSAGE_LEN || len < f.MinMessageLen() then Bad(InvalidLength)
      else if |s| < HEADER_LEN + len then NeedMore
      else
        match Parse(f, s[HEADER_LEN..HEADER_LEN + len])
        case Accepted(p) => Message(p, HEADER_LEN + len)
        case Rejected(e) => Bad(e)
  }

  /** What one call of the decoder makes of the bytes received so far. */
  datatype Decoded = Decoded(messages: seq<Payload>, rest: seq<byte>, error: ErrorCode)

  function Decode(f: Format, s: seq<byte>): (d: Decoded)
    decreases |s|
  {
    match FirstFrame(f, s)
    case NeedMore => Decoded([], s, NoError)
    case Bad(e) => Decoded([], s, e)
    case Message(p, n) =>
      var d := Decode(f, s[n..]);
      Decoded([p] + d.messages, d.rest, d.error)
  }

  // ----- On the wire

  /** A frame, byte by byte: the length of what follows, the tag, the payload, and the
      checksum of tag and payload with its weighted half first. */
  lemma FrameLayout(f: Format, p: Payload)
    requires |f.tag| + |p| + 4 < 0x1_0000_0000
    ensures var s, c, n := Frame(f, p), f.tag + p, |f.tag| + |p| + 4;
            var low, high := (1 + Sum(c)) % 65521, (|c| + Weighted(c)) % 65521;
            && |s| == 4 + n
            && s[0] == n / 16777216 && s[1] == n / 65536 % 256 && s[2] == n / 256 % 256 && s[3] == n % 256
            && s[4..4 + |f.tag|] == f.tag && s[4 + |f.tag|..n] == p
            && s[n] == high / 256 && s[n + 1] == high % 256 && s[n + 2] == low / 256 && s[n + 3] == low % 256
  {
    var s, c, n := Frame(f, p), f.tag + p, |f.tag| + |p| + 4;
    var sum := Checksum(c);
    BigEndianBytes(n);
    BigEndianBytes(sum);
    ChecksumClosedForm(c);
    SumBytes(sum);
    var header, trailer := BigEndian32(n), BigEndian32(sum);
    assert s == header + (f.tag + p + trailer);
    assert s[..4] == header && s[n..] == trailer;
    assert s[4..4 + |f.tag|] == f.tag && s[4 + |f.tag|..n] == p;
  }

  lemma SumBytes(sum: nat)
    requires sum < U32_SIZE
    ensures var low, high := sum % 0x1_0000, sum / 0x1_0000;
            && sum / 16777216 == high / 256 && sum / 65536 % 256 == high % 256
            && sum / 256 % 256 == low / 256 && sum % 256 == low % 256
  {
    var low, high := sum % 0x1_0000, sum / 0x1_0000;
    FourBytes(high / 256, high % 256, low / 256, low % 256);
  }

  lemma FourBytes(a: nat, b: nat, c: nat, d: nat)
    requires a < 256 && b < 256 && c < 256 && d < 256
    ensures var sum := ((a * 256 + b) * 256 + c) * 256 + d;
            sum / 16777216 == a && sum / 65536 % 256 == b && sum / 256 % 256 == c && sum % 256 == d
  {
    var sum := ((a * 256 + b) * 256 + c) * 256 + d;
    assert sum / 256 == (a * 256 + b) * 256 + c;
    assert sum / 65536 == a * 256 + b;
    assert sum / 16777216 == a;
  }

  /** What the length field decides before anything else is looked at: fewer bytes than
      the least frame wait; a length over 64 MiB or under that of tag and checksum, also
      one whose first bit is set, is an error; and a part of a frame waits. */
  lemma LengthDecides(f: Format, s: seq<byte>)
    ensures |s| < |f.tag| + 8 ==> FirstFrame(f, s) == NeedMore
    ensures |s| >= |f.tag| + 8 ==>
              var n := s[0] as int * 16777216 + s[1] as int * 65536 + s[2] as int * 256 + s[3];
              && (FirstFrame(f, s) == Bad(InvalidLength) <==> n > 67108864 || n < |f.tag| + 4)
              && (FirstFrame(f, s) == NeedMore <==> |f.tag| + 4 <= n <= 67108864 && |s| < 4 + n)
  {
    if |s| >= |f.tag| + 8 {
      BigEndianValue(s);
      var len := AsInt32(FromBigEndian32(s));
      if f.MinMessageLen() <= len <= MAX_MESSAGE_LEN && |s| >= HEADER_LEN + len {
        assert Parse(f, s[HEADER_LEN..HEADER_LEN + len]) != Rejected(InvalidLength);
      }
    }
  }

  // ----- Chunk independence

  /** Once the head of the stream is decided, more bytes do not change it. */
  lemma FirstFrameStable(f: Format, s: seq<byte>, t: seq<byte>)
    requires FirstFrame(f, s) != NeedMore
    ensures FirstFrame(f, s + t) == FirstFrame(f, s)
  {
    assert (s + t)[..4] == s[..4];
    var len := AsInt32(FromBigEndian32(s));
    if f.MinMessageLen() <= len <= MAX_MESSAGE_LEN {
      assert (s + t)[HEADER_LEN..HEADER_LEN + len] == s[HEADER_LEN..HEADER_LEN + len];
    }
  }

  lemma ErrorsAreReal(f: Format, s: seq<byte>)
    ensures FirstFrame(f, s) != Bad(NoError)
  {
  }

  /** Decoding what has arrived, and later what was left over together with more,
      is decoding everything at once; after an error nothing more is delivered
      and the verdict stays. */
  lemma {:induction false} DecodeAppend(f: Format, s: seq<byte>, t: seq<byte>)
    ensures var d := Decode(f, s); var e := Decode(f, d.rest + t);
            && Decode(f, s + t) == Decoded(d.messages + e.messages, e.rest, e.error)
            && (d.error != NoError ==> e == Decoded([], d.rest + t, d.error))
    decreases |s|
  {
    match FirstFrame(f, s)
    case NeedMore =>
    case Bad(_) =>
      FirstFrameStable(f, s, t);
    case Message(p, n) =>
      FirstFrameStable(f, s, t);
      assert (s + t)[n..] == s[n..] + t;
      DecodeAppend(f, s[n..], t);
      var d := Decode(f, s[n..]);
      var e := Decode(f, d.rest + t);
      ConcatAssociative([p], d.messages, e.messages);
  }

  /** Calling the decoder after each arrival, leftovers kept in between. */
  function DecodeChunks(f: Format, pending: seq<byte>, chunks: seq<seq<byte>>): (d: Decoded)
    decreases |chunks|
  {
    var d := Decode(f, pending);
    if chunks == [] then d
    else
      var e := DecodeChunks(f, d.rest + chunks[0], chunks[1..]);
      Decoded(d.messages + e.messages, e.rest, e.error)
  }

  /** However the stream is cut into arrivals, messages, leftover and verdict are
      those of one call on the whole stream. */
  lemma {:induction false} ChunkIndependence(f: Format, pending: seq<byte>, chunks: seq<seq<byte>>)
    ensures DecodeChunks(f, pending, chunks) == Decode(f, pending + Flatten(chunks))
    decreases |chunks|
  {
    if chunks == [] {
      assert pending + Flatten(chunks) == pending;
    } else {
      var d := Decode(f, pending);
      ChunkIndependence(f, d.rest + chunks[0], chunks[1..]);
      assert d.rest + chunks[0] + Flatten(chunks[1..]) == d.rest + Flatten(chunks);
      DecodeAppend(f, pending, Flatten(chunks));
    }
  }

  // ----- Round trip

  /** The decoder's own limit on a payload's frame. */
  predicate Fits(f: Format, p: Payload) {
    |f.tag| + |p| + CHECKSUM_LEN <= MAX_MESSAGE_LEN
  }

  predicate Decodable(f: Format, p: Payload) {
    Fits(f, p) && f.parses(p)
  }

  /** The parser accepts exactly the bodies the encoder builds. */
  lemma ParseInvertsBody(f: Format, body: seq<byte>, p: Payload)
    requires |body| >= f.MinMessageLen()
    ensures Parse(f, body) == Accepted(p) <==> body == Body(f, p) && f.parses(p)
  {
    var covered, sum := body[..|body| - CHECKSUM_LEN], body[|body| - CHECKSUM_LEN..];
    assert body == covered + sum;
    BigEndian32Inverse(Checksum(f.tag + p), sum);
    if Parse(f, body) == Accepted(p) {
      assert covered[..|f.tag|] == body[..|f.tag|];
      assert covered == f.tag + p;
    }
    if body == Body(f, p) {
      assert covered == f.tag + p && sum == BigEndian32(Checksum(f.tag + p));
      assert covered[|f.tag|..] == p;
    }
  }

  /** One frame at the head of the stream is consumed whole and yields its payload
      when the decoder's limit and the parser allow it. */
  lemma FirstOfFrame(f: Format, p: Payload, t: seq<byte>)
    requires Decodable(f, p)
    ensures FirstFrame(f, Frame(f, p) + t) == Message(p, |Frame(f, p)|)
  {
    var s, n := Frame(f, p) + t, |Body(f, p)|;
    assert s[..4] == BigEndian32(n);
    BigEndian32Inverse(n, s[..4]);
    FirstFour(s[..4], s);
    assert s[HEADER_LEN..HEADER_LEN + n] == Body(f, p);
    ParseInvertsBody(f, Body(f, p), p);
  }

  /** Conversely, a frame found at the head of a stream is the frame of its payload. */
  lemma FirstIsFrame(f: Format, s: seq<byte>)
    requires FirstFrame(f, s).Message?
    ensures var h := FirstFrame(f, s);
            Decodable(f, h.payload) && s[..h.size] == Frame(f, h.payload)
  {
    var h := FirstFrame(f, s);
    var len := AsInt32(FromBigEndian32(s));
    var body := s[HEADER_LEN..HEADER_LEN + len];
    ParseInvertsBody(f, body, h.payload);
    BigEndian32Inverse(len, s[..4]);
    FirstFour(s[..4], s);
    assert s[..h.size] == s[..4] + body;
  }

  lemma DecodeFirst(f: Format, a: seq<byte>, p: Payload, s: seq<byte>)
    requires FirstFrame(f, a + s) == Message(p, |a|)
    ensures var d := Decode(f, s);
            Decode(f, a + s) == Decoded([p] + d.messages, d.rest, d.error)
  {
    assert (a + s)[|a|..] == s;
  }

  lemma {:induction false} DecodeFrames(f: Format, ps: seq<Payload>, t: seq<byte>)
    requires forall p :: p in ps ==> Decodable(f, p)
    ensures var d := Decode(f, t);
            Decode(f, Frames(f, ps) + t) == Decoded(ps + d.messages, d.rest, d.error)
  {
    var d := Decode(f, t);
    if ps == [] {
      assert Frames(f, ps) + t == t;
      assert ps + d.messages == d.messages;
    } else {
      var a, tail := Frame(f, ps[0]), Frames(f, ps[1..]);
      DecodeFrames(f, ps[1..], t);
      FirstOfFrame(f, ps[0], tail + t);
      DecodeFirst(f, a, ps[0], tail + t);
      ConcatAssociative(a, tail, t);
      HeadAndTail(ps, d.messages);
    }
  }

  /** Whatever the stream, what the decoder consumed is exactly the frames of what
      it delivered: no byte is skipped, added or taken twice. */
  lemma {:induction false} DecodeIsSound(f: Format, s: seq<byte>)
    ensures var d := Decode(f, s);
            && s == Frames(f, d.messages) + d.rest
            && (forall p :: p in d.messages ==> Decodable(f, p))
    decreases |s|
  {
    var h := FirstFrame(f, s);
    if h.Message? {
      FirstIsFrame(f, s);
      var d := Decode(f, s[h.size..]);
      DecodeIsSound(f, s[h.size..]);
      FramesPrepend(f, h.payload, d.messages);
      Rejoin(s, h.size, Frames(f, d.messages), d.rest);
    }
  }

  lemma FramesPrepend(f: Format, p: Payload, ps: seq<Payload>)
    ensures Frames(f, [p] + ps) == Frame(f, p) + Frames(f, ps)
  {
    assert ([p] + ps)[1..] == ps;
  }

  lemma Rejoin(s: seq<byte>, n: nat, a: seq<byte>, b: seq<byte>)
    requires n <= |s| && s[n..] == a + b
    ensures s == s[..n] + a + b
  {
    assert s == s[..n] + s[n..];
  }

  /** A sequence of frames decodes back to its payloads with nothing left over
      exactly when each payload is one the decoder's limit and the parser allow. */
  lemma RoundTrip(f: Format, ps: seq<Payload>)
    ensures Decode(f, Frames(f, ps)) == Decoded(ps, [], NoError) <==>
            forall p :: p in ps ==> Decodable(f, p)
  {
    if forall p :: p in ps ==> Decodable(f, p) {
      DecodeFrames(f, ps, []);
      assert Frames(f, ps) + [] == Frames(f, ps);
      assert ps + [] == ps;
    }
    DecodeIsSound(f, Frames(f, ps));
  }

  /** Frames are self-delimiting: two payload sequences with the same bytes are the same. */
  lemma FramesInjective(f: Format, ps: seq<Payload>, qs: seq<Payload>)
    requires forall p :: p in ps + qs ==> Decodable(f, p)
    requires Frames(f, ps) == Frames(f, qs)
    ensures ps == qs
  {
    forall p | p in ps ensures Decodable(f, p) { assert p in ps + qs; }
    forall p | p in qs ensures Decodable(f, p) { assert p in ps + qs; }
    RoundTrip(f, ps);
    RoundTrip(f, qs);
  }

  /** Of any beginning of a frame sequence the decoder delivers a beginning of the
      payloads, keeps a beginning of the remaining frames and reports no error. */
  lemma DecodePrefix(f: Format, ps: seq<Payload>, s: seq<byte>)
    requires forall p :: p in ps ==> Decodable(f, p)
    requires s <= Frames(f, ps)
    ensures var d := Decode(f, s);
            d.error == NoError && d.messages <= ps && d.rest <= Frames(f, ps[|d.messages|..])
  {
    var d, t := Decode(f, s), Frames(f, ps)[|s|..];
    assert s + t == Frames(f, ps);
    RoundTrip(f, ps);
    DecodeAppend(f, s, t);
    assert ps == d.messages + ps[|d.messages|..];
    RestOfPrefix(f, d.messages, ps[|d.messages|..], s, t);
  }

  lemma RestOfPrefix(f: Format, ps: seq<Payload>, qs: seq<Payload>, s: seq<byte>, t: seq<byte>)
    requires s + t == Frames(f, ps + qs) && Decode(f, s).messages == ps
    ensures Decode(f, s).rest + t == Frames(f, qs)
  {
    DecodeIsSound(f, s);
    FramesAppend(f, ps, qs);
    Regroup(Frames(f, ps), Decode(f, s).rest, t, Frames(f, qs), s);
  }

  lemma Regroup(a: seq<byte>, b: seq<byte>, t: seq<byte>, c: seq<byte>, s: seq<byte>)
    requires s == a + b && s + t == a + c
    ensures b + t == c
  {
    assert a + (b + t) == s + t;
    assert (a + (b + t))[|a|..] == b + t && (a + c)[|a|..] == c;
  }

  /** The frames one by one. */
  function EachFrame(f: Format, ps: seq<Payload>): (ms: seq<seq<byte>>) {
    seq(|ps|, i requires 0 <= i < |ps| => Frame(f, ps[i]))
  }

  lemma {:induction false} FlattenEachFrame(f: Format, ps: seq<Payload>)
    ensures Flatten(EachFrame(f, ps)) == Frames(f, ps)
  {
    if ps != [] {
      FlattenEachFrame(f, ps[1..]);
      assert EachFrame(f, ps)[1..] == EachFrame(f, ps[1..]);
    }
  }

  lemma EachFrameAppend(f: Format, ps: seq<Payload>, qs: seq<Payload>)
    ensures EachFrame(f, ps + qs) == EachFrame(f, ps) + EachFrame(f, qs)
  {
  }

  lemma FramesAppend(f: Format, ps: seq<Payload>, qs: seq<Payload>)
    ensures Frames(f, ps + qs) == Frames(f, ps) + Frames(f, qs)
  {
    FlattenEachFrame(f, ps);
    FlattenEachFrame(f, qs);
    FlattenEachFrame(f, ps + qs);
    EachFrameAppend(f, ps, qs);
    FlattenAppend(EachFrame(f, ps), EachFrame(f, qs));
  }

  // ----- Corruption

  /** A frame whose checksummed bytes changed in at most two places is rejected
      exactly when the change is one the checksum cannot miss. */
  lemma CorruptBody(f: Format, p: Payload, i: nat, j: nat, x: byte, y: byte)
    requires i < j < |f.tag + p|
    ensures var c := f.tag + p;
            Parse(f, c[i := x][j := y] + BigEndian32(Checksum(c))) == Rejected(ChecksumError) <==>
            !((x - c[i]) + (y - c[j]) == 0 && (x == c[i] || (j - i) % MODULUS == 0))
  {
    var c := f.tag + p;
    ParseChecksum(f, c[i := x][j := y], Checksum(c));
    TwoByteChangeMissed(c, i, j, x, y);
  }

  /** Exchanging two different neighbours is always rejected, and so is any change
      of a single byte. */
  lemma CorruptNeighbours(f: Format, p: Payload, i: nat, x: byte)
    requires i < |f.tag + p|
    ensures var c := f.tag + p;
            && (x != c[i] ==> Parse(f, c[i := x] + BigEndian32(Checksum(c))) == Rejected(ChecksumError))
            && (i + 1 < |c| && c[i] != c[i + 1] ==>
                  Parse(f, c[i := c[i + 1]][i + 1 := c[i]] + BigEndian32(Checksum(c))) == Rejected(ChecksumError))
  {
    var c := f.tag + p;
    ParseChecksum(f, c[i := x], Checksum(c));
    if x != c[i] {
      OneByteChangeNoticed(c, i, x);
    }
    if i + 1 < |c| {
      CorruptBody(f, p, i, i + 1, c[i + 1], c[i]);
    }
  }

  lemma ParseChecksum(f: Format, covered: seq<byte>, sum: nat)
    requires sum < U32_SIZE && |covered| >= |f.tag|
    ensures Parse(f, covered + BigEndian32(sum)) == Rejected(ChecksumError) <==> sum != Checksum(covered)
  {
    var body := covered + BigEndian32(sum);
    assert body[..|body| - CHECKSUM_LEN] == covered;
    assert body[|body| - CHECKSUM_LEN..] == BigEndian32(sum);
    BigEndian32Inverse(sum, BigEndian32(sum));
  }

  /** What a decoder makes of a frame that a codec with any other tag encoded: the
      length is judged first, then the tag, then the message parser. */
  lemma ForeignFrame(f: Format, g: Format, p: Payload, t: seq<byte>)
    requires Fits(g, p)
    ensures var s, c := Frame(g, p) + t, g.tag + p;
            FirstFrame(f, s) ==
              if |s| < f.MinMessageLen() + HEADER_LEN then NeedMore
              else if |c| < |f.tag| then Bad(InvalidLength)
              else if c[..|f.tag|] != f.tag then Bad(UnknownMessageType)
              else if !f.parses(c[|f.tag|..]) then Bad(ParseError)
              else Message(c[|f.tag|..], HEADER_LEN + |c| + CHECKSUM_LEN)
  {
    var body, c := Body(g, p), g.tag + p;
    var n, s := |body|, Frame(g, p) + t;
    assert s[..4] == BigEndian32(n);
    BigEndian32Inverse(n, s[..4]);
    FirstFour(s[..4], s);
    assert s[HEADER_LEN..HEADER_LEN + n] == body;
    assert body[..|c|] == c;
    if |c| >= |f.tag| {
      assert body[|c|..] == BigEndian32(Checksum(c));
      BigEndian32Inverse(Checksum(c), body[|c|..]);
      assert body[..|f.tag|] == c[..|f.tag|];
    }
  }

  /** A corrupted frame stops the stream where it stands: everything before it is
      delivered, nothing of it or after it is, and the error is the checksum error. */
  lemma CorruptFrameStopsStream(f: Format, ps: seq<Payload>, covered: seq<byte>, sum: nat, t: seq<byte>)
    requires forall p :: p in ps ==> Decodable(f, p)
    requires |f.tag| <= |covered| <= MAX_MESSAGE_LEN - CHECKSUM_LEN
    requires sum < U32_SIZE && sum != Checksum(covered)
    ensures var bad := BigEndian32(|covered| + CHECKSUM_LEN) + (covered + BigEndian32(sum)) + t;
            Decode(f, Frames(f, ps) + bad) == Decoded(ps, bad, ChecksumError)
  {
    var body := covered + BigEndian32(sum);
    var bad := BigEndian32(|covered| + CHECKSUM_LEN) + body + t;
    ParseChecksum(f, covered, sum);
    FirstIsBad(f, body, t, ChecksumError);
    DecodeFrames(f, ps, bad);
    assert ps + [] == ps;
  }

  /** A body of a permitted length that the parser rejects ends the stream. */
  lemma FirstIsBad(f: Format, body: seq<byte>, t: seq<byte>, e: ErrorCode)
    requires f.MinMessageLen() <= |body| <= MAX_MESSAGE_LEN && Parse(f, body) == Rejected(e)
    ensures FirstFrame(f, BigEndian32(|body|) + body + t) == Bad(e)
  {
    var n, s := |body|, BigEndian32(|body|) + body + t;
    assert s[..4] == BigEndian32(n);
    BigEndian32Inverse(n, s[..4]);
    FirstFour(s[..4], s);
    assert s[HEADER_LEN..HEADER_LEN + n] == body;
  }
}
