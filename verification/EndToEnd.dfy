/** The codec over a connection, from one end to the other: whatever the kernel
    does to the writes and however the bytes arrive, the receiver's codec delivers
    the sender's messages in order, and never an error. */
module EndToEnd {
  import opened Bytes
  import opened Runs
  import opened Codec
  import opened Connections
  import opened ConnectionTraces

  /** Each payload is framed and sent as one message; what has arrived is any beginning of
      what the kernel took, in any pieces. */
  lemma MessagesArriveInOrder(f: Format, ps: seq<Payload>, steps: seq<Step>, arrivals: seq<seq<byte>>)
    requires forall p :: p in ps ==> Decodable(f, p)
    requires RunFrom(JustAccepted, steps).Some?
    requires var c := RunFrom(JustAccepted, steps).value;
             !c.aborted && AcceptedIn(steps) == EachFrame(f, ps) && Flatten(arrivals) <= c.sent
    ensures var d := DecodeChunks(f, [], arrivals);
            d.error == NoError && d.messages <= ps
    ensures var c := RunFrom(JustAccepted, steps).value;
            c.output == [] && Flatten(arrivals) == c.sent ==>
              DecodeChunks(f, [], arrivals) == Decoded(ps, [], NoError)
  {
    var c, s := RunFrom(JustAccepted, steps).value, Flatten(arrivals);
    OutputIsExact(steps);
    FlattenEachFrame(f, ps);
    assert c.sent <= Frames(f, ps);
    PrefixTransitive(s, c.sent, Frames(f, ps));
    ChunkIndependence(f, [], arrivals);
    assert [] + s == s;
    DecodePrefix(f, ps, s);
    RoundTrip(f, ps);
    if c.output == [] {
      assert c.sent + c.output == c.sent;
    }
  }

  lemma PrefixTransitive(a: seq<byte>, b: seq<byte>, c: seq<byte>)
    requires a <= b && b <= c
    ensures a <= c
  {
    assert c[..|b|] == b && b[..|a|] == a;
    assert c[..|b|][..|a|] == c[..|a|];
  }
}
