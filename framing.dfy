/** The length-prefixed framing of src/pb/worker/utils.rs: `to_bytes` writes the
    serialised message behind its length as a 4-byte little-endian integer, and
    `from_bytes` parses a payload, turning a parser complaint into an
    `InvalidData` error. The lemmas connect the encoder with the deframer of
    src/pb/worker/chunker.rs. */
module ProtoFraming {
  import opened Bytes
  import opened Io
  import opened Chunking

  /** The frame around an already serialised payload. The length goes through an
      `as u32` cast, which keeps the low 32 bits. */
  function Frame(payload: seq<Byte>): (r: seq<Byte>)
    ensures |r| == 4 + |payload|
    ensures r[4..] == payload
    ensures FromLE(r[..4]) == |payload| % U32_LIMIT
    ensures |payload| < U32_LIMIT ==> FromLE(r[..4]) == |payload|
  {
    var header := LE(|payload| % U32_LIMIT, 4);
    Pow256Values();
    FromLEOfLE(|payload| % U32_LIMIT, 4);
    assert (header + payload)[..4] == header;
    header + payload
  }

  /** `to_bytes`: the message serialised, behind its length. */
  function ToBytes<P>(msg: P, codec: Codec<P>): (r: seq<Byte>)
    ensures |r| == 4 + |codec.encode(msg)|
    ensures r[4..] == codec.encode(msg)
    ensures FromLE(r[..4]) == |codec.encode(msg)| % U32_LIMIT
  {
    Frame(codec.encode(msg))
  }

  /** `from_bytes`: a parsed message, or an `InvalidData` error carrying the parser's reason. */
  function FromBytes<P>(bytes: seq<Byte>, codec: Codec<P>): (r: Result<P>)
    ensures r.Ok? <==> codec.parse(bytes).Parsed?
    ensures r.Ok? ==> codec.parse(bytes) == Parsed(r.value)
    ensures r.Err? ==> r.error == IoError(InvalidData, codec.parse(bytes).reason)
  {
    match codec.parse(bytes)
    case Parsed(m) => Ok(m)
    case Malformed(reason) => Err(IoError(InvalidData, reason))
  }

  /** Several frames back to back, as a peer writes them onto one stream. */
  function Frames(ps: seq<seq<Byte>>): seq<Byte>
  {
    if ps == [] then [] else Frame(ps[0]) + Frames(ps[1..])
  }

  /** Payloads the deframer can carry: at least one byte (an empty one is never emitted)
      and a length that fits the 32-bit header. */
  predicate Carriable(p: seq<Byte>)
  {
    0 < |p| < U32_LIMIT
  }

  /** One frame fed to a chunker between frames comes out as exactly its payload. */
  lemma FrameRoundTrip(s: ChunkerState, p: seq<Byte>)
    requires AtBoundary(s) && Carriable(p)
    ensures FeedAll(s, Frame(p)) == Fed(s.(msgLen := |p|), [p])
  {
    var f := Frame(p);
    var header := f[..4];
    assert f == header + p;
    FeedSplit(s, header, p);
    assert header[..0] == [] && header[0..] == header;
    ReadHeader(s, header, 0);
    var mid := s.(isReadingLength := false, lenBuffer := [], msgLen := FromLE(header));
    assert FromLE(header) == |p|;
    assert p[..0] == [] && p[0..] == p;
    ReadPayload(mid, p, 0);
  }

  /** Round trip: a stream of frames fed from a frame boundary yields exactly the payloads,
      in order, and ends at a frame boundary again. */
  lemma {:induction false} FramesRoundTrip(s: ChunkerState, ps: seq<seq<Byte>>)
    requires AtBoundary(s)
    requires forall p | p in ps :: Carriable(p)
    ensures FeedAll(s, Frames(ps)).messages == ps
    ensures AtBoundary(FeedAll(s, Frames(ps)).state)
    decreases |ps|
  {
    if ps != [] {
      FeedSplit(s, Frame(ps[0]), Frames(ps[1..]));
      FrameRoundTrip(s, ps[0]);
      assert ps[1..] == ps[1..];
      FramesRoundTrip(s.(msgLen := |ps[0]|), ps[1..]);
      assert ps == [ps[0]] + ps[1..];
    }
  }

  /** Fed in any two chunks, a stream of frames still yields exactly its payloads. */
  lemma ChunkedRoundTrip(ps: seq<seq<Byte>>, cut: nat)
    requires forall p | p in ps :: Carriable(p)
    requires cut <= |Frames(ps)|
    ensures var first := FeedAll(Initial(), Frames(ps)[..cut]);
            first.messages + FeedAll(first.state, Frames(ps)[cut..]).messages == ps
  {
    var bs := Frames(ps);
    assert bs == bs[..cut] + bs[cut..];
    FeedSplit(Initial(), bs[..cut], bs[cut..]);
    FramesRoundTrip(Initial(), ps);
  }

  /** The whole path of a message: serialise and frame with `to_bytes`, deframe with the
      chunker, parse with `from_bytes`; every message comes back, in order. */
  lemma PipelineRoundTrip<P(!new)>(msgs: seq<P>, codec: Codec<P>)
    requires Lawful(codec)
    requires forall m | m in msgs :: Carriable(codec.encode(m))
    ensures var out := FeedAll(Initial(), Frames(seq(|msgs|, i requires 0 <= i < |msgs| => codec.encode(msgs[i])))).messages;
            |out| == |msgs| && forall i | 0 <= i < |msgs| :: FromBytes(out[i], codec) == Ok(msgs[i])
  {
    var ps := seq(|msgs|, i requires 0 <= i < |msgs| => codec.encode(msgs[i]));
    forall p | p in ps ensures Carriable(p) {
      var i :| 0 <= i < |ps| && ps[i] == p;
      assert msgs[i] in msgs;
    }
    FramesRoundTrip(Initial(), ps);
  }

  /** A message that serialises to nothing jams the stream: its zero header never
      completes, and everything after it piles up in the payload buffer. */
  lemma EmptyFrameStalls(s: ChunkerState, rest: seq<Byte>)
    requires AtBoundary(s)
    ensures FeedAll(s, Frame([]) + rest)
         == Fed(s.(isReadingLength := false, msgLen := 0, msgBuffer := rest), [])
  {
    var header := Frame([]);
    assert header[..4] == header;
    FeedSplit(s, header, rest);
    assert header[..0] == [] && header[0..] == header;
    ReadHeader(s, header, 0);
    var mid := s.(isReadingLength := false, lenBuffer := [], msgLen := 0);
    ZeroLengthStalls(mid, rest);
    assert [] + rest == rest;
  }
}
