/** The receiving half of the command-line client in src/bin/client.rs: `read_exact` fills
    a buffer from the socket, and `reader` reads one framed post after another (a 4-byte
    little-endian length, then exactly that many bytes) until something fails. The socket
    is a script of the answers its reads give. */
module Client {
  import opened Bytes
  import opened Io
  import opened ProtoFraming
  import opened ProtoMessage
  import opened PostMessage
  import ChatPost

  /** One `read` on the socket: the bytes it has ready (none at the end of the stream),
      or an error. A read into a smaller buffer takes what fits and leaves the rest. */
  datatype ReadStep = ReadOk(bytes: seq<Byte>) | ReadErr(error: IoError)

  /** The error `read_exact` returns when the stream ends before the buffer is full. */
  const FILL_FAILED: IoError := IoError(InvalidData, "failed to fill whole buffer")

  /** Every byte the script's reads can deliver, in order. */
  function Stream(script: seq<ReadStep>): seq<Byte>
    decreases |script|
  {
    if script == [] then []
    else (if script[0].ReadOk? then script[0].bytes else []) + Stream(script[1..])
  }

  /** A script in which every read delivers at least one byte and none fails. */
  predicate Clean(script: seq<ReadStep>)
  {
    forall i | 0 <= i < |script| :: script[i].ReadOk? && script[i].bytes != []
  }

  /** What filling a buffer leaves: the bytes written into it, the status, and the reads
      still to come. */
  datatype Filled = Filled(data: seq<Byte>, status: Status, rest: seq<ReadStep>)

  /** `read_exact` into a buffer of `want` bytes. An `Interrupted` read is retried, another
      error is returned at once, an empty read ends the loop; the buffer counts as read
      only when it is full. */
  function Fill(want: nat, script: seq<ReadStep>): (r: Filled)
    ensures |r.data| <= want
    ensures r.status.Done? <==> |r.data| == want
    ensures r.status.Failed? ==> r.status.error == FILL_FAILED || r.status.error.kind != Interrupted
    ensures |r.rest| <= |script|
    decreases |script|
  {
    if want == 0 then Filled([], Done, script)
    else if script == [] then Filled([], Failed(FILL_FAILED), [])
    else
      match script[0]
      case ReadOk(b) =>
        if b == [] then Filled([], Failed(FILL_FAILED), script[1..])
        else if |b| >= want then
          Filled(b[..want], Done, if |b| == want then script[1..] else [ReadOk(b[want..])] + script[1..])
        else
          var sub := Fill(want - |b|, script[1..]);
          Filled(b + sub.data, sub.status, sub.rest)
      case ReadErr(e) =>
        if e.kind == Interrupted then Fill(want, script[1..])
        else Filled([], Failed(e), script[1..])
  }

  /** Nothing is lost or invented: the bytes in the buffer followed by what the remaining
      reads deliver are exactly what the script delivers. */
  lemma {:induction false} FillConsumes(want: nat, script: seq<ReadStep>)
    ensures Fill(want, script).data + Stream(Fill(want, script).rest) == Stream(script)
    decreases |script|
  {
    if want > 0 && script != [] {
      var rest := script[1..];
      match script[0]
      case ReadOk(b) =>
        if b != [] && |b| > want {
          var left := [ReadOk(b[want..])] + rest;
          assert left[1..] == rest;
          assert b[..want] + b[want..] == b;
        } else if b != [] && |b| < want {
          FillConsumes(want - |b|, rest);
          var sub := Fill(want - |b|, rest);
          assert b + sub.data + Stream(sub.rest) == b + (sub.data + Stream(sub.rest));
        }
      case ReadErr(e) =>
        FillConsumes(want, rest);
    }
  }

  /** An interrupted read changes nothing: the loop simply reads again. */
  lemma InterruptedIsRetried(want: nat, e: IoError, script: seq<ReadStep>)
    requires want > 0 && e.kind == Interrupted
    ensures Fill(want, [ReadErr(e)] + script) == Fill(want, script)
  {
    assert ([ReadErr(e)] + script)[1..] == script;
  }

  /** On a script of successful reads, the buffer fills exactly when the stream holds
      enough bytes; otherwise the stream's end is reported as `FILL_FAILED`. */
  lemma {:induction false} FillClean(want: nat, script: seq<ReadStep>)
    requires Clean(script)
    ensures Clean(Fill(want, script).rest)
    ensures want <= |Stream(script)| ==> Fill(want, script).status == Done
    ensures want > |Stream(script)| ==> Fill(want, script).status == Failed(FILL_FAILED)
    decreases |script|
  {
    if want > 0 && script != [] {
      var b := script[0].bytes;
      assert Stream(script) == b + Stream(script[1..]);
      if |b| > want {
        var rest := [ReadOk(b[want..])] + script[1..];
        assert forall i | 1 <= i < |rest| :: rest[i] == script[i];
      } else if |b| < want {
        FillClean(want - |b|, script[1..]);
      }
    }
  }

  /** A filled buffer holds the stream's next `want` bytes, and the reads left deliver
      the rest. */
  lemma FillTakesPrefix(want: nat, script: seq<ReadStep>)
    requires Fill(want, script).status == Done
    ensures want <= |Stream(script)|
    ensures Fill(want, script).data == Stream(script)[..want]
    ensures Stream(Fill(want, script).rest) == Stream(script)[want..]
  {
    FillConsumes(want, script);
  }

  /** A fill that had `done` in the buffer before it started. */
  function Prepend(done: seq<Byte>, f: Filled): Filled
  {
    f.(data := done + f.data)
  }

  /** A read that delivers bytes puts as many as fit into the buffer; whatever does not
      fit is left for the next read. */
  lemma FillReadOk(want: nat, script: seq<ReadStep>)
    requires want > 0 && script != [] && script[0].ReadOk? && script[0].bytes != []
    ensures var b := script[0].bytes;
            var n := if |b| < want then |b| else want;
            var rest := if |b| > want then [ReadOk(b[want..])] + script[1..] else script[1..];
            Fill(want, script) == Prepend(b[..n], Fill(want - n, rest))
  {
    var b := script[0].bytes;
    if |b| >= want {
      assert b[..want] + [] == b[..want];
    } else {
      assert b[..|b|] == b;
    }
  }

  /** The bytes of one read land in the buffer at `at`; nothing else changes. */
  method CopyInto(buf: array<Byte>, at: nat, bytes: seq<Byte>)
    requires at + |bytes| <= buf.Length
    modifies buf
    ensures buf[..at + |bytes|] == old(buf[..at]) + bytes
    ensures buf[at + |bytes|..] == old(buf[at + |bytes|..])
  {
    forall i | 0 <= i < |bytes| {
      buf[at + i] := bytes[i];
    }
    assert buf[..at + |bytes|] == old(buf[..at]) + bytes;
  }

  /** Bytes read in two steps are the bytes of both, in order. */
  lemma PrependTwice(a: seq<Byte>, b: seq<Byte>, f: Filled)
    ensures Prepend(a, Prepend(b, f)) == Prepend(a + b, f)
  {
    assert a + (b + f.data) == (a + b) + f.data;
  }

  /** How one pass of the `read_exact` loop ends: bytes read or a retry, the end of the
      stream, or an error that is returned. */
  datatype Pass = Progress | EndOfStream | ReadError(error: IoError)

  /** The `Ok(n)` arm of the `read_exact` loop: the bytes read land in the unfilled part of
      the buffer, and whatever did not fit stays for the next read. */
  method Deliver(buf: array<Byte>, filled: nat, rest: seq<ReadStep>)
    returns (filled': nat, rest': seq<ReadStep>)
    requires filled < buf.Length
    requires rest != [] && rest[0].ReadOk? && rest[0].bytes != []
    modifies buf
    ensures filled < filled' <= buf.Length && |rest'| <= |rest|
    ensures buf[filled'..] == old(buf[filled'..])
    ensures Prepend(old(buf[..filled]), Fill(buf.Length - filled, rest))
            == Prepend(buf[..filled'], Fill(buf.Length - filled', rest'))
  {
    var b := rest[0].bytes;
    var room := buf.Length - filled;
    var n := if |b| < room then |b| else room;
    FillReadOk(room, rest);
    ghost var before := buf[..filled];
    CopyInto(buf, filled, b[..n]);
    rest' := if |b| > room then [ReadOk(b[room..])] + rest[1..] else rest[1..];
    filled' := filled + n;
    PrependTwice(before, b[..n], Fill(buf.Length - filled', rest'));
  }

  /** One pass of the `read_exact` loop: a `read` into the unfilled part of the buffer,
      `buf[filled..]`, and the arm of the `match` its answer selects. */
  method ReadOnce(buf: array<Byte>, filled: nat, rest: seq<ReadStep>)
    returns (filled': nat, rest': seq<ReadStep>, pass: Pass)
    requires filled < buf.Length
    modifies buf
    ensures filled <= filled' <= buf.Length
    ensures buf[filled'..] == old(buf[filled'..])
    ensures pass.Progress? ==>
              && Prepend(old(buf[..filled]), Fill(buf.Length - filled, rest))
                 == Prepend(buf[..filled'], Fill(buf.Length - filled', rest'))
              && (|rest'| < |rest| || (|rest'| == |rest| && filled' > filled))
    ensures pass.EndOfStream? ==>
              buf[..filled'] == old(buf[..filled]) && Fill(buf.Length - filled, rest) == Filled([], Failed(FILL_FAILED), rest')
    ensures pass.ReadError? ==>
              buf[..filled'] == old(buf[..filled]) && Fill(buf.Length - filled, rest) == Filled([], Failed(pass.error), rest')
  {
    if rest == [] {
      return filled, rest, EndOfStream;
    }
    match rest[0] {
      case ReadOk(b) =>
        if b == [] {
          return filled, rest[1..], EndOfStream;
        }
        filled', rest' := Deliver(buf, filled, rest);
        pass := Progress;
      case ReadErr(e) =>
        if e.kind == Interrupted {
          return filled, rest[1..], Progress;
        }
        return filled, rest[1..], ReadError(e);
    }
  }

  /** `read_exact`: the buffer is filled by one read after another; what was read before
      a failure stays in the buffer, and the rest of the buffer is untouched. */
  method ReadExact(buf: array<Byte>, script: seq<ReadStep>) returns (status: Status, rest: seq<ReadStep>)
    modifies buf
    ensures var f := Fill(buf.Length, script);
            && status == f.status && rest == f.rest
            && buf[..|f.data|] == f.data && buf[|f.data|..] == old(buf[|f.data|..])
    ensures buf.Length == 0 ==> status == Done && rest == script
  {
    var filled := 0;
    rest := script;
    while filled < buf.Length
      invariant 0 <= filled <= buf.Length
      invariant Fill(buf.Length, script) == Prepend(buf[..filled], Fill(buf.Length - filled, rest))
      invariant buf[filled..] == old(buf[filled..])
      decreases |rest|, buf.Length - filled
    {
      var pass;
      filled, rest, pass := ReadOnce(buf, filled, rest);
      match pass {
        case EndOfStream =>
          assert buf[..filled] + [] == buf[..filled];
          break;
        case ReadError(e) =>
          assert buf[..filled] + [] == buf[..filled];
          return Failed(e), rest;
        case Progress =>
      }
    }
    if filled < buf.Length {
      status := Failed(FILL_FAILED);
    } else {
      status := Done;
    }
  }

  // ---------------------------------------------------------------------------
  // The reader

  /** The bytes available in a script, plus its number of reads: each frame read lowers it. */
  function Weight(script: seq<ReadStep>): nat
  {
    |Stream(script)| + |script|
  }

  /** One frame off the stream: its body, or the error that stopped the read. */
  datatype FrameRead = FrameRead(body: Result<seq<Byte>>, rest: seq<ReadStep>)

  /** The frame read of `reader`: a 4-byte little-endian length, then exactly that many
      bytes. A body read is the stream's next bytes behind the header they follow. */
  function ReadFrame(script: seq<ReadStep>): (r: FrameRead)
    ensures r.body.Ok? ==>
              && 4 + |r.body.value| <= |Stream(script)|
              && FromLE(Stream(script)[..4]) == |r.body.value|
              && Stream(script)[4..4 + |r.body.value|] == r.body.value
              && Stream(r.rest) == Stream(script)[4 + |r.body.value|..]
              && Weight(r.rest) < Weight(script)
  {
    var header := Fill(4, script);
    if header.status.Failed? then FrameRead(Err(header.status.error), header.rest)
    else
      var body := Fill(FromLE(header.data), header.rest);
      if body.status.Failed? then FrameRead(Err(body.status.error), body.rest)
      else
        FillConsumes(4, script);
        FillConsumes(FromLE(header.data), header.rest);
        ghost var s := Stream(script);
        assert s == header.data + body.data + Stream(body.rest);
        assert s[..4] == header.data;
        assert s[4..4 + |body.data|] == body.data;
        assert s[4 + |body.data|..] == Stream(body.rest);
        FrameRead(Ok(body.data), body.rest)
  }

  /** What the reader takes in before it stops: each post taken apart into its author
      and lines, and the error that ended the loop. */
  datatype Session = Session(posts: seq<(string, seq<string>)>, stop: IoError)

  /** `reader`: frames are read and parsed until a read or a parse fails. */
  function Reader(script: seq<ReadStep>, codec: Codec<MessageValue>): Session
    decreases Weight(script)
  {
    var f := ReadFrame(script);
    match f.body
    case Err(e) => Session([], e)
    case Ok(body) =>
      match FromBytes(body, codec)
      case Err(e) => Session([], e)
      case Ok(m) =>
        var next := Reader(f.rest, codec);
        Session([Take(m)] + next.posts, next.stop)
  }

  /** One frame of the `reader` loop: the header into a fresh 4-byte buffer, then the body
      into a fresh buffer of the length it announces. */
  method ReceiveFrame(s: seq<ReadStep>) returns (body: Result<seq<Byte>>, rest: seq<ReadStep>)
    ensures FrameRead(body, rest) == ReadFrame(s)
  {
    var header := new Byte[4](_ => 0);
    var status, afterHeader := ReadExact(header, s);
    if status.Failed? {
      return Err(status.error), afterHeader;
    }
    assert header[..] == header[..4] == Fill(4, s).data;
    var buf := new Byte[FromLE(header[..])](_ => 0);
    var bodyStatus, afterBody := ReadExact(buf, afterHeader);
    if bodyStatus.Failed? {
      return Err(bodyStatus.error), afterBody;
    }
    assert buf[..] == buf[..buf.Length] == Fill(buf.Length, afterHeader).data;
    return Ok(buf[..]), afterBody;
  }

  /** The `reader` loop: frames are read and decoded until a read or a decode fails. */
  method RunReader(script: seq<ReadStep>, codec: Codec<MessageValue>) returns (posts: seq<(string, seq<string>)>, stop: IoError)
    ensures Session(posts, stop) == Reader(script, codec)
  {
    posts := [];
    var s := script;
    while true
      invariant Reader(script, codec) == Session(posts + Reader(s, codec).posts, Reader(s, codec).stop)
      decreases Weight(s)
    {
      var body, rest := ReceiveFrame(s);
      if body.Err? {
        return posts, body.error;
      }
      match FromBytes(body.value, codec) {
        case Err(e) =>
          return posts, e;
        case Ok(m) =>
          assert posts + Reader(s, codec).posts == (posts + [Take(m)]) + Reader(rest, codec).posts;
          posts := posts + [Take(m)];
          s := rest;
      }
    }
  }

  /** The payloads of a stream of frames. */
  function Encoded(msgs: seq<MessageValue>, codec: Codec<MessageValue>): seq<seq<Byte>>
  {
    if msgs == [] then [] else [codec.encode(msgs[0])] + Encoded(msgs[1..], codec)
  }

  /** The authors and lines a reader prints for a run of posts. */
  function Taken(msgs: seq<MessageValue>): seq<(string, seq<string>)>
  {
    if msgs == [] then [] else [Take(msgs[0])] + Taken(msgs[1..])
  }

  /** A frame at the head of the stream is read whole, wherever the reads split it. */
  lemma FirstFrame(script: seq<ReadStep>, p: seq<Byte>, tail: seq<Byte>)
    requires Clean(script) && |p| < U32_LIMIT
    requires Stream(script) == Frame(p) + tail
    ensures ReadFrame(script).body == Ok(p)
    ensures Stream(ReadFrame(script).rest) == tail && Clean(ReadFrame(script).rest)
  {
    var framed := Frame(p);
    FillClean(4, script);
    var header := Fill(4, script);
    FillTakesPrefix(4, script);
    assert header.data == framed[..4];
    assert Stream(header.rest) == p + tail by {
      assert framed[4..] == p;
      assert (framed + tail)[4..] == framed[4..] + tail;
    }
    FillClean(|p|, header.rest);
    FillTakesPrefix(|p|, header.rest);
    assert (p + tail)[..|p|] == p && (p + tail)[|p|..] == tail;
  }

  /** A frame whose body parses adds one post to what the rest of the stream gives. */
  lemma ReaderStep(script: seq<ReadStep>, codec: Codec<MessageValue>, m: MessageValue)
    requires ReadFrame(script).body.Ok? && codec.parse(ReadFrame(script).body.value) == Parsed(m)
    ensures var next := Reader(ReadFrame(script).rest, codec);
            Reader(script, codec) == Session([Take(m)] + next.posts, next.stop)
  {
  }

  /** Round trip: when the socket delivers posts framed by `to_bytes` of
      src/pb/worker/utils.rs, however the reads split the stream, the reader takes in every
      post in order and stops only at the end of the stream. The posts are records the
      server could serialise (each has its author), and the codec keeps what protobuf
      promises: such a record parses back equal to itself under `eq`. Unlike the
      server's deframer, the reader also carries posts that serialise to nothing. */
  lemma {:induction false} ReaderRoundTrip(script: seq<ReadStep>, msgs: seq<MessageValue>, codec: Codec<MessageValue>)
    requires RoundTrips(codec) && Clean(script)
    requires forall m | m in msgs :: IsInitialized(m) && |codec.encode(m)| < U32_LIMIT
    requires Stream(script) == Frames(Encoded(msgs, codec))
    ensures Reader(script, codec) == Session(Taken(msgs), FILL_FAILED)
    decreases |msgs|
  {
    if msgs != [] {
      var p := codec.encode(msgs[0]);
      var later := Encoded(msgs[1..], codec);
      assert msgs[0] in msgs;
      FirstFrame(script, p, Frames(later));
      var rest := ReadFrame(script).rest;
      forall m | m in msgs[1..] ensures IsInitialized(m) && |codec.encode(m)| < U32_LIMIT {
        assert m in msgs;
      }
      ReaderRoundTrip(rest, msgs[1..], codec);
      var parsed := codec.parse(p).message;
      ReaderStep(script, codec, parsed);
      TakeRespectsEq(parsed, msgs[0]);
    } else {
      FillClean(4, script);
    }
  }

  /** A post shorter than 2^32 bytes, framed by `into_bytes`: its first four bytes read
      as its length, and the other four bytes of the length are zero. */
  lemma ShortPostFrame(post: ChatPost.Post, pcodec: Codec<ChatPost.ProtoPost>)
    requires |pcodec.encode(ChatPost.IntoProto(post))| < U32_LIMIT
    ensures var q := pcodec.encode(ChatPost.IntoProto(post));
            var bytes := ChatPost.IntoBytes(post, pcodec);
            && |bytes| == 8 + |q|
            && FromLE(bytes[..4]) == |q|
            && bytes[4..] == [0, 0, 0, 0] + q
  {
    var q := pcodec.encode(ChatPost.IntoProto(post));
    var bytes := ChatPost.IntoBytes(post, pcodec);
    var header := bytes[..8];
    assert FromLE(header) == |q| by {
      Pow256Values();
      assert |q| % U64_LIMIT == |q|;
    }
    ShortLengthHeader(header, |q|);
    assert bytes[..4] == header[..4];
    assert bytes[4..] == header[4..] + bytes[8..];
  }

  /** An 8-byte length that fits in 32 bits is its 4-byte encoding followed by four
      zero bytes. */
  lemma ShortLengthHeader(header: seq<Byte>, n: nat)
    requires |header| == 8 && FromLE(header) == n && n < U32_LIMIT
    ensures FromLE(header[..4]) == n && header[4..] == [0, 0, 0, 0]
  {
    Pow256Values();
    LEOfFromLE(header);
    LEPadded(n, 4, 4);
    assert LE(0, 4) == [0, 0, 0, 0];
    assert header == LE(n, 4) + [0, 0, 0, 0];
    assert header[..4] == LE(n, 4);
    FromLEOfLE(n, 4);
  }

  /** The chat workers send posts framed by `into_bytes` of src/post.rs, with an 8-byte
      length; this reader expects a 4-byte one. On such a stream the first body it reads
      is the high half of the length, four zero bytes, followed by the serialised post
      short of its last four bytes. */
  lemma PostFrameMisread(script: seq<ReadStep>, post: ChatPost.Post, pcodec: Codec<ChatPost.ProtoPost>, more: seq<Byte>)
    requires Clean(script)
    requires 4 <= |pcodec.encode(ChatPost.IntoProto(post))| < U32_LIMIT
    requires Stream(script) == ChatPost.IntoBytes(post, pcodec) + more
    ensures var q := pcodec.encode(ChatPost.IntoProto(post));
            ReadFrame(script).body == Ok([0, 0, 0, 0] + q[..|q| - 4])
  {
    var q := pcodec.encode(ChatPost.IntoProto(post));
    var bytes := ChatPost.IntoBytes(post, pcodec);
    ShortPostFrame(post, pcodec);
    var tail := bytes[4..] + more;
    assert Stream(script) == bytes[..4] + tail by {
      assert bytes == bytes[..4] + bytes[4..];
    }
    MisreadBody(script, bytes[..4], tail);
    assert tail[..|q|] == [0, 0, 0, 0] + q[..|q| - 4];
  }

  /** A 4-byte header announcing `n`, followed by at least `n` bytes, gives a body of
      those `n` bytes. */
  lemma MisreadBody(script: seq<ReadStep>, header: seq<Byte>, tail: seq<Byte>)
    requires Clean(script) && |header| == 4 && FromLE(header) <= |tail|
    requires Stream(script) == header + tail
    ensures ReadFrame(script).body == Ok(tail[..FromLE(header)])
  {
    var n := FromLE(header);
    FillClean(4, script);
    var h := Fill(4, script);
    FillTakesPrefix(4, script);
    assert Stream(script)[..4] == header && Stream(script)[4..] == tail;
    FillClean(n, h.rest);
    FillTakesPrefix(n, h.rest);
  }
}
