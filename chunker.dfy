/** The streaming deframer of src/pb/worker/chunker.rs. Bytes arrive in arbitrary
    chunks; each frame is a 4-byte little-endian length followed by that many payload
    bytes. The chunker alternates between collecting the four length bytes and
    collecting the payload, and hands back every payload it completes. */
module Chunking {
  import opened Bytes

  /** The four fields of a `Chunker`, as a value. */
  datatype ChunkerState = ChunkerState(
    isReadingLength: bool,
    lenBuffer: seq<Byte>,
    msgLen: nat,
    msgBuffer: seq<Byte>)

  /** The state after a call to `feed`, with the payloads that call returned. */
  datatype Fed = Fed(state: ChunkerState, messages: seq<seq<Byte>>)

  /** `Chunker::new`. */
  function Initial(): (s: ChunkerState)
    ensures s.isReadingLength && s.lenBuffer == [] && s.msgLen == 0 && s.msgBuffer == []
  {
    ChunkerState(true, [], 0, [])
  }

  /** The states the chunker can be in between two bytes. */
  predicate Valid(s: ChunkerState)
  {
    && |s.lenBuffer| < 4
    && s.msgLen < U32_LIMIT
    && (s.isReadingLength ==> s.msgBuffer == [])
    && (!s.isReadingLength ==> s.lenBuffer == [] && (s.msgLen > 0 ==> |s.msgBuffer| < s.msgLen))
  }

  /** Between two frames: reading a length and holding nothing. */
  predicate AtBoundary(s: ChunkerState)
  {
    s.isReadingLength && s.lenBuffer == [] && s.msgBuffer == []
  }

  /** One iteration of the loop in `feed`: the state after `b` and the payload it completes, if any. */
  function Step(s: ChunkerState, b: Byte): (r: Fed)
    ensures |r.messages| <= 1
    ensures Valid(s) ==> Valid(r.state)
    // the fourth length byte fixes the payload length and switches to payload mode
    ensures s.isReadingLength && |s.lenBuffer| == 3 ==>
              r.messages == [] && !r.state.isReadingLength && r.state.lenBuffer == []
              && r.state.msgLen == FromLE(s.lenBuffer + [b])
    // a payload is emitted only in payload mode, with exactly the announced length,
    // and emitting it returns to a frame boundary
    ensures r.messages != [] ==>
              !s.isReadingLength && |r.messages[0]| == s.msgLen
              && r.messages[0] == s.msgBuffer + [b]
              && r.state.isReadingLength && r.state.msgBuffer == [] && r.state.lenBuffer == s.lenBuffer
  {
    if s.isReadingLength then
      var lb := s.lenBuffer + [b];
      if |lb| == 4 then
        Fed(s.(isReadingLength := false, lenBuffer := [], msgLen := FromLE(lb)), [])
      else
        Fed(s.(lenBuffer := lb), [])
    else
      var mb := s.msgBuffer + [b];
      if |mb| == s.msgLen then
        Fed(s.(isReadingLength := true, msgBuffer := []), [mb])
      else
        Fed(s.(msgBuffer := mb), [])
  }

  /** `feed`: the bytes of one chunk, in order, from state `s`. */
  function FeedAll(s: ChunkerState, bs: seq<Byte>): (r: Fed)
    ensures Valid(s) ==> Valid(r.state)
    ensures Valid(s) ==> forall m | m in r.messages :: 0 < |m| < U32_LIMIT
    decreases |bs|
  {
    if bs == [] then Fed(s, [])
    else
      var first := Step(s, bs[0]);
      var rest := FeedAll(first.state, bs[1..]);
      Fed(rest.state, first.messages + rest.messages)
  }

  /** Feeding `b` after a feed that ended in `f`: the later state and all payloads, in order. */
  function Then(f: Fed, b: seq<Byte>): Fed
  {
    var g := FeedAll(f.state, b);
    Fed(g.state, f.messages + g.messages)
  }

  /** Split invariance: where a chunk boundary falls does not change what comes out. */
  lemma {:induction false} FeedSplit(s: ChunkerState, a: seq<Byte>, b: seq<Byte>)
    ensures FeedAll(s, a + b) == Then(FeedAll(s, a), b)
    decreases |a|
  {
    if a == [] {
      assert a + b == b;
    } else {
      assert (a + b)[0] == a[0];
      assert (a + b)[1..] == a[1..] + b;
      var first := Step(s, a[0]);
      FeedSplit(first.state, a[1..], b);
      var f := FeedAll(first.state, a[1..]);
      AppendAssoc(first.messages, f.messages, FeedAll(f.state, b).messages);
    }
  }

  /** The loop of `feed` after `i` bytes: the step for the next byte extends the fold. */
  lemma FeedSnoc(s: ChunkerState, bs: seq<Byte>, b: Byte)
    ensures var f := FeedAll(s, bs); var g := Step(f.state, b);
            FeedAll(s, bs + [b]) == Fed(g.state, f.messages + g.messages)
  {
    FeedSplit(s, bs, [b]);
    var f := FeedAll(s, bs);
    var g := Step(f.state, b);
    assert [b][1..] == [];
    assert g.messages + [] == g.messages;
    assert FeedAll(f.state, [b]) == Fed(g.state, g.messages);
  }

  /** Collecting the length: from `k` bytes of header `h` already held, the rest of the
      header switches to payload mode with length `FromLE(h)` and emits nothing. */
  lemma {:induction false} ReadHeader(s: ChunkerState, h: seq<Byte>, k: nat)
    requires |h| == 4 && k < 4
    requires s.isReadingLength && s.lenBuffer == h[..k]
    ensures FeedAll(s, h[k..]) == Fed(s.(isReadingLength := false, lenBuffer := [], msgLen := FromLE(h)), [])
    decreases 4 - k
  {
    assert s.lenBuffer + [h[k]] == h[..k + 1];
    if k == 3 {
      assert h[..4] == h;
      assert h[3..][1..] == [];
    } else {
      assert h[k..][1..] == h[k + 1..];
      ReadHeader(Step(s, h[k]).state, h, k + 1);
    }
  }

  /** Collecting the payload: from `k` bytes of payload `p` already held, the rest of it
      emits exactly `p` and returns to a frame boundary. */
  lemma {:induction false} ReadPayload(s: ChunkerState, p: seq<Byte>, k: nat)
    requires k < |p| && s.msgLen == |p|
    requires !s.isReadingLength && s.msgBuffer == p[..k]
    ensures FeedAll(s, p[k..]) == Fed(s.(isReadingLength := true, msgBuffer := []), [p])
    decreases |p| - k
  {
    assert s.msgBuffer + [p[k]] == p[..k + 1];
    if k == |p| - 1 {
      assert p[..|p|] == p;
      assert p[k..][1..] == [];
    } else {
      assert p[k..][1..] == p[k + 1..];
      ReadPayload(Step(s, p[k]).state, p, k + 1);
    }
  }

  /** A zero-length header never completes: the length check only runs after a push,
      when the buffer holds at least one byte, so every later byte piles up. */
  lemma {:induction false} ZeroLengthStalls(s: ChunkerState, bs: seq<Byte>)
    requires !s.isReadingLength && s.msgLen == 0
    ensures FeedAll(s, bs) == Fed(s.(msgBuffer := s.msgBuffer + bs), [])
    decreases |bs|
  {
    if bs != [] {
      var st := s.(msgBuffer := s.msgBuffer + [bs[0]]);
      assert Step(s, bs[0]) == Fed(st, []);
      ZeroLengthStalls(st, bs[1..]);
      var rest := FeedAll(st, bs[1..]);
      assert rest == Fed(s.(msgBuffer := s.msgBuffer + bs), []) by {
        AppendAssoc(s.msgBuffer, [bs[0]], bs[1..]);
        assert [bs[0]] + bs[1..] == bs;
      }
      assert FeedAll(s, bs) == Fed(rest.state, [] + rest.messages);
    } else {
      assert s.msgBuffer + bs == s.msgBuffer;
    }
  }

  /** The `Chunker` object of src/pb/worker/chunker.rs. */
  class Chunker {
    var isReadingLength: bool
    var lenBuffer: seq<Byte>
    var msgLen: nat
    var msgBuffer: seq<Byte>

    function State(): ChunkerState
      reads this
    {
      ChunkerState(isReadingLength, lenBuffer, msgLen, msgBuffer)
    }

    constructor ()
      ensures State() == Initial()
    {
      isReadingLength := true;
      lenBuffer := [];
      msgLen := 0;
      msgBuffer := [];
    }

    /** `feed`: consumes `buf` byte by byte and returns the payloads it completed. */
    method Feed(buf: seq<Byte>) returns (result: seq<seq<Byte>>)
      modifies this
      ensures Fed(State(), result) == FeedAll(old(State()), buf)
    {
      result := [];
      for i := 0 to |buf|
        invariant Fed(State(), result) == FeedAll(old(State()), buf[..i])
      {
        var byte := buf[i];
        FeedSnoc(old(State()), buf[..i], byte);
        assert buf[..i + 1] == buf[..i] + [byte];
        ghost var step := Step(State(), byte);
        ghost var before := result;
        if isReadingLength {
          lenBuffer := lenBuffer + [byte];
          if |lenBuffer| == 4 {
            var header := lenBuffer;
            lenBuffer := [];
            msgLen := FromLE(header);
            isReadingLength := false;
          }
        } else {
          msgBuffer := msgBuffer + [byte];
          if |msgBuffer| == msgLen {
            var message := msgBuffer;
            msgBuffer := [];
            result := result + [message];
            isReadingLength := true;
          }
        }
        assert Fed(State(), result) == Fed(step.state, before + step.messages);
      }
      assert buf[..|buf|] == buf;
    }
  }
}
