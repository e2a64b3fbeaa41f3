/** The connection of src/pb/worker/connection.rs (copied unchanged as the `Connection`
    of src/pb/server.rs:374-476). Its `writable` keeps popping buffers off the BACK of the
    send queue and writing them until the queue is empty, a write would block, a write
    is partial, or a write fails. */
module PbConnection {
  import opened Bytes
  import opened Io
  import opened Chunking
  import opened Connections

  /** The queue left by the `while let` loop of `writable`, the buffers it wrote whole
      (in the order written), and how the loop ended. */
  datatype Drained = Drained(queue: seq<Buf>, written: seq<Buf>, status: Status)

  /** The loop of `writable` from queue `q`, where `respond(k)` is the socket's answer to
      the k-th write attempt of this call. */
  function Drain(q: seq<Buf>, respond: nat -> WriteResult, k: nat): Drained
    decreases |q|
  {
    if q == [] then Drained([], [], Done)
    else
      var buf := q[|q| - 1];
      var rest := q[..|q| - 1];
      match respond(k)
      case WouldBlock => Drained(rest + [buf], [], Done)
      case Wrote(n) =>
        var left := Advance(buf, n);
        if left != [] then Drained(rest + [left], [], Done)
        else
          var d := Drain(rest, respond, k + 1);
          d.(written := [buf] + d.written)
      case WriteFailed(e) => Drained(rest, [], Failed(e))
  }

  /** `b` is what is left of `a` after writing some prefix of it. */
  predicate Suffix(b: Buf, a: Buf)
  {
    |b| <= |a| && b == a[|a| - |b|..]
  }

  /** `writable`: the drain, then writable leaves the interest if the loop ended with
      an empty queue. An error returns at once and leaves the interest as it was. */
  function AfterWritable(c: Conn, respond: nat -> WriteResult): (Conn, Status)
  {
    var d := Drain(c.sendQueue, respond, 0);
    if d.status.Failed? then (c.(sendQueue := d.queue), d.status)
    else if d.queue == [] then (c.(sendQueue := [], interest := c.interest - {Writable}), Done)
    else (c.(sendQueue := d.queue), Done)
  }

  /** The buffers written whole are the last ones enqueued, newest first. */
  lemma {:induction false} DrainWritesFromBack(q: seq<Buf>, respond: nat -> WriteResult, k: nat)
    ensures var d := Drain(q, respond, k);
            && |d.written| <= |q|
            && forall i | 0 <= i < |d.written| :: d.written[i] == q[|q| - 1 - i]
    decreases |q|
  {
    if q != [] && respond(k).Wrote? && Advance(q[|q| - 1], respond(k).n) == [] {
      var rest := q[..|q| - 1];
      DrainWritesFromBack(rest, respond, k + 1);
      var d := Drain(rest, respond, k + 1);
      var d' := Drain(q, respond, k);
      assert d'.written == [q[|q| - 1]] + d.written;
      forall i | 0 <= i < |d'.written| ensures d'.written[i] == q[|q| - 1 - i] {
        if i > 0 { assert d'.written[i] == d.written[i - 1]; }
      }
    }
  }

  /** What a drain of `q` that ended in `d` leaves behind: after an error, the buffers
      older than the failed one; after a would-block or a partial write, the older buffers
      followed by the unwritten tail of the buffer being written; an empty queue only when
      every buffer was written. */
  predicate Leaves(q: seq<Buf>, d: Drained)
  {
    && (d.status.Failed? ==> |d.written| < |q| && d.queue == q[..|q| - |d.written| - 1])
    && (d.status.Done? && d.queue == [] ==> |d.written| == |q|)
    && (d.status.Done? && d.queue != [] ==>
          && |d.queue| + |d.written| == |q|
          && d.queue[..|d.queue| - 1] == q[..|d.queue| - 1]
          && Suffix(d.queue[|d.queue| - 1], q[|d.queue| - 1]))
  }

  /** Writing the newest buffer whole, then draining the older ones, leaves what draining
      the older ones leaves. */
  lemma LeavesAfterWrite(q: seq<Buf>, d: Drained)
    requires q != [] && Leaves(q[..|q| - 1], d)
    ensures Leaves(q, d.(written := [q[|q| - 1]] + d.written))
  {
    var rest := q[..|q| - 1];
    if d.status.Done? && d.queue != [] {
      assert q[..|d.queue|] == rest[..|d.queue|];
    } else if d.status.Failed? {
      assert q[..|rest| - |d.written|] == rest[..|rest| - |d.written|];
    }
  }

  /** What the loop of `writable` leaves behind, as `Leaves` describes it. */
  lemma {:induction false} DrainLeaves(q: seq<Buf>, respond: nat -> WriteResult, k: nat)
    ensures Leaves(q, Drain(q, respond, k))
    decreases |q|
  {
    if q != [] {
      var buf := q[|q| - 1];
      var rest := q[..|q| - 1];
      match respond(k)
      case WouldBlock =>
        assert rest + [buf] == q;
      case Wrote(n) =>
        var left := Advance(buf, n);
        if left != [] {
          assert (rest + [left])[..|q| - 1] == rest;
        } else {
          DrainLeaves(rest, respond, k + 1);
          LeavesAfterWrite(q, Drain(rest, respond, k + 1));
        }
      case WriteFailed(e) =>
    }
  }

  /** `writable` always terminates and never grows the queue; an `Ok` return leaves
      writable in the interest exactly when buffers remain. */
  lemma WritableOutcome(c: Conn, respond: nat -> WriteResult)
    ensures var (c', status) := AfterWritable(c, respond);
            && |c'.sendQueue| <= |c.sendQueue|
            && c'.token == c.token && c'.chunker == c.chunker
            && (status.Failed? ==> c'.interest == c.interest && |c'.sendQueue| < |c.sendQueue|)
            && (status.Done? ==> (c'.interest == if c'.sendQueue == [] then c.interest - {Writable} else c.interest))
  {
    DrainLeaves(c.sendQueue, respond, 0);
  }

  /** The `Connection` object. */
  class Connection {
    var token: Token
    var interest: EventSet
    var sendQueue: seq<Buf>
    var chunker: Chunker

    function State(): Conn
      reads this, chunker
    {
      Conn(token, interest, sendQueue, chunker.State())
    }

    /** `Connection::new` (the socket is not modelled). */
    constructor (token: Token)
      ensures State() == NewConn(token)
      ensures fresh(chunker)
    {
      this.token := token;
      interest := {Hup};
      sendQueue := [];
      chunker := new Chunker();
    }

    /** `register`: readable joins the interest; the result is the event loop's answer. */
    method Register(registration: Status) returns (status: Status)
      modifies this
      ensures State() == Registered(old(State()))
      ensures status == registration
    {
      interest := interest + {Ready.Readable};
      status := registration;
    }

    /** `send_message`: always succeeds. */
    method SendMessage(message: Buf) returns (status: Status)
      modifies this
      ensures State() == Enqueued(old(State()), message)
      ensures status == Done
    {
      sendQueue := sendQueue + [message];
      interest := interest + {Ready.Writable};
      status := Done;
    }

    /** `readable`: the read loop, then the bytes it collected fed to the deframer; a
        failed read returns its error and leaves the deframer as it was. */
    method Readable(recv: nat -> ReadResult) returns (r: Result<seq<seq<Byte>>>)
      modifies chunker
      ensures (State(), r) == ReadConn(old(State()), recv)
    {
      var received := Receive(recv);
      if received.Err? {
        return Err(received.error);
      }
      var messages := chunker.Feed(received.value);
      r := Ok(messages);
    }

    /** `writable`. */
    method Writable(respond: nat -> WriteResult) returns (status: Status)
      modifies this
      ensures (State(), status) == AfterWritable(old(State()), respond)
    {
      ghost var written: seq<Buf> := [];
      var k := 0;
      while sendQueue != []
        invariant interest == old(interest) && token == old(token) && chunker == old(chunker)
        invariant var d := Drain(sendQueue, respond, k);
                  Drain(old(sendQueue), respond, 0) == d.(written := written + d.written)
        decreases |sendQueue|
      {
        var buf := sendQueue[|sendQueue| - 1];
        sendQueue := sendQueue[..|sendQueue| - 1];
        match respond(k) {
          case WouldBlock =>
            sendQueue := sendQueue + [buf];
            break;
          case Wrote(n) =>
            var left := Advance(buf, n);
            if left != [] {
              sendQueue := sendQueue + [left];
              break;
            }
            written := written + [buf];
          case WriteFailed(e) =>
            return Failed(e);
        }
        k := k + 1;
      }
      if sendQueue == [] {
        interest := interest - {Ready.Writable};
      }
      status := Done;
    }
  }
}
