/** The connection of src/web/connection.rs, whose code the `Connection` of src/worker.rs
    (src/worker.rs:182-280) repeats line for line. Unlike the connection of
    src/pb/worker/connection.rs, its `writable` pops exactly one buffer per call, fails
    when there is none, and drops a buffer that was only partly written. */
module WebConnection {
  import opened Bytes
  import opened Io
  import opened Chunking
  import opened Connections

  /** The message of the error `writable` returns on an empty queue. */
  const POP_FAILED: string := "Could not pop send queue"

  /** The interest update at the end of a successful `writable`. */
  function Settled(c: Conn): (Conn, Status)
  {
    if c.sendQueue == [] then (c.(interest := c.interest - {Writable}), Done) else (c, Done)
  }

  /** `writable`, where `outcome` is the socket's answer to the one write it attempts. */
  function WriteOnce(c: Conn, outcome: WriteResult): (Conn, Status)
  {
    if c.sendQueue == [] then (c, Failed(IoError(Other, POP_FAILED)))
    else
      var buf := c.sendQueue[|c.sendQueue| - 1];
      var rest := c.sendQueue[..|c.sendQueue| - 1];
      match outcome
      case WouldBlock => Settled(c.(sendQueue := rest + [buf]))
      case Wrote(_) => Settled(c.(sendQueue := rest))
      case WriteFailed(e) => (c.(sendQueue := rest), Failed(e))
  }

  /** Everything one `writable` call can do: an empty queue is an error that changes
      nothing; otherwise the last buffer is taken off, put back only when the write
      would block, and dropped after any write, partial or not, and after an error. */
  lemma WriteOnceOutcome(c: Conn, outcome: WriteResult)
    ensures var (c', status) := WriteOnce(c, outcome);
            && c'.token == c.token && c'.chunker == c.chunker
            && (c.sendQueue == [] ==> c' == c && status == Failed(IoError(Other, POP_FAILED)))
            && (c.sendQueue != [] && outcome.WouldBlock? ==> c'.sendQueue == c.sendQueue && status == Done)
            && (c.sendQueue != [] && outcome.Wrote? ==>
                  c'.sendQueue == c.sendQueue[..|c.sendQueue| - 1] && status == Done)
            && (c.sendQueue != [] && outcome.WriteFailed? ==>
                  && c'.sendQueue == c.sendQueue[..|c.sendQueue| - 1]
                  && status == Failed(outcome.error) && c'.interest == c.interest)
            && (status.Done? ==>
                  c'.interest == if c'.sendQueue == [] then c.interest - {Writable} else c.interest)
  {
    if c.sendQueue != [] && outcome.WouldBlock? {
      assert c.sendQueue[..|c.sendQueue| - 1] + [c.sendQueue[|c.sendQueue| - 1]] == c.sendQueue;
    }
  }

  /** A partial write loses the unwritten tail: with one buffer of which fewer than all
      bytes are written, this connection ends with nothing queued, while the draining
      connection of src/pb/worker/connection.rs keeps the tail. */
  lemma PartialWriteDropsTail(c: Conn, n: nat)
    requires |c.sendQueue| == 1 && n < |c.sendQueue[0]|
    ensures WriteOnce(c, Wrote(n)).0.sendQueue == []
    ensures WriteOnce(c, Wrote(n)).0.interest == c.interest - {Writable}
    ensures Advance(c.sendQueue[0], n) != []
  {
  }

  /** The `Connection` object. */
  class Connection {
    var token: Token
    var interest: EventSet
    var sendQueue: seq<Buf>
    var chunker: Chunker

    function State(): Conn
      reads this, chunker
    {
      Conn(token, interest, sendQueue, chunker.State())
    }

    /** `Connection::new` (the socket is not modelled). */
    constructor (token: Token)
      ensures State() == NewConn(token)
      ensures fresh(chunker)
    {
      this.token := token;
      interest := {Hup};
      sendQueue := [];
      chunker := new Chunker();
    }

    /** `register`: readable joins the interest; the result is the event loop's answer. */
    method Register(registration: Status) returns (status: Status)
      modifies this
      ensures State() == Registered(old(State()))
      ensures status == registration
    {
      interest := interest + {Ready.Readable};
      status := registration;
    }

    /** `send_message`: always succeeds. */
    method SendMessage(message: Buf) returns (status: Status)
      modifies this
      ensures State() == Enqueued(old(State()), message)
      ensures status == Done
    {
      sendQueue := sendQueue + [message];
      interest := interest + {Ready.Writable};
      status := Done;
    }

    /** `readable`: the read loop, then the collected bytes fed to the deframer. */
    method Readable(recv: nat -> ReadResult) returns (r: Result<seq<seq<Byte>>>)
      modifies chunker
      ensures (State(), r) == ReadConn(old(State()), recv)
    {
      var received := Receive(recv);
      if received.Err? {
        return Err(received.error);
      }
      var messages := chunker.Feed(received.value);
      r := Ok(messages);
    }

    /** `writable`. */
    method Writable(outcome: WriteResult) returns (status: Status)
      modifies this
      ensures (State(), status) == WriteOnce(old(State()), outcome)
    {
      if sendQueue == [] {
        return Failed(IoError(Other, POP_FAILED));
      }
      var buf := sendQueue[|sendQueue| - 1];
      sendQueue := sendQueue[..|sendQueue| - 1];
      match outcome {
        case WouldBlock =>
          sendQueue := sendQueue + [buf];
        case Wrote(_) =>
        case WriteFailed(e) =>
          return Failed(e);
      }
      if sendQueue == [] {
        interest := interest - {Ready.Writable};
      }
      status := Done;
    }
  }
}
