/** What every per-connection variant in the server shares: the event flags of `mio`,
    a connection's state (token, interest set, send queue, deframer), and the
    worker's connection table (a `Slab` keyed by token) with the operations the
    three workers perform on it alike: accepting a socket, resetting a connection
    and delivering one message to every connection. */
module Connections {
  import opened Bytes
  import opened Io
  import opened Chunking

  type Token = nat

  /** The flags of a `mio::EventSet`. */
  datatype Ready = Readable | Writable | Hup | Error

  type EventSet = set<Ready>

  /** A `ByteBuf` waiting to be sent: the bytes not written yet. */
  type Buf = seq<Byte>

  /** What one `try_write_buf` on the socket does: `Ok(None)`, `Ok(Some(n))` or `Err(e)`. */
  datatype WriteResult = WouldBlock | Wrote(n: nat) | WriteFailed(error: IoError)

  /** A connection's fields other than its socket. */
  datatype Conn = Conn(token: Token, interest: EventSet, sendQueue: seq<Buf>, chunker: ChunkerState)

  /** `Connection::new`: interested in hang-ups only, nothing to send, a fresh deframer. */
  function NewConn(token: Token): Conn
  {
    Conn(token, {Hup}, [], Initial())
  }

  /** The interest part of `register`: readable is added before registering. */
  function Registered(c: Conn): Conn
  {
    c.(interest := c.interest + {Readable})
  }

  /** `send_message`: the buffer goes to the end of the queue and writable joins the interest. */
  function Enqueued(c: Conn, message: Buf): Conn
  {
    c.(sendQueue := c.sendQueue + [message], interest := c.interest + {Writable})
  }

  /** The bytes `try_write_buf` leaves in `buf` after writing `n` of them. */
  function Advance(buf: Buf, n: nat): (left: Buf)
    ensures |left| <= |buf| && left == buf[|buf| - |left|..]
    ensures n < |buf| ==> |left| == |buf| - n
    ensures n >= |buf| ==> left == []
  {
    if n < |buf| then buf[n..] else []
  }

  /** The capacity of the receive buffer `readable` allocates for each readiness event. */
  const RECV_CAPACITY := 2048

  /** What `accept` on a listening socket gives: a socket, `Ok(None)` or an error. */
  datatype AcceptResult = Incoming | NothingToAccept | AcceptFailed(error: IoError)

  /** What one `try_read_buf` on the socket does: `Ok(None)`, `Ok(Some(n))` with the bytes
      the socket had ready, or `Err(e)`. */
  datatype ReadResult = ReadWouldBlock | ReadBytes(bytes: seq<Byte>) | ReadFailed(error: IoError)

  /** The part of `offered` that fits in a receive buffer already holding `buf`. */
  function Fit(buf: seq<Byte>, offered: seq<Byte>): (got: seq<Byte>)
    requires |buf| <= RECV_CAPACITY
    ensures got <= offered && |buf| + |got| <= RECV_CAPACITY
    ensures |buf| + |offered| <= RECV_CAPACITY ==> got == offered
  {
    if |buf| + |offered| <= RECV_CAPACITY then offered else offered[..RECV_CAPACITY - |buf|]
  }

  /** The read loop of `readable` from a buffer holding `buf`, where `recv(k)` is the
      socket's answer to the k-th read of this call: it stops at a would-block or at a
      read shorter than the buffer's capacity, and returns the error of a failed read. */
  function Received(buf: seq<Byte>, recv: nat -> ReadResult, k: nat): (r: Result<seq<Byte>>)
    requires |buf| <= RECV_CAPACITY
    ensures r.Ok? ==> buf <= r.value && |r.value| <= RECV_CAPACITY
    decreases RECV_CAPACITY - |buf|
  {
    match recv(k)
    case ReadWouldBlock => Ok(buf)
    case ReadBytes(offered) =>
      var got := Fit(buf, offered);
      if |got| < RECV_CAPACITY then Ok(buf + got) else Received(buf + got, recv, k + 1)
    case ReadFailed(e) => Err(e)
  }

  /** The loop goes round again only after a read filled the whole buffer, and the read
      after that finds no room: one event delivers at most the first 2048 bytes the
      socket offers, and anything beyond them waits for the next event. */
  lemma ReceivedIsOneBuffer(recv: nat -> ReadResult)
    ensures var r := Received([], recv, 0);
            && (recv(0).ReadWouldBlock? ==> r == Ok([]))
            && (recv(0).ReadFailed? ==> r == Err(recv(0).error))
            && (recv(0).ReadBytes? && |recv(0).bytes| < RECV_CAPACITY ==> r == Ok(recv(0).bytes))
            && (recv(0).ReadBytes? && |recv(0).bytes| >= RECV_CAPACITY ==>
                  r == (if recv(1).ReadFailed? then Err(recv(1).error)
                        else Ok(recv(0).bytes[..RECV_CAPACITY])))
  {
    if recv(0).ReadBytes? {
      var offered := recv(0).bytes;
      if |offered| < RECV_CAPACITY {
        assert Fit([], offered) == offered;
        assert [] + offered == offered;
      } else {
        var first := offered[..RECV_CAPACITY];
        assert Fit([], offered) == first;
        assert [] + first == first;
        assert Received([], recv, 0) == Received(first, recv, 1);
        if recv(1).ReadBytes? {
          assert Fit(first, recv(1).bytes) == [];
          assert first + [] == first;
        }
      }
    }
  }

  /** The read loop of `readable` (src/pb/worker/connection.rs, src/web/connection.rs,
      src/worker.rs): fill a fresh 2048-byte buffer from the socket. */
  method Receive(recv: nat -> ReadResult) returns (r: Result<seq<Byte>>)
    ensures r == Received([], recv, 0)
  {
    var buf: seq<Byte> := [];
    var k := 0;
    while true
      invariant |buf| <= RECV_CAPACITY
      invariant Received(buf, recv, k) == Received([], recv, 0)
      decreases RECV_CAPACITY - |buf|
    {
      match recv(k) {
        case ReadWouldBlock =>
          return Ok(buf);
        case ReadBytes(offered) =>
          var got := Fit(buf, offered);
          buf := buf + got;
          if |got| < RECV_CAPACITY {
            return Ok(buf);
          }
        case ReadFailed(e) =>
          return Err(e);
      }
      k := k + 1;
    }
  }

  /** `readable` on a connection: the read loop, then the bytes fed to its deframer; a
      failed read returns the error and changes nothing. */
  function ReadConn(c: Conn, recv: nat -> ReadResult): (r: (Conn, Result<seq<seq<Byte>>>))
    ensures r.0 == c.(chunker := r.0.chunker)
    ensures r.1.Err? <==> Received([], recv, 0).Err?
    ensures r.1.Err? ==> r.0 == c && r.1.error == Received([], recv, 0).error
    ensures Valid(c.chunker) ==> Valid(r.0.chunker)
    ensures Valid(c.chunker) && r.1.Ok? ==> forall m | m in r.1.value :: 0 < |m| < U32_LIMIT
  {
    match Received([], recv, 0)
    case Err(e) => (c, Err(e))
    case Ok(bytes) =>
      var f := FeedAll(c.chunker, bytes);
      (c.(chunker := f.state), Ok(f.messages))
  }

  /** Why a handler panics: an event for token 0, an event for the wrong token on the
      listening socket, a writable event for the worker's own token, or indexing the
      connection table at a token with no connection (the slab's index operator panics). */
  datatype PanicReason = ZeroToken | UnexpectedToken | WritableForServer | NoSuchConnection

  /** How a handler ends: normally, with an I/O error, or with a panic of its thread. */
  datatype Outcome = Completed | Errored(error: IoError) | Panicked(reason: PanicReason)

  // ---------------------------------------------------------------------------
  // The connection table

  type Table = map<Token, Conn>

  /** A table whose entries know their own tokens, as `insert_with` makes them, and
      whose deframers are in a state the deframer can reach. */
  predicate WellFormed(t: Table)
  {
    forall k | k in t :: t[k].token == k && Valid(t[k].chunker)
  }

  /** `accept` on a worker: `insert_with` either gives a free token (`slot`) or fails
      (`None`); the new connection is registered, and removed again if that fails. */
  function Accepted(t: Table, slot: Option<Token>, registerOk: bool): (r: Table)
    requires slot.Some? ==> slot.value !in t
    ensures WellFormed(t) ==> WellFormed(r)
    ensures slot.Some? && registerOk ==>
              && r.Keys == t.Keys + {slot.value}
              && r[slot.value] == Conn(slot.value, {Hup, Readable}, [], Initial())
    ensures !(slot.Some? && registerOk) ==> r == t
    ensures forall k | k in t :: k in r && r[k] == t[k]
  {
    if slot.None? then t
    else if registerOk then t[slot.value := Registered(NewConn(slot.value))]
    else t
  }

  /** `reset_connection`: the slot is freed; a token not in the table is ignored. */
  function Reset(t: Table, token: Token): (r: Table)
    ensures r.Keys == t.Keys - {token}
    ensures forall k | k in r :: r[k] == t[k]
  {
    t - {token}
  }

  /** What delivering `message` to every connection leaves in the table: each connection
      whose re-registration succeeds (`reregisterOk`) has the message queued; the others
      are gone. */
  function Delivered(t: Table, message: Buf, reregisterOk: Token -> bool): Table
  {
    map k | k in t && reregisterOk(k) :: Enqueued(t[k], message)
  }

  /** The loop shared by `broadcast_local` (src/pb/server.rs, src/web/worker.rs) and
      `broadcast` (src/worker.rs): enqueue on every connection, note the tokens whose
      re-registration fails, and reset those only after the loop. */
  method BroadcastLocal(t: Table, message: Buf, reregisterOk: Token -> bool) returns (r: Table)
    ensures r == Delivered(t, message, reregisterOk)
  {
    var table, badTokens := EnqueueAll(t, message, reregisterOk);
    r := ResetAll(table, badTokens);
    assert r.Keys == Delivered(t, message, reregisterOk).Keys;
  }

  /** The first loop of `broadcast_local`: every connection has the message queued, and
      the tokens whose re-registration fails are collected. */
  method EnqueueAll(t: Table, message: Buf, reregisterOk: Token -> bool) returns (table: Table, badTokens: seq<Token>)
    ensures table.Keys == t.Keys
    ensures forall k | k in t :: table[k] == Enqueued(t[k], message)
    ensures forall k :: k in badTokens <==> k in t && !reregisterOk(k)
  {
    table := t;
    var pending := t.Keys;
    badTokens := [];
    while pending != {}
      invariant pending <= t.Keys && table.Keys == t.Keys
      invariant forall k | k in pending :: table[k] == t[k]
      invariant forall k | k in t && k !in pending :: table[k] == Enqueued(t[k], message)
      invariant forall k :: k in badTokens <==> k in t && k !in pending && !reregisterOk(k)
      decreases pending
    {
      var k :| k in pending;
      table := table[k := Enqueued(table[k], message)];
      if !reregisterOk(k) {
        badTokens := badTokens + [k];
      }
      pending := pending - {k};
    }
  }

  /** The second loop of `broadcast_local`: each collected token is reset in turn. */
  method ResetAll(t: Table, badTokens: seq<Token>) returns (r: Table)
    ensures forall k :: k in r <==> k in t && k !in badTokens
    ensures forall k | k in r :: r[k] == t[k]
  {
    r := t;
    for i := 0 to |badTokens|
      invariant forall k :: k in r <==> k in t && k !in badTokens[..i]
      invariant forall k | k in r :: r[k] == t[k]
    {
      assert badTokens[..i + 1] == badTokens[..i] + [badTokens[i]];
      r := Reset(r, badTokens[i]);
    }
    assert badTokens[..|badTokens|] == badTokens;
  }

  /** Delivery reaches exactly the healthy connections: each keeps its place in the table
      with the message at the end of its queue and writable in its interest. */
  lemma DeliveredReachesHealthy(t: Table, message: Buf, reregisterOk: Token -> bool)
    ensures Delivered(t, message, reregisterOk).Keys == set k | k in t && reregisterOk(k)
    ensures forall k | k in t && reregisterOk(k) ::
              && Delivered(t, message, reregisterOk)[k].sendQueue == t[k].sendQueue + [message]
              && Delivered(t, message, reregisterOk)[k].interest == t[k].interest + {Writable}
              && Delivered(t, message, reregisterOk)[k].token == t[k].token
    ensures WellFormed(t) ==> WellFormed(Delivered(t, message, reregisterOk))
  {
  }
}
