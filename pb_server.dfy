/** The generic protobuf server of src/pb/server.rs: the listening `ProtoServer` that
    hands each accepted socket to a worker in turn, the `User` through which a handler
    asks for a broadcast or an echo, and the `Worker` that owns the connections of one
    event loop. The handler (`ProtoHandler`) is user code: the model takes its reaction
    to a message to be the sequence of calls it makes on the `User`. */
module PbServer {
  import opened Bytes
  import opened Io
  import opened Chunking
  import opened Connections
  import opened ProtoFraming
  import opened PbConnection
  import opened Layout

  // ---------------------------------------------------------------------------
  // The listening side

  class ProtoServer {
    const token: Token
    const nWorkers: nat
    var workerPtr: nat
    /** False once the event loop has been asked to shut down. */
    var running: bool
    /** The worker each accepted socket was sent to, in order. */
    ghost var dispatched: seq<nat>

    ghost predicate Valid()
      reads this
    {
      && nWorkers > 0 && token == SERVER_TOKEN
      && workerPtr == PtrAfter(nWorkers, |dispatched|)
      && forall i | 0 <= i < |dispatched| :: dispatched[i] == PtrAfter(nWorkers, i + 1)
    }

    /** The server built by `start`, once `Worker::start` has made the `n` workers (it
        panics unless `n > 0`). */
    constructor (nWorkers: nat)
      requires nWorkers > 0
      ensures Valid() && this.nWorkers == nWorkers
      ensures workerPtr == 0 && running && dispatched == []
    {
      token := SERVER_TOKEN;
      this.nWorkers := nWorkers;
      workerPtr := 0;
      running := true;
      dispatched := [];
    }

    /** `round_robin`: the pointer moves on first, then the socket goes to the worker it
        points at; a failed send is only logged. */
    method RoundRobin() returns (target: nat)
      requires Valid()
      modifies this
      ensures Valid()
      ensures target == Advanced(old(workerPtr), nWorkers) && workerPtr == target
      ensures dispatched == old(dispatched) + [target] && running == old(running)
    {
      workerPtr := workerPtr + 1;
      workerPtr := workerPtr % nWorkers;
      target := workerPtr;
      dispatched := dispatched + [target];
    }

    /** `reregister`: a failure shuts the event loop down. */
    method Reregister(reregisterOk: bool)
      modifies this
      ensures running == (old(running) && reregisterOk)
      ensures workerPtr == old(workerPtr) && dispatched == old(dispatched)
    {
      if !reregisterOk {
        running := false;
      }
    }

    /** `accept`: a socket is handed on; either way the listener is re-registered. */
    method Accept(accepted: AcceptResult, reregisterOk: bool)
      requires Valid()
      modifies this
      ensures Valid()
      ensures dispatched == old(dispatched) + (if accepted.Incoming? then [Advanced(old(workerPtr), nWorkers)] else [])
      ensures running == (old(running) && reregisterOk)
    {
      if accepted.Incoming? {
        var _ := RoundRobin();
      }
      Reregister(reregisterOk);
    }

    /** `ready`: an event for token 0 or for a token other than the listener's panics; an
        error event shuts down; a readable event accepts. */
    method Ready(tok: Token, events: EventSet, accepted: AcceptResult, reregisterOk: bool)
      returns (outcome: Outcome)
      requires Valid()
      modifies this
      ensures Valid()
      ensures tok == 0 ==> outcome == Panicked(ZeroToken)
      ensures tok != 0 && tok != token ==> outcome == Panicked(UnexpectedToken)
      ensures tok != token || Error in events || Readable !in events ==> dispatched == old(dispatched)
      ensures tok == token ==> outcome == Completed
      ensures tok == token && Error in events ==> !running
      ensures tok == token && Error !in events && Readable in events ==>
                && dispatched == old(dispatched) + (if accepted.Incoming? then [Advanced(old(workerPtr), nWorkers)] else [])
                && running == (old(running) && reregisterOk)
      ensures tok != token || (Error !in events && Readable !in events) ==> running == old(running)
    {
      if tok == 0 {
        return Panicked(ZeroToken);
      }
      if tok != token {
        return Panicked(UnexpectedToken);
      }
      if Error in events {
        running := false;
        return Completed;
      }
      if Readable in events {
        Accept(accepted, reregisterOk);
      }
      outcome := Completed;
    }
  }

  /** The `k`-th socket handed on (counting from 1) goes to worker `k mod n`: the first
      goes to worker 1, and worker 0 gets every `n`-th. */
  lemma DispatchInTurn(n: nat, dispatched: seq<nat>, i: nat)
    requires n > 0 && i < |dispatched|
    requires forall j | 0 <= j < |dispatched| :: dispatched[j] == PtrAfter(n, j + 1)
    ensures dispatched[i] == (i + 1) % n
  {
    PtrAfterIsMod(n, i + 1);
  }

  // ---------------------------------------------------------------------------
  // The user

  /** A call a handler makes on its `User`. */
  datatype UserCall<P> = CallBroadcast(message: P) | CallEcho(message: P)

  /** The requests a `User` holds. */
  datatype Requests<P> = Requests(broadcast: Option<P>, echo: Option<P>)

  function NoRequests<P>(): Requests<P>
  {
    Requests(None, None)
  }

  /** The effect of one call: it replaces the request of its kind. */
  function Called<P>(r: Requests<P>, call: UserCall<P>): Requests<P>
  {
    match call
    case CallBroadcast(m) => r.(broadcast := Some(m))
    case CallEcho(m) => r.(echo := Some(m))
  }

  /** The requests after a sequence of calls. */
  function Replay<P>(r: Requests<P>, calls: seq<UserCall<P>>): Requests<P>
    decreases |calls|
  {
    if calls == [] then r else Called(Replay(r, calls[..|calls| - 1]), calls[|calls| - 1])
  }

  /** A user keeps only the last broadcast and the last echo asked for: a fresh user
      holds a broadcast iff some call asked for one, and then it is the message of the
      last such call; likewise for echoes. */
  lemma ReplayKeepsLast<P>(calls: seq<UserCall<P>>)
    ensures var u := Replay(NoRequests(), calls);
            && (u.broadcast.None? <==> forall i | 0 <= i < |calls| :: !calls[i].CallBroadcast?)
            && (u.broadcast.Some? ==>
                  exists i | 0 <= i < |calls| ::
                    calls[i] == CallBroadcast(u.broadcast.value)
                    && forall j | i < j < |calls| :: !calls[j].CallBroadcast?)
            && (u.echo.None? <==> forall i | 0 <= i < |calls| :: !calls[i].CallEcho?)
            && (u.echo.Some? ==>
                  exists i | 0 <= i < |calls| ::
                    calls[i] == CallEcho(u.echo.value)
                    && forall j | i < j < |calls| :: !calls[j].CallEcho?)
  {
    ReplayKeepsLastBroadcast(calls);
    ReplayKeepsLastEcho(calls);
  }

  /** The broadcast half of `ReplayKeepsLast`. */
  lemma {:induction false} ReplayKeepsLastBroadcast<P>(calls: seq<UserCall<P>>)
    ensures var u := Replay(NoRequests(), calls);
            && (u.broadcast.None? <==> forall i | 0 <= i < |calls| :: !calls[i].CallBroadcast?)
            && (u.broadcast.Some? ==>
                  exists i | 0 <= i < |calls| ::
                    calls[i] == CallBroadcast(u.broadcast.value)
                    && forall j | i < j < |calls| :: !calls[j].CallBroadcast?)
    decreases |calls|
  {
    if calls != [] {
      var init := calls[..|calls| - 1];
      ReplayKeepsLastBroadcast(init);
      var u0 := Replay(NoRequests(), init);
      var u := Replay(NoRequests(), calls);
      assert forall i | 0 <= i < |init| :: calls[i] == init[i];
      if !calls[|calls| - 1].CallBroadcast? {
        assert u.broadcast == u0.broadcast;
        if u.broadcast.Some? {
          var i :| 0 <= i < |init| && init[i] == CallBroadcast(u0.broadcast.value)
                   && forall j | i < j < |init| :: !init[j].CallBroadcast?;
          assert calls[i] == CallBroadcast(u.broadcast.value);
        }
      }
    }
  }

  /** The echo half of `ReplayKeepsLast`. */
  lemma {:induction false} ReplayKeepsLastEcho<P>(calls: seq<UserCall<P>>)
    ensures var u := Replay(NoRequests(), calls);
            && (u.echo.None? <==> forall i | 0 <= i < |calls| :: !calls[i].CallEcho?)
            && (u.echo.Some? ==>
                  exists i | 0 <= i < |calls| ::
                    calls[i] == CallEcho(u.echo.value)
                    && forall j | i < j < |calls| :: !calls[j].CallEcho?)
    decreases |calls|
  {
    if calls != [] {
      var init := calls[..|calls| - 1];
      ReplayKeepsLastEcho(init);
      var u0 := Replay(NoRequests(), init);
      var u := Replay(NoRequests(), calls);
      assert forall i | 0 <= i < |init| :: calls[i] == init[i];
      if !calls[|calls| - 1].CallEcho? {
        assert u.echo == u0.echo;
        if u.echo.Some? {
          var i :| 0 <= i < |init| && init[i] == CallEcho(u0.echo.value)
                   && forall j | i < j < |init| :: !init[j].CallEcho?;
          assert calls[i] == CallEcho(u.echo.value);
        }
      }
    }
  }

  class User<P> {
    const token: Token
    var broadcast: Option<P>
    var echo: Option<P>

    function Value(): Requests<P>
      reads this
    {
      Requests(broadcast, echo)
    }

    /** `User::new`: no requests yet (the channel it carries is not modelled). */
    constructor (token: Token)
      ensures this.token == token && Value() == NoRequests()
    {
      this.token := token;
      broadcast := None;
      echo := None;
    }

    /** `broadcast`: replaces any earlier broadcast request. */
    method Broadcast(message: P)
      modifies this
      ensures Value() == Called(old(Value()), CallBroadcast(message))
    {
      broadcast := Some(message);
    }

    /** `echo`: replaces any earlier echo request. */
    method Echo(message: P)
      modifies this
      ensures Value() == Called(old(Value()), CallEcho(message))
    {
      echo := Some(message);
    }
  }

  /** The handler's calls, made on `user` in order. */
  method RunHandler<P>(user: User<P>, calls: seq<UserCall<P>>)
    modifies user
    ensures user.Value() == Replay(old(user.Value()), calls)
  {
    for i := 0 to |calls|
      invariant user.Value() == Replay(old(user.Value()), calls[..i])
    {
      assert calls[..i + 1][..i] == calls[..i];
      match calls[i] {
        case CallBroadcast(m) => user.Broadcast(m);
        case CallEcho(m) => user.Echo(m);
      }
    }
    assert calls[..|calls|] == calls;
  }

  // ---------------------------------------------------------------------------
  // The worker, as a specification on values

  /** A message put on a peer worker's channel. */
  datatype PeerSend<P> = PeerSend(peer: nat, message: P)

  /** A worker's state: its connection table and what it has sent to its peers. */
  datatype WorkerState<P> = WorkerState(connections: Table, outbox: seq<PeerSend<P>>)

  /** A worker's state after handling something, and how the handling ended. */
  datatype After<P> = After(state: WorkerState<P>, outcome: Outcome)

  /** What a worker is given at start: the indices of its peers, the serialiser of its
      messages, and its handler's reactions to client messages and to notifications. */
  datatype Setup<!P, !M> = Setup(peers: seq<nat>, codec: Codec<P>,
                               recv: P -> seq<UserCall<P>>, notify: M -> seq<UserCall<P>>)

  /** The messages a worker's channel carries. */
  datatype WorkerMessage<P, M> = NewConnection | HandlerMessage(token: Token, message: M) | Broadcast(proto: P)

  function Forwarded<P>(peers: seq<nat>, proto: P): (r: seq<PeerSend<P>>)
    ensures |r| == |peers| && forall i | 0 <= i < |peers| :: r[i] == PeerSend(peers[i], proto)
  {
    seq(|peers|, i requires 0 <= i < |peers| => PeerSend(peers[i], proto))
  }

  /** `broadcast_local`: the framed message delivered to every connection. */
  function BroadcastLocalSpec<P>(s: WorkerState<P>, codec: Codec<P>, proto: P, ok: Token -> bool): (r: WorkerState<P>)
    ensures r.connections.Keys <= s.connections.Keys && r.outbox == s.outbox
    ensures WellFormed(s.connections) ==> WellFormed(r.connections)
  {
    DeliveredReachesHealthy(s.connections, ToBytes(proto, codec), ok);
    s.(connections := Delivered(s.connections, ToBytes(proto, codec), ok))
  }

  /** `broadcast`: the message sent to every peer, then delivered locally. */
  function BroadcastSpec<P>(s: WorkerState<P>, peers: seq<nat>, codec: Codec<P>, proto: P, ok: Token -> bool): WorkerState<P>
  {
    BroadcastLocalSpec(s.(outbox := s.outbox + Forwarded(peers, proto)), codec, proto, ok)
  }

  /** `perform_requests`: the broadcast first, then the echo to the user's own connection,
      which is reset if its re-registration fails. Indexing the table at a token the
      broadcast has just reset panics. */
  function Performed<P, M>(s: WorkerState<P>, setup: Setup<P, M>, token: Token, user: Requests<P>,
                           ok: Token -> bool): (r: After<P>)
    ensures r.outcome == Completed || r.outcome == Panicked(NoSuchConnection)
    ensures r.state.connections.Keys <= s.connections.Keys
    ensures WellFormed(s.connections) ==> WellFormed(r.state.connections)
    ensures user.broadcast.None? ==> r.state.outbox == s.outbox
    ensures user.broadcast.Some? ==> r.state.outbox == s.outbox + Forwarded(setup.peers, user.broadcast.value)
  {
    var s1 := if user.broadcast.Some? then BroadcastSpec(s, setup.peers, setup.codec, user.broadcast.value, ok) else s;
    if user.echo.None? then After(s1, Completed)
    else if token !in s1.connections then After(s1, Panicked(NoSuchConnection))
    else if ok(token) then
      var echoed := Enqueued(s1.connections[token], ToBytes(user.echo.value, setup.codec));
      After(s1.(connections := s1.connections[token := echoed]), Completed)
    else After(s1.(connections := Reset(s1.connections, token)), Completed)
  }

  /** One message of `readable`: one that does not parse is skipped; any other runs the
      handler and then `perform_requests`. */
  function MessageHandled<P, M>(s: WorkerState<P>, setup: Setup<P, M>, token: Token,
                               message: seq<Byte>, ok: Token -> bool): (r: After<P>)
    ensures r.outcome == Completed || r.outcome == Panicked(NoSuchConnection)
    ensures r.state.connections.Keys <= s.connections.Keys
    ensures WellFormed(s.connections) ==> WellFormed(r.state.connections)
    ensures FromBytes(message, setup.codec).Err? ==> r == After(s, Completed)
  {
    match FromBytes(message, setup.codec)
    case Err(_) => After(s, Completed)
    case Ok(proto) => Performed(s, setup, token, Replay(NoRequests(), setup.recv(proto)), ok)
  }

  /** The loop of `readable` over the deframed messages, up to the first panic. */
  function HandleMessages<P, M>(s: WorkerState<P>, setup: Setup<P, M>, token: Token,
                                messages: seq<seq<Byte>>, ok: Token -> bool): (r: After<P>)
    ensures r.outcome == Completed || r.outcome == Panicked(NoSuchConnection)
    ensures r.state.connections.Keys <= s.connections.Keys
    ensures WellFormed(s.connections) ==> WellFormed(r.state.connections)
    decreases |messages|
  {
    if messages == [] then After(s, Completed)
    else
      var a := MessageHandled(s, setup, token, messages[0], ok);
      if a.outcome.Panicked? then a else HandleMessages(a.state, setup, token, messages[1..], ok)
  }

  /** The messages that parse, in order. */
  function Parsable<P>(messages: seq<seq<Byte>>, codec: Codec<P>): (r: seq<seq<Byte>>)
    ensures |r| <= |messages|
    ensures forall m | m in r :: m in messages && FromBytes(m, codec).Ok?
    decreases |messages|
  {
    if messages == [] then []
    else if FromBytes(messages[0], codec).Ok? then [messages[0]] + Parsable(messages[1..], codec)
    else Parsable(messages[1..], codec)
  }

  /** Malformed messages have no effect at all: handling a batch is handling the
      messages in it that parse. */
  lemma {:induction false} MalformedSkipped<P, M>(s: WorkerState<P>, setup: Setup<P, M>, token: Token,
                                                 messages: seq<seq<Byte>>, ok: Token -> bool)
    ensures HandleMessages(s, setup, token, messages, ok)
            == HandleMessages(s, setup, token, Parsable(messages, setup.codec), ok)
    decreases |messages|
  {
    if messages != [] {
      var p := Parsable(messages[1..], setup.codec);
      MalformedSkipped(s, setup, token, messages[1..], ok);
      if FromBytes(messages[0], setup.codec).Ok? {
        assert ([messages[0]] + p)[0] == messages[0];
        assert ([messages[0]] + p)[1..] == p;
        var a := MessageHandled(s, setup, token, messages[0], ok);
        MalformedSkipped(a.state, setup, token, messages[1..], ok);
      }
    }
  }

  /** `readable`: the connection's read, then the messages handled; a read error is
      returned with the deframer untouched. */
  function ReadableSpec<P, M>(s: WorkerState<P>, setup: Setup<P, M>, token: Token,
                              recv: nat -> ReadResult, ok: Token -> bool): (r: After<P>)
    ensures r.outcome.Errored? || r.outcome == Completed || r.outcome == Panicked(NoSuchConnection)
    ensures r.state.connections.Keys <= s.connections.Keys
    ensures WellFormed(s.connections) ==> WellFormed(r.state.connections)
    ensures r.outcome.Errored? ==> r.state == s && Received([], recv, 0) == Err(r.outcome.error)
  {
    if token !in s.connections then After(s, Panicked(NoSuchConnection))
    else
      var (c, res) := ReadConn(s.connections[token], recv);
      match res
      case Err(e) => After(s, Errored(e))
      case Ok(messages) => HandleMessages(s.(connections := s.connections[token := c]), setup, token, messages, ok)
  }

  /** The writable branch of `ready`: `writable`, then a re-registration; either failing
      resets the connection. */
  function WriteEvent<P>(s: WorkerState<P>, token: Token, respond: nat -> WriteResult,
                         ok: Token -> bool): (r: After<P>)
    ensures r.outcome == Completed || r.outcome == Panicked(NoSuchConnection)
    ensures r.outcome.Panicked? <==> token !in s.connections
    ensures r.state.connections.Keys <= s.connections.Keys && r.state.outbox == s.outbox
    ensures WellFormed(s.connections) ==> WellFormed(r.state.connections)
  {
    if token !in s.connections then After(s, Panicked(NoSuchConnection))
    else
      var (c, status) := AfterWritable(s.connections[token], respond);
      if status.Done? && ok(token) then After(s.(connections := s.connections[token := c]), Completed)
      else After(s.(connections := Reset(s.connections, token)), Completed)
  }

  /** The readable branch of `ready`: `readable`, then a re-registration, which indexes
      the table again; an error from either resets the connection. */
  function ReadEvent<P, M>(s: WorkerState<P>, setup: Setup<P, M>, token: Token,
                           recv: nat -> ReadResult, ok: Token -> bool): (r: After<P>)
    ensures r.outcome == Completed || r.outcome == Panicked(NoSuchConnection)
    ensures r.state.connections.Keys <= s.connections.Keys
    ensures WellFormed(s.connections) ==> WellFormed(r.state.connections)
  {
    var a := ReadableSpec(s, setup, token, recv, ok);
    match a.outcome
    case Panicked(_) => a
    case Errored(_) => After(a.state.(connections := Reset(a.state.connections, token)), Completed)
    case Completed =>
      if token !in a.state.connections then After(a.state, Panicked(NoSuchConnection))
      else if ok(token) then a
      else After(a.state.(connections := Reset(a.state.connections, token)), Completed)
  }

  /** `ready` on a worker. */
  function ReadySpec<P, M>(s: WorkerState<P>, setup: Setup<P, M>, token: Token, events: EventSet,
                           respond: nat -> WriteResult, recv: nat -> ReadResult,
                           ok: Token -> bool): (r: After<P>)
    ensures r.outcome.Completed? || r.outcome.Panicked?
    ensures token == 0 ==> r == After(s, Panicked(ZeroToken))
    ensures token != 0 && (Error in events || Hup in events) ==>
              r == After(s.(connections := Reset(s.connections, token)), Completed)
    ensures r.state.connections.Keys <= s.connections.Keys
    ensures WellFormed(s.connections) ==> WellFormed(r.state.connections)
  {
    if token == 0 then After(s, Panicked(ZeroToken))
    else if Error in events || Hup in events then After(s.(connections := Reset(s.connections, token)), Completed)
    else
      var w := if Writable in events then WriteEvent(s, token, respond, ok) else After(s, Completed);
      if w.outcome.Panicked? || Readable !in events then w
      else ReadEvent(w.state, setup, token, recv, ok)
  }

  /** `notify` on a worker: a new socket is accepted, a handler message runs the handler's
      `notify` and then `perform_requests`, and a peer's broadcast is delivered locally
      only, never forwarded again. */
  function NotifySpec<P, M>(s: WorkerState<P>, setup: Setup<P, M>, msg: WorkerMessage<P, M>,
                            slot: Option<Token>, registerOk: bool, ok: Token -> bool): (r: After<P>)
    requires slot.Some? ==> slot.value !in s.connections
    ensures r.outcome == Completed || r.outcome == Panicked(NoSuchConnection)
    ensures !msg.NewConnection? ==> r.state.connections.Keys <= s.connections.Keys
    ensures msg.Broadcast? ==> r.state.outbox == s.outbox
    ensures WellFormed(s.connections) ==> WellFormed(r.state.connections)
  {
    match msg
    case NewConnection => After(s.(connections := Accepted(s.connections, slot, registerOk)), Completed)
    case HandlerMessage(token, m) => Performed(s, setup, token, Replay(NoRequests(), setup.notify(m)), ok)
    case Broadcast(proto) => After(BroadcastLocalSpec(s, setup.codec, proto, ok), Completed)
  }

  /** The broadcast is queued before the echo: a user asking for both, whose connection
      stays healthy, finds the broadcast and then the echo at the end of its own queue. */
  lemma BroadcastBeforeEcho<P, M>(s: WorkerState<P>, setup: Setup<P, M>, token: Token,
                                  b: P, e: P, ok: Token -> bool)
    requires token in s.connections && ok(token)
    ensures var r := Performed(s, setup, token, Requests(Some(b), Some(e)), ok);
            && r.outcome == Completed && token in r.state.connections
            && r.state.connections[token].sendQueue
               == s.connections[token].sendQueue + [ToBytes(b, setup.codec), ToBytes(e, setup.codec)]
  {
  }

  /** A user asking for a broadcast and an echo whose own re-registration fails during
      the broadcast loses its connection there, and the echo then panics the worker. */
  lemma EchoAfterOwnResetPanics<P, M>(s: WorkerState<P>, setup: Setup<P, M>, token: Token,
                                      b: P, e: P, ok: Token -> bool)
    requires token in s.connections && !ok(token)
    ensures Performed(s, setup, token, Requests(Some(b), Some(e)), ok).outcome == Panicked(NoSuchConnection)
  {
  }

  /** With both writable and readable set, a failed write resets the connection and the
      readable branch then panics on the missing entry. */
  lemma FailedWriteThenReadPanics<P, M>(s: WorkerState<P>, setup: Setup<P, M>, token: Token,
                                        events: EventSet, respond: nat -> WriteResult,
                                        recv: nat -> ReadResult, ok: Token -> bool)
    requires token != 0 && Error !in events && Hup !in events
    requires Writable in events && Readable in events
    requires token in s.connections && !ok(token)
    ensures ReadySpec(s, setup, token, events, respond, recv, ok).outcome == Panicked(NoSuchConnection)
  {
  }

  // ---------------------------------------------------------------------------
  // The worker object

  class Worker<P, M> {
    const id: nat
    const setup: Setup<P, M>
    var connections: Table
    var outbox: seq<PeerSend<P>>

    function State(): WorkerState<P>
      reads this
    {
      WorkerState(connections, outbox)
    }

    /** Every connection knows its token, and every token lies in the slab's range. */
    ghost predicate Valid()
      reads this
    {
      && id > 0 && WellFormed(connections)
      && forall k | k in connections :: FirstConnToken(id) <= k < FirstConnToken(id) + PB_CAPACITY
    }

    /** `Worker::new`: panics unless `id > 0`; the table numbers tokens from `100 * id`. */
    constructor (id: nat, setup: Setup<P, M>)
      requires id > 0
      ensures Valid() && this.id == id && this.setup == setup
      ensures State() == WorkerState(map[], [])
    {
      this.id := id;
      this.setup := setup;
      connections := map[];
      outbox := [];
    }

    /** `accept`: `slot` is the token `insert_with` finds, or `None` when the slab is full. */
    method Accept(slot: Option<Token>, registerOk: bool)
      requires Valid()
      requires slot.Some? ==> slot.value !in connections
      requires slot.Some? ==> FirstConnToken(id) <= slot.value < FirstConnToken(id) + PB_CAPACITY
      modifies this
      ensures Valid()
      ensures connections == Accepted(old(connections), slot, registerOk) && outbox == old(outbox)
    {
      connections := Accepted(connections, slot, registerOk);
    }

    /** `reset_connection`. */
    method ResetConnection(token: Token)
      requires Valid()
      modifies this
      ensures Valid()
      ensures connections == Reset(old(connections), token) && outbox == old(outbox)
    {
      connections := Reset(connections, token);
    }

    /** `broadcast_local`. */
    method BroadcastLocal(proto: P, ok: Token -> bool)
      requires Valid()
      modifies this
      ensures Valid()
      ensures State() == BroadcastLocalSpec(old(State()), setup.codec, proto, ok)
    {
      connections := Connections.BroadcastLocal(connections, ToBytes(proto, setup.codec), ok);
    }

    /** `broadcast`: a copy to every peer (a failed send is only logged), then local delivery. */
    method Broadcast(proto: P, ok: Token -> bool)
      requires Valid()
      modifies this
      ensures Valid()
      ensures State() == BroadcastSpec(old(State()), setup.peers, setup.codec, proto, ok)
    {
      for i := 0 to |setup.peers|
        invariant outbox == old(outbox) + Forwarded(setup.peers[..i], proto)
        invariant connections == old(connections)
      {
        assert setup.peers[..i + 1] == setup.peers[..i] + [setup.peers[i]];
        outbox := outbox + [PeerSend(setup.peers[i], proto)];
      }
      assert setup.peers[..|setup.peers|] == setup.peers;
      BroadcastLocal(proto, ok);
    }

    /** `perform_requests`. */
    method PerformRequests(token: Token, user: User<P>, ok: Token -> bool) returns (outcome: Outcome)
      requires Valid()
      modifies this
      ensures Valid()
      ensures After(State(), outcome) == Performed(old(State()), setup, token, user.Value(), ok)
    {
      if user.broadcast.Some? {
        Broadcast(user.broadcast.value, ok);
      }
      if user.echo.Some? {
        if token !in connections {
          return Panicked(NoSuchConnection);
        }
        if ok(token) {
          connections := connections[token := Enqueued(connections[token], ToBytes(user.echo.value, setup.codec))];
        } else {
          ResetConnection(token);
        }
      }
      outcome := Completed;
    }

    /** `readable`. */
    method Readable(token: Token, recv: nat -> ReadResult, ok: Token -> bool) returns (outcome: Outcome)
      requires Valid()
      modifies this
      ensures Valid()
      ensures After(State(), outcome) == ReadableSpec(old(State()), setup, token, recv, ok)
    {
      if token !in connections {
        return Panicked(NoSuchConnection);
      }
      var (c, res) := ReadConn(connections[token], recv);
      if res.Err? {
        return Errored(res.error);
      }
      connections := connections[token := c];
      outcome := HandleAll(token, res.value, ok);
    }

    /** The loop of `readable` over the deframed messages, up to the first panic. */
    method HandleAll(token: Token, messages: seq<seq<Byte>>, ok: Token -> bool) returns (outcome: Outcome)
      requires Valid()
      modifies this
      ensures Valid()
      ensures After(State(), outcome) == HandleMessages(old(State()), setup, token, messages, ok)
    {
      for i := 0 to |messages|
        invariant Valid()
        invariant HandleMessages(State(), setup, token, messages[i..], ok)
                  == HandleMessages(old(State()), setup, token, messages, ok)
      {
        assert messages[i..][1..] == messages[i + 1..];
        outcome := HandleMessage(token, messages[i], ok);
        if outcome.Panicked? {
          return;
        }
      }
      outcome := Completed;
    }

    /** One message of `readable`: parsed, given to the handler with a fresh `User`, and
        the user's requests performed. */
    method HandleMessage(token: Token, message: seq<Byte>, ok: Token -> bool) returns (outcome: Outcome)
      requires Valid()
      modifies this
      ensures Valid()
      ensures After(State(), outcome) == MessageHandled(old(State()), setup, token, message, ok)
    {
      match FromBytes(message, setup.codec) {
        case Err(_) =>
          outcome := Completed;
        case Ok(proto) =>
          var user := new User(token);
          RunHandler(user, setup.recv(proto));
          outcome := PerformRequests(token, user, ok);
      }
    }

    /** `ready`. */
    method Ready(token: Token, events: EventSet, respond: nat -> WriteResult,
                 recv: nat -> ReadResult, ok: Token -> bool) returns (outcome: Outcome)
      requires Valid()
      modifies this
      ensures Valid()
      ensures After(State(), outcome) == ReadySpec(old(State()), setup, token, events, respond, recv, ok)
    {
      if token == 0 {
        return Panicked(ZeroToken);
      }
      if Error in events || Hup in events {
        ResetConnection(token);
        return Completed;
      }
      if Writable in events {
        if token !in connections {
          return Panicked(NoSuchConnection);
        }
        var (c, status) := AfterWritable(connections[token], respond);
        if status.Done? && ok(token) {
          connections := connections[token := c];
        } else {
          ResetConnection(token);
        }
      }
      if Connections.Ready.Readable in events {
        outcome := Readable(token, recv, ok);
        match outcome {
          case Panicked(_) =>
            return;
          case Errored(_) =>
            ResetConnection(token);
          case Completed =>
            if token !in connections {
              return Panicked(NoSuchConnection);
            }
            if !ok(token) {
              ResetConnection(token);
            }
        }
      }
      outcome := Completed;
    }

    /** `notify`. */
    method Notify(msg: WorkerMessage<P, M>, slot: Option<Token>, registerOk: bool, ok: Token -> bool)
      returns (outcome: Outcome)
      requires Valid()
      requires slot.Some? ==> slot.value !in connections
      requires slot.Some? ==> FirstConnToken(id) <= slot.value < FirstConnToken(id) + PB_CAPACITY
      modifies this
      ensures Valid()
      ensures After(State(), outcome) == NotifySpec(old(State()), setup, msg, slot, registerOk, ok)
    {
      match msg {
        case NewConnection =>
          Accept(slot, registerOk);
          outcome := Completed;
        case HandlerMessage(token, m) =>
          var user := new User(token);
          RunHandler(user, setup.notify(m));
          outcome := PerformRequests(token, user, ok);
        case Broadcast(proto) =>
          BroadcastLocal(proto, ok);
          outcome := Completed;
      }
    }
  }

  /** `Worker::start`: `n` workers with ids `1..n`, each given every other worker as a peer. */
  method Start<P, M>(n: nat, codec: Codec<P>, recv: P -> seq<UserCall<P>>, notify: M -> seq<UserCall<P>>)
    returns (workers: seq<Worker<P, M>>)
    requires n > 0
    ensures |workers| == n
    ensures forall i | 0 <= i < n ::
              && fresh(workers[i]) && workers[i].Valid() && workers[i].id == i + 1
              && workers[i].setup == Setup(Peers(n, i), codec, recv, notify)
              && workers[i].State() == WorkerState(map[], [])
  {
    workers := [];
    for id := 0 to n
      invariant |workers| == id
      invariant forall i | 0 <= i < id ::
                  && fresh(workers[i]) && workers[i].Valid() && workers[i].id == i + 1
                  && workers[i].setup == Setup(Peers(n, i), codec, recv, notify)
                  && workers[i].State() == WorkerState(map[], [])
    {
      var w := new Worker(id + 1, Setup(Peers(n, id), codec, recv, notify));
      workers := workers + [w];
    }
  }
}
