/** The chat worker of src/worker.rs: each worker owns the connections of one event loop,
    re-encodes every post it receives and broadcasts it to all of its connections. It
    has no peers: a post reaches only the clients of the worker that received it. Its
    connections are those of src/web/connection.rs (single-pop `writable`). */
module ChatWorker {
  import opened Bytes
  import opened Io
  import opened Chunking
  import opened Connections
  import opened WebConnection
  import opened ChatPost
  import opened Layout

  /** The table after handling something, and how the handling ended. */
  datatype After = After(connections: Table, outcome: Outcome)

  /** The messages of the worker's channel: a socket to adopt, or the output of a shell
      task (its text, sent as the bytes of the string). */
  datatype WorkerMessage = NewConnection | TaskFinished(result: seq<Byte>)

  /** One message of `readable`: one that does not parse as a post is skipped; any other
      post is re-encoded by `into_bytes` and broadcast. */
  function PostHandled(t: Table, codec: Codec<ProtoPost>, message: seq<Byte>, ok: Token -> bool): (r: Table)
    ensures r.Keys <= t.Keys
    ensures WellFormed(t) ==> WellFormed(r)
    ensures FromBytes(message, codec).Err? ==> r == t
  {
    match FromBytes(message, codec)
    case Err(_) => t
    case Ok(post) =>
      DeliveredReachesHealthy(t, IntoBytes(post, codec), ok);
      Delivered(t, IntoBytes(post, codec), ok)
  }

  /** The loop of `readable` over the deframed messages. */
  function HandlePosts(t: Table, codec: Codec<ProtoPost>, messages: seq<seq<Byte>>, ok: Token -> bool): (r: Table)
    ensures r.Keys <= t.Keys
    ensures WellFormed(t) ==> WellFormed(r)
    decreases |messages|
  {
    if messages == [] then t
    else HandlePosts(PostHandled(t, codec, messages[0], ok), codec, messages[1..], ok)
  }

  /** The bytes broadcast for a batch of messages: the re-encoding of each one that
      parses, in order. */
  function Rebroadcast(codec: Codec<ProtoPost>, messages: seq<seq<Byte>>): seq<Buf>
    decreases |messages|
  {
    if messages == [] then []
    else
      match FromBytes(messages[0], codec)
      case Err(_) => Rebroadcast(codec, messages[1..])
      case Ok(post) => [IntoBytes(post, codec)] + Rebroadcast(codec, messages[1..])
  }

  /** Table `r` holds the connections of `t`, each with `bufs` appended to its queue. */
  predicate Appended(t: Table, r: Table, bufs: seq<Buf>)
  {
    && r.Keys == t.Keys
    && forall k | k in t :: r[k].sendQueue == t[k].sendQueue + bufs && r[k].token == t[k].token
  }

  /** Appending `a` and then `b` appends `a + b`. */
  lemma AppendedTwice(t: Table, t1: Table, r: Table, a: seq<Buf>, b: seq<Buf>)
    requires Appended(t, t1, a) && Appended(t1, r, b)
    ensures Appended(t, r, a + b)
  {
    forall k | k in t ensures r[k].sendQueue == t[k].sendQueue + (a + b) {
      assert t[k].sendQueue + a + b == t[k].sendQueue + (a + b);
    }
  }

  /** While every re-registration succeeds, each connection receives the re-encoded posts
      of the batch, in the order they arrived, and keeps its place in the table. */
  lemma {:induction false} PostsReachEveryone(t: Table, codec: Codec<ProtoPost>, messages: seq<seq<Byte>>,
                                              ok: Token -> bool)
    requires forall k | k in t :: ok(k)
    ensures Appended(t, HandlePosts(t, codec, messages, ok), Rebroadcast(codec, messages))
    decreases |messages|
  {
    if messages == [] {
      assert Appended(t, t, []) by {
        forall k | k in t ensures t[k].sendQueue + [] == t[k].sendQueue { }
      }
    } else {
      match FromBytes(messages[0], codec)
      case Err(_) =>
        PostsReachEveryone(t, codec, messages[1..], ok);
      case Ok(post) =>
        var bytes := IntoBytes(post, codec);
        var t1 := Delivered(t, bytes, ok);
        DeliveredReachesHealthy(t, bytes, ok);
        assert Appended(t, t1, [bytes]);
        PostsReachEveryone(t1, codec, messages[1..], ok);
        var h := HandlePosts(t1, codec, messages[1..], ok);
        var later := Rebroadcast(codec, messages[1..]);
        AppendedTwice(t, t1, h, [bytes], later);
        assert HandlePosts(t, codec, messages, ok) == h;
        assert Rebroadcast(codec, messages) == [bytes] + later;
    }
  }

  /** `readable`: the connection's read, then the posts broadcast; a read error is
      returned with nothing changed. */
  function ReadableSpec(t: Table, codec: Codec<ProtoPost>, token: Token, recv: nat -> ReadResult,
                        ok: Token -> bool): (r: After)
    ensures r.outcome.Errored? || r.outcome == Completed || r.outcome == Panicked(NoSuchConnection)
    ensures r.connections.Keys <= t.Keys
    ensures WellFormed(t) ==> WellFormed(r.connections)
    ensures r.outcome.Errored? ==> r.connections == t && Received([], recv, 0) == Err(r.outcome.error)
  {
    if token !in t then After(t, Panicked(NoSuchConnection))
    else
      var (c, res) := ReadConn(t[token], recv);
      match res
      case Err(e) => After(t, Errored(e))
      case Ok(messages) => After(HandlePosts(t[token := c], codec, messages, ok), Completed)
  }

  /** `ready` on a worker whose own token is `self`. */
  function ReadySpec(t: Table, codec: Codec<ProtoPost>, self: Token, token: Token, events: EventSet,
                     outcome: WriteResult, recv: nat -> ReadResult, ok: Token -> bool): (r: After)
    ensures r.outcome.Completed? || r.outcome.Panicked?
    ensures token == 0 ==> r == After(t, Panicked(ZeroToken))
    ensures token != 0 && (Error in events || Hup in events) ==> r == After(Reset(t, token), Completed)
    ensures token != 0 && Error !in events && Hup !in events && Writable in events && token == self ==>
              r == After(t, Panicked(WritableForServer))
    ensures r.connections.Keys <= t.Keys
    ensures WellFormed(t) ==> WellFormed(r.connections)
  {
    if token == 0 then After(t, Panicked(ZeroToken))
    else if Error in events then After(Reset(t, token), Completed)
    else if Hup in events then After(Reset(t, token), Completed)
    else
      var w :=
        if Writable !in events then After(t, Completed)
        else if self == token then After(t, Panicked(WritableForServer))
        else if token !in t then After(t, Panicked(NoSuchConnection))
        else
          var (c, status) := WriteOnce(t[token], outcome);
          if status.Done? && ok(token) then After(t[token := c], Completed)
          else After(Reset(t, token), Completed);
      if w.outcome.Panicked? || Readable !in events then w
      else
        var a := ReadableSpec(w.connections, codec, token, recv, ok);
        match a.outcome
        case Panicked(_) => a
        case Errored(_) => After(Reset(a.connections, token), Completed)
        case Completed =>
          if token !in a.connections then After(a.connections, Panicked(NoSuchConnection))
          else if ok(token) then a
          else After(Reset(a.connections, token), Completed)
  }

  /** The connection of `src/worker.rs` is the single-pop one: a partly written buffer is
      dropped here too, so a writable event can lose the tail of a framed post. */
  lemma WritableDropsPartialPost(t: Table, codec: Codec<ProtoPost>, self: Token, token: Token,
                                 n: nat, recv: nat -> ReadResult, ok: Token -> bool)
    requires token != 0 && token != self && token in t && ok(token)
    requires |t[token].sendQueue| == 1 && n < |t[token].sendQueue[0]|
    ensures var r := ReadySpec(t, codec, self, token, {Writable}, Wrote(n), recv, ok);
            && r.outcome == Completed && token in r.connections
            && r.connections[token].sendQueue == []
            && r.connections[token].interest == t[token].interest - {Writable}
  {
  }

  class Worker {
    const id: nat
    const token: Token
    const codec: Codec<ProtoPost>
    var connections: Table

    /** Every connection knows its token, and every token lies in the slab's range. */
    ghost predicate Valid()
      reads this
    {
      && id > 0 && token == WorkerToken(id) && WellFormed(connections)
      && forall k | k in connections :: FirstConnToken(id) <= k < FirstConnToken(id) + CHAT_CAPACITY
    }

    /** `Worker::new`: panics unless `id > 0`; the worker's token is `100 * id - 1` and the
        table numbers tokens from the next one. */
    constructor (id: nat, codec: Codec<ProtoPost>)
      requires id > 0
      ensures Valid() && this.id == id && this.codec == codec
      ensures token == 100 * id - 1 && connections == map[]
    {
      this.id := id;
      this.codec := codec;
      token := 100 * id - 1;
      connections := map[];
    }

    /** `accept`: `slot` is the token `insert_with` finds, or `None` when the slab is full. */
    method Accept(slot: Option<Token>, registerOk: bool)
      requires Valid()
      requires slot.Some? ==> slot.value !in connections
      requires slot.Some? ==> FirstConnToken(id) <= slot.value < FirstConnToken(id) + CHAT_CAPACITY
      modifies this
      ensures Valid()
      ensures connections == Accepted(old(connections), slot, registerOk)
    {
      connections := Accepted(connections, slot, registerOk);
    }

    /** `reset_connection`. */
    method ResetConnection(token: Token)
      requires Valid()
      modifies this
      ensures Valid()
      ensures connections == Reset(old(connections), token)
    {
      connections := Reset(connections, token);
    }

    /** `broadcast`. */
    method Broadcast(message: Buf, ok: Token -> bool)
      requires Valid()
      modifies this
      ensures Valid()
      ensures connections == Delivered(old(connections), message, ok)
    {
      DeliveredReachesHealthy(connections, message, ok);
      connections := BroadcastLocal(connections, message, ok);
    }

    /** `readable`. */
    method Readable(token: Token, recv: nat -> ReadResult, ok: Token -> bool) returns (outcome: Outcome)
      requires Valid()
      modifies this
      ensures Valid()
      ensures After(connections, outcome) == ReadableSpec(old(connections), codec, token, recv, ok)
    {
      if token !in connections {
        return Panicked(NoSuchConnection);
      }
      ghost var goal := ReadableSpec(connections, codec, token, recv, ok);
      var (c, res) := ReadConn(connections[token], recv);
      if res.Err? {
        return Errored(res.error);
      }
      connections := connections[token := c];
      var messages := res.value;
      assert goal == After(HandlePosts(connections, codec, messages, ok), Completed);
      for i := 0 to |messages|
        invariant Valid()
        invariant HandlePosts(connections, codec, messages[i..], ok) == goal.connections
      {
        assert messages[i..][1..] == messages[i + 1..];
        HandlePost(messages[i], ok);
      }
      outcome := Completed;
    }

    /** One message of `readable`: parsed as a post, re-encoded and broadcast. */
    method HandlePost(message: seq<Byte>, ok: Token -> bool)
      requires Valid()
      modifies this
      ensures Valid()
      ensures connections == PostHandled(old(connections), codec, message, ok)
    {
      match FromBytes(message, codec) {
        case Err(_) =>
        case Ok(post) =>
          var resp := IntoBytes(post, codec);
          Broadcast(resp, ok);
      }
    }

    /** `ready`. */
    method Ready(token: Token, events: EventSet, outcome: WriteResult, recv: nat -> ReadResult,
                 ok: Token -> bool) returns (result: Outcome)
      requires Valid()
      modifies this
      ensures Valid()
      ensures After(connections, result) == ReadySpec(old(connections), codec, this.token, token, events, outcome, recv, ok)
    {
      if token == 0 {
        return Panicked(ZeroToken);
      }
      if Error in events {
        ResetConnection(token);
        return Completed;
      }
      if Hup in events {
        ResetConnection(token);
        return Completed;
      }
      if Writable in events {
        if this.token == token {
          return Panicked(WritableForServer);
        }
        if token !in connections {
          return Panicked(NoSuchConnection);
        }
        var (c, status) := WriteOnce(connections[token], outcome);
        if status.Done? && ok(token) {
          connections := connections[token := c];
        } else {
          ResetConnection(token);
        }
      }
      if Connections.Ready.Readable in events {
        result := Readable(token, recv, ok);
        match result {
          case Panicked(_) =>
            return;
          case Errored(_) =>
            ResetConnection(token);
          case Completed =>
            if token !in connections {
              return Panicked(NoSuchConnection);
            }
            if !ok(token) {
              ResetConnection(token);
            }
        }
      }
      result := Completed;
    }

    /** `notify`: adopt a socket, or broadcast a shell task's output as it is. */
    method Notify(msg: WorkerMessage, slot: Option<Token>, registerOk: bool, ok: Token -> bool)
      requires Valid()
      requires slot.Some? ==> slot.value !in connections
      requires slot.Some? ==> FirstConnToken(id) <= slot.value < FirstConnToken(id) + CHAT_CAPACITY
      modifies this
      ensures Valid()
      ensures msg.NewConnection? ==> connections == Accepted(old(connections), slot, registerOk)
      ensures msg.TaskFinished? ==> connections == Delivered(old(connections), msg.result, ok)
    {
      match msg {
        case NewConnection =>
          Accept(slot, registerOk);
        case TaskFinished(result) =>
          Broadcast(result, ok);
      }
    }
  }

  /** `Worker::start`: `n` workers with ids `1..n` and no peers. */
  method Start(n: nat, codec: Codec<ProtoPost>) returns (workers: seq<Worker>)
    requires n > 0
    ensures |workers| == n
    ensures forall i | 0 <= i < n ::
              fresh(workers[i]) && workers[i].Valid() && workers[i].id == i + 1 && workers[i].connections == map[]
  {
    workers := [];
    for id := 0 to n
      invariant |workers| == id
      invariant forall i | 0 <= i < id ::
                  fresh(workers[i]) && workers[i].Valid() && workers[i].id == i + 1 && workers[i].connections == map[]
    {
      var w := new Worker(id + 1, codec);
      workers := workers + [w];
    }
  }
}
