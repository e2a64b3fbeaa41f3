/** The worker of src/web/worker.rs: like the chat worker it owns the connections of one
    event loop, but it knows its peers, forwards every broadcast post to them, and sends
    a post whose text starts with "/" to the shell as a command instead of broadcasting
    it. Posts are the `Post` of src/post.rs; the author this file reads is its `login`. */
module WebWorker {
  import opened Bytes
  import opened Io
  import opened Chunking
  import opened Connections
  import opened WebConnection
  import opened ChatPost
  import opened Layout

  /** A command for the shell: the user who asked and the command line. */
  datatype Task = Task(user: string, cmd: string)

  /** A post put on a peer worker's channel (`Message::NewPost`). */
  datatype PeerPost = PeerPost(peer: nat, post: Post)

  /** A worker's state: its table, what it sent to its peers, and what it sent to the shell. */
  datatype WorkerState = WorkerState(connections: Table, outbox: seq<PeerPost>, tasks: seq<Task>)

  datatype After = After(state: WorkerState, outcome: Outcome)

  /** The messages of the worker's channel. */
  datatype WorkerMessage = NewConnection | TaskFinished(user: string, result: string) | NewPost(post: Post)

  /** A text is a command when it is not empty and starts with "/". */
  predicate IsCommand(text: string)
  {
    |text| > 0 && text[0] == '/'
  }

  /** The shell task for a command post: its author, and its text without the "/". */
  function TaskOf(post: Post): (t: Task)
    requires IsCommand(post.text)
    ensures t.user == post.login && "/" + t.cmd == post.text
  {
    assert "/" + post.text[1..] == post.text;
    Task(post.login, post.text[1..])
  }

  function Forwarded(peers: seq<nat>, post: Post): (r: seq<PeerPost>)
    ensures |r| == |peers| && forall i | 0 <= i < |peers| :: r[i] == PeerPost(peers[i], post)
  {
    seq(|peers|, i requires 0 <= i < |peers| => PeerPost(peers[i], post))
  }

  /** `broadcast_local`: the bytes delivered to every connection. */
  function BroadcastLocalSpec(s: WorkerState, message: Buf, ok: Token -> bool): (r: WorkerState)
    ensures r.connections.Keys <= s.connections.Keys && r.outbox == s.outbox && r.tasks == s.tasks
    ensures WellFormed(s.connections) ==> WellFormed(r.connections)
  {
    DeliveredReachesHealthy(s.connections, message, ok);
    s.(connections := Delivered(s.connections, message, ok))
  }

  /** `broadcast`: the post to every peer, then its `into_bytes` delivered locally. */
  function BroadcastSpec(s: WorkerState, peers: seq<nat>, codec: Codec<ProtoPost>, post: Post,
                         ok: Token -> bool): (r: WorkerState)
    ensures r.connections.Keys <= s.connections.Keys && r.tasks == s.tasks
    ensures r.outbox == s.outbox + Forwarded(peers, post)
    ensures WellFormed(s.connections) ==> WellFormed(r.connections)
  {
    BroadcastLocalSpec(s.(outbox := s.outbox + Forwarded(peers, post)), IntoBytes(post, codec), ok)
  }

  /** One post read from a client: a command goes to the shell (a failed send is only
      logged), anything else is broadcast. */
  function Route(s: WorkerState, peers: seq<nat>, codec: Codec<ProtoPost>, post: Post,
                 ok: Token -> bool): (r: WorkerState)
    ensures IsCommand(post.text) ==> r == s.(tasks := s.tasks + [TaskOf(post)])
    ensures !IsCommand(post.text) ==> r == BroadcastSpec(s, peers, codec, post, ok)
  {
    if IsCommand(post.text) then s.(tasks := s.tasks + [TaskOf(post)])
    else BroadcastSpec(s, peers, codec, post, ok)
  }

  /** The loop of `readable`: posts that do not parse are skipped, the others routed. */
  function HandlePosts(s: WorkerState, peers: seq<nat>, codec: Codec<ProtoPost>,
                       messages: seq<seq<Byte>>, ok: Token -> bool): (r: WorkerState)
    ensures r.connections.Keys <= s.connections.Keys
    ensures WellFormed(s.connections) ==> WellFormed(r.connections)
    decreases |messages|
  {
    if messages == [] then s
    else HandlePosts(PostHandled(s, peers, codec, messages[0], ok), peers, codec, messages[1..], ok)
  }

  /** One message of `readable`: one that does not parse as a post is skipped; any other
      post is routed. */
  function PostHandled(s: WorkerState, peers: seq<nat>, codec: Codec<ProtoPost>,
                       message: seq<Byte>, ok: Token -> bool): (r: WorkerState)
    ensures r.connections.Keys <= s.connections.Keys
    ensures WellFormed(s.connections) ==> WellFormed(r.connections)
    ensures FromBytes(message, codec).Err? ==> r == s
  {
    match FromBytes(message, codec)
    case Err(_) => s
    case Ok(post) => Route(s, peers, codec, post, ok)
  }

  /** The shell tasks a batch of messages asks for, in order. */
  function Commands(codec: Codec<ProtoPost>, messages: seq<seq<Byte>>): seq<Task>
    decreases |messages|
  {
    if messages == [] then []
    else
      var p := FromBytes(messages[0], codec);
      if p.Ok? && IsCommand(p.value.text) then [TaskOf(p.value)] + Commands(codec, messages[1..])
      else Commands(codec, messages[1..])
  }

  /** The posts of a batch that are broadcast, in order. */
  function Chatter(codec: Codec<ProtoPost>, messages: seq<seq<Byte>>): seq<Post>
    decreases |messages|
  {
    if messages == [] then []
    else
      var p := FromBytes(messages[0], codec);
      if p.Ok? && !IsCommand(p.value.text) then [p.value] + Chatter(codec, messages[1..])
      else Chatter(codec, messages[1..])
  }

  /** The peers' share of broadcasting `posts`: each post to every peer, post by post. */
  function ForwardedAll(peers: seq<nat>, posts: seq<Post>): seq<PeerPost>
    decreases |posts|
  {
    if posts == [] then [] else Forwarded(peers, posts[0]) + ForwardedAll(peers, posts[1..])
  }

  /** A batch sends exactly its commands to the shell and forwards exactly its other
      posts to the peers, each in arrival order. */
  lemma RoutingSplitsBatch(s: WorkerState, peers: seq<nat>, codec: Codec<ProtoPost>,
                           messages: seq<seq<Byte>>, ok: Token -> bool)
    ensures HandlePosts(s, peers, codec, messages, ok).tasks == s.tasks + Commands(codec, messages)
    ensures HandlePosts(s, peers, codec, messages, ok).outbox
            == s.outbox + ForwardedAll(peers, Chatter(codec, messages))
  {
    RoutingQueuesCommands(s, peers, codec, messages, ok);
    RoutingForwardsChatter(s, peers, codec, messages, ok);
  }

  /** The shell half of `RoutingSplitsBatch`. */
  lemma {:induction false} RoutingQueuesCommands(s: WorkerState, peers: seq<nat>, codec: Codec<ProtoPost>,
                                                 messages: seq<seq<Byte>>, ok: Token -> bool)
    ensures HandlePosts(s, peers, codec, messages, ok).tasks == s.tasks + Commands(codec, messages)
    decreases |messages|
  {
    if messages != [] {
      var s1 := PostHandled(s, peers, codec, messages[0], ok);
      RoutingQueuesCommands(s1, peers, codec, messages[1..], ok);
      var p := FromBytes(messages[0], codec);
      if p.Ok? && IsCommand(p.value.text) {
        assert s1.tasks == s.tasks + [TaskOf(p.value)];
        AppendAssoc(s.tasks, [TaskOf(p.value)], Commands(codec, messages[1..]));
      } else {
        assert s1.tasks == s.tasks;
      }
    }
  }

  /** The peers' half of `RoutingSplitsBatch`. */
  lemma {:induction false} RoutingForwardsChatter(s: WorkerState, peers: seq<nat>, codec: Codec<ProtoPost>,
                                                  messages: seq<seq<Byte>>, ok: Token -> bool)
    ensures HandlePosts(s, peers, codec, messages, ok).outbox
            == s.outbox + ForwardedAll(peers, Chatter(codec, messages))
    decreases |messages|
  {
    if messages != [] {
      var s1 := PostHandled(s, peers, codec, messages[0], ok);
      RoutingForwardsChatter(s1, peers, codec, messages[1..], ok);
      var first := Chatter(codec, messages[..1]);
      var rest := Chatter(codec, messages[1..]);
      PostHandledForwards(s, peers, codec, messages[0], ok);
      assert messages[..1] == [messages[0]];
      ChatterSplit(codec, messages);
      ForwardedAllAppend(peers, first, rest);
      AppendAssoc(s.outbox, ForwardedAll(peers, first), ForwardedAll(peers, rest));
    }
  }

  /** One message forwards its post to the peers exactly when it is chatter. */
  lemma PostHandledForwards(s: WorkerState, peers: seq<nat>, codec: Codec<ProtoPost>,
                            message: seq<Byte>, ok: Token -> bool)
    ensures PostHandled(s, peers, codec, message, ok).outbox
            == s.outbox + ForwardedAll(peers, Chatter(codec, [message]))
  {
    assert [message][1..] == [];
    var p := FromBytes(message, codec);
    if p.Ok? && !IsCommand(p.value.text) {
      assert Chatter(codec, [message]) == [p.value];
      ForwardedAllCons(peers, p.value, []);
      assert Forwarded(peers, p.value) + [] == Forwarded(peers, p.value);
    } else {
      assert Chatter(codec, [message]) == [];
      assert s.outbox + [] == s.outbox;
    }
  }

  lemma ChatterSplit(codec: Codec<ProtoPost>, messages: seq<seq<Byte>>)
    requires messages != []
    ensures Chatter(codec, messages) == Chatter(codec, messages[..1]) + Chatter(codec, messages[1..])
  {
    assert messages[..1][1..] == [];
    assert messages[..1][0] == messages[0];
  }

  lemma ForwardedAllCons(peers: seq<nat>, post: Post, rest: seq<Post>)
    ensures ForwardedAll(peers, [post] + rest) == Forwarded(peers, post) + ForwardedAll(peers, rest)
  {
    assert ([post] + rest)[0] == post && ([post] + rest)[1..] == rest;
  }

  /** Forwarding two lists of posts is forwarding one after the other. */
  lemma {:induction false} ForwardedAllAppend(peers: seq<nat>, a: seq<Post>, b: seq<Post>)
    ensures ForwardedAll(peers, a + b) == ForwardedAll(peers, a) + ForwardedAll(peers, b)
    decreases |a|
  {
    if a == [] {
      assert a + b == b;
    } else {
      assert (a + b)[0] == a[0] && (a + b)[1..] == a[1..] + b;
      ForwardedAllAppend(peers, a[1..], b);
      var f := Forwarded(peers, a[0]);
      AppendAssoc(f, ForwardedAll(peers, a[1..]), ForwardedAll(peers, b));
    }
  }

  /** `readable`. */
  function ReadableSpec(s: WorkerState, peers: seq<nat>, codec: Codec<ProtoPost>, token: Token,
                        recv: nat -> ReadResult, ok: Token -> bool): (r: After)
    ensures r.outcome.Errored? || r.outcome == Completed || r.outcome == Panicked(NoSuchConnection)
    ensures r.state.connections.Keys <= s.connections.Keys
    ensures WellFormed(s.connections) ==> WellFormed(r.state.connections)
    ensures r.outcome.Errored? ==> r.state == s && Received([], recv, 0) == Err(r.outcome.error)
  {
    if token !in s.connections then After(s, Panicked(NoSuchConnection))
    else
      var (c, res) := ReadConn(s.connections[token], recv);
      match res
      case Err(e) => After(s, Errored(e))
      case Ok(messages) =>
        After(HandlePosts(s.(connections := s.connections[token := c]), peers, codec, messages, ok), Completed)
  }

  /** `ready` on a worker whose own token is `self`. */
  function ReadySpec(s: WorkerState, peers: seq<nat>, codec: Codec<ProtoPost>, self: Token, token: Token,
                     events: EventSet, outcome: WriteResult, recv: nat -> ReadResult,
                     ok: Token -> bool): (r: After)
    ensures r.outcome.Completed? || r.outcome.Panicked?
    ensures token == 0 ==> r == After(s, Panicked(ZeroToken))
    ensures token != 0 && (Error in events || Hup in events) ==>
              r == After(s.(connections := Reset(s.connections, token)), Completed)
    ensures token != 0 && Error !in events && Hup !in events && Writable in events && token == self ==>
              r == After(s, Panicked(WritableForServer))
    ensures r.state.connections.Keys <= s.connections.Keys
    ensures WellFormed(s.connections) ==> WellFormed(r.state.connections)
  {
    if token == 0 then After(s, Panicked(ZeroToken))
    else if Error in events then After(s.(connections := Reset(s.connections, token)), Completed)
    else if Hup in events then After(s.(connections := Reset(s.connections, token)), Completed)
    else
      var w := if Writable in events then WrittenSpec(s, self, token, outcome, ok) else After(s, Completed);
      if w.outcome.Panicked? || Readable !in events then w
      else ReadSideSpec(w.state, peers, codec, token, recv, ok)
  }

  /** The writable half of `ready`: the server's own token may not be writable; an
      unknown token panics; otherwise one write, and the connection stays only if its
      queue drained and re-registration succeeded. */
  function WrittenSpec(s: WorkerState, self: Token, token: Token, outcome: WriteResult,
                       ok: Token -> bool): (r: After)
    ensures r.outcome.Completed? || r.outcome.Panicked?
    ensures token == self ==> r == After(s, Panicked(WritableForServer))
    ensures token != self && token !in s.connections ==> r == After(s, Panicked(NoSuchConnection))
    ensures r.state.outbox == s.outbox && r.state.tasks == s.tasks
    ensures r.state.connections.Keys <= s.connections.Keys
    ensures WellFormed(s.connections) ==> WellFormed(r.state.connections)
  {
    if self == token then After(s, Panicked(WritableForServer))
    else if token !in s.connections then After(s, Panicked(NoSuchConnection))
    else
      var (c, status) := WriteOnce(s.connections[token], outcome);
      if status.Done? && ok(token) then After(s.(connections := s.connections[token := c]), Completed)
      else After(s.(connections := Reset(s.connections, token)), Completed)
  }

  /** The readable half of `ready`: a read error resets the connection; after a
      completed read the connection must still exist, and it is reset when it cannot be
      re-registered. */
  function ReadSideSpec(s: WorkerState, peers: seq<nat>, codec: Codec<ProtoPost>, token: Token,
                        recv: nat -> ReadResult, ok: Token -> bool): (r: After)
    ensures r.outcome.Completed? || r.outcome.Panicked?
    ensures token !in s.connections ==> r == After(s, Panicked(NoSuchConnection))
    ensures r.state.connections.Keys <= s.connections.Keys
    ensures WellFormed(s.connections) ==> WellFormed(r.state.connections)
  {
    var a := ReadableSpec(s, peers, codec, token, recv, ok);
    match a.outcome
    case Panicked(_) => a
    case Errored(_) => After(a.state.(connections := Reset(a.state.connections, token)), Completed)
    case Completed =>
      if token !in a.state.connections then After(a.state, Panicked(NoSuchConnection))
      else if ok(token) then a
      else After(a.state.(connections := Reset(a.state.connections, token)), Completed)
  }

  /** `notify`: a finished task is broadcast as a post by the user who ran it; a post
      from a peer is delivered locally and never forwarded again. */
  function NotifySpec(s: WorkerState, peers: seq<nat>, codec: Codec<ProtoPost>, msg: WorkerMessage,
                      slot: Option<Token>, registerOk: bool, ok: Token -> bool): (r: WorkerState)
    requires slot.Some? ==> slot.value !in s.connections
    ensures msg.TaskFinished? ==> r == BroadcastSpec(s, peers, codec, Post(msg.user, msg.result), ok)
    ensures msg.NewPost? ==> r.outbox == s.outbox && r.tasks == s.tasks
    ensures msg.NewPost? ==> r.connections == Delivered(s.connections, IntoBytes(msg.post, codec), ok)
    ensures WellFormed(s.connections) ==> WellFormed(r.connections)
  {
    match msg
    case NewConnection => s.(connections := Accepted(s.connections, slot, registerOk))
    case TaskFinished(user, result) => BroadcastSpec(s, peers, codec, Post(user, result), ok)
    case NewPost(post) => BroadcastLocalSpec(s, IntoBytes(post, codec), ok)
  }

  class Worker {
    const id: nat
    const token: Token
    const peers: seq<nat>
    const codec: Codec<ProtoPost>
    var connections: Table
    var outbox: seq<PeerPost>
    var tasks: seq<Task>

    function State(): WorkerState
      reads this
    {
      WorkerState(connections, outbox, tasks)
    }

    /** Every connection knows its token, and every token lies in the slab's range. */
    ghost predicate Valid()
      reads this
    {
      && id > 0 && token == WorkerToken(id) && WellFormed(connections)
      && forall k | k in connections :: FirstConnToken(id) <= k < FirstConnToken(id) + WEB_CAPACITY
    }

    /** `Worker::new`: panics unless `id > 0`; the worker's token is `100 * id - 1` and the
        table numbers tokens from the next one. */
    constructor (id: nat, peers: seq<nat>, codec: Codec<ProtoPost>)
      requires id > 0
      ensures Valid() && this.id == id && this.peers == peers && this.codec == codec
      ensures token == 100 * id - 1 && State() == WorkerState(map[], [], [])
    {
      this.id := id;
      this.peers := peers;
      this.codec := codec;
      token := 100 * id - 1;
      connections := map[];
      outbox := [];
      tasks := [];
    }

    /** `accept`: `slot` is the token `insert_with` finds, or `None` when the slab is full. */
    method Accept(slot: Option<Token>, registerOk: bool)
      requires Valid()
      requires slot.Some? ==> slot.value !in connections
      requires slot.Some? ==> FirstConnToken(id) <= slot.value < FirstConnToken(id) + WEB_CAPACITY
      modifies this
      ensures Valid()
      ensures State() == old(State()).(connections := Accepted(old(connections), slot, registerOk))
    {
      connections := Accepted(connections, slot, registerOk);
    }

    /** `reset_connection`. */
    method ResetConnection(token: Token)
      requires Valid()
      modifies this
      ensures Valid()
      ensures State() == old(State()).(connections := Reset(old(connections), token))
    {
      connections := Reset(connections, token);
    }

    /** `broadcast_local`. */
    method BroadcastLocal(message: Buf, ok: Token -> bool)
      requires Valid()
      modifies this
      ensures Valid()
      ensures State() == BroadcastLocalSpec(old(State()), message, ok)
    {
      DeliveredReachesHealthy(connections, message, ok);
      connections := Connections.BroadcastLocal(connections, message, ok);
    }

    /** `broadcast`: a copy to every peer (a failed send is only logged), then local delivery. */
    method Broadcast(post: Post, ok: Token -> bool)
      requires Valid()
      modifies this
      ensures Valid()
      ensures State() == BroadcastSpec(old(State()), peers, codec, post, ok)
    {
      for i := 0 to |peers|
        invariant outbox == old(outbox) + Forwarded(peers[..i], post)
        invariant connections == old(connections) && tasks == old(tasks)
      {
        assert peers[..i + 1] == peers[..i] + [peers[i]];
        outbox := outbox + [PeerPost(peers[i], post)];
      }
      assert peers[..|peers|] == peers;
      var bytes := IntoBytes(post, codec);
      BroadcastLocal(bytes, ok);
    }

    /** `readable`. */
    method Readable(token: Token, recv: nat -> ReadResult, ok: Token -> bool) returns (outcome: Outcome)
      requires Valid()
      modifies this
      ensures Valid()
      ensures After(State(), outcome) == ReadableSpec(old(State()), peers, codec, token, recv, ok)
    {
      if token !in connections {
        return Panicked(NoSuchConnection);
      }
      var (c, res) := ReadConn(connections[token], recv);
      if res.Err? {
        return Errored(res.error);
      }
      connections := connections[token := c];
      HandleAll(res.value, ok);
      outcome := Completed;
    }

    /** The loop of `readable` over the deframed messages. */
    method HandleAll(messages: seq<seq<Byte>>, ok: Token -> bool)
      requires Valid()
      modifies this
      ensures Valid()
      ensures State() == HandlePosts(old(State()), peers, codec, messages, ok)
    {
      for i := 0 to |messages|
        invariant Valid()
        invariant HandlePosts(State(), peers, codec, messages[i..], ok)
                  == HandlePosts(old(State()), peers, codec, messages, ok)
      {
        assert messages[i..][1..] == messages[i + 1..];
        HandlePost(messages[i], ok);
      }
    }

    /** One message of `readable`: a command goes to the shell, any other post is
        broadcast. */
    method HandlePost(message: seq<Byte>, ok: Token -> bool)
      requires Valid()
      modifies this
      ensures Valid()
      ensures State() == PostHandled(old(State()), peers, codec, message, ok)
    {
      match FromBytes(message, codec) {
        case Err(_) =>
        case Ok(post) =>
          if |post.text| > 0 && post.text[0] == '/' {
            tasks := tasks + [Task(post.login, post.text[1..])];
          } else {
            Broadcast(post, ok);
          }
      }
    }

    /** `ready`. */
    method Ready(token: Token, events: EventSet, outcome: WriteResult, recv: nat -> ReadResult,
                 ok: Token -> bool) returns (result: Outcome)
      requires Valid()
      modifies this
      ensures Valid()
      ensures After(State(), result) == ReadySpec(old(State()), peers, codec, this.token, token, events, outcome, recv, ok)
    {
      if token == 0 {
        return Panicked(ZeroToken);
      }
      if Error in events {
        ResetConnection(token);
        return Completed;
      }
      if Hup in events {
        ResetConnection(token);
        return Completed;
      }
      if Writable in events {
        result := WriteSide(token, outcome, ok);
        if result.Panicked? {
          return;
        }
      }
      if Connections.Ready.Readable in events {
        result := ReadSide(token, recv, ok);
      } else {
        result := Completed;
      }
    }

    /** The writable half of `ready`. */
    method WriteSide(token: Token, outcome: WriteResult, ok: Token -> bool) returns (result: Outcome)
      requires Valid()
      modifies this
      ensures Valid()
      ensures After(State(), result) == WrittenSpec(old(State()), this.token, token, outcome, ok)
    {
      if this.token == token {
        return Panicked(WritableForServer);
      }
      if token !in connections {
        return Panicked(NoSuchConnection);
      }
      var (c, status) := WriteOnce(connections[token], outcome);
      if status.Done? && ok(token) {
        connections := connections[token := c];
      } else {
        ResetConnection(token);
      }
      result := Completed;
    }

    /** The readable half of `ready`. */
    method ReadSide(token: Token, recv: nat -> ReadResult, ok: Token -> bool) returns (result: Outcome)
      requires Valid()
      modifies this
      ensures Valid()
      ensures After(State(), result) == ReadSideSpec(old(State()), peers, codec, token, recv, ok)
    {
      result := Readable(token, recv, ok);
      match result {
        case Panicked(_) =>
          return;
        case Errored(_) =>
          ResetConnection(token);
        case Completed =>
          if token !in connections {
            return Panicked(NoSuchConnection);
          }
          if !ok(token) {
            ResetConnection(token);
          }
      }
      result := Completed;
    }

    /** `notify`. */
    method Notify(msg: WorkerMessage, slot: Option<Token>, registerOk: bool, ok: Token -> bool)
      requires Valid()
      requires slot.Some? ==> slot.value !in connections
      requires slot.Some? ==> FirstConnToken(id) <= slot.value < FirstConnToken(id) + WEB_CAPACITY
      modifies this
      ensures Valid()
      ensures State() == NotifySpec(old(State()), peers, codec, msg, slot, registerOk, ok)
    {
      match msg {
        case NewConnection =>
          Accept(slot, registerOk);
        case TaskFinished(user, result) =>
          Broadcast(Post(user, result), ok);
        case NewPost(post) =>
          var bytes := IntoBytes(post, codec);
          BroadcastLocal(bytes, ok);
      }
    }
  }

  /** `Worker::start`: `n` workers with ids `1..n`, each given every other worker as a peer. */
  method Start(n: nat, codec: Codec<ProtoPost>) returns (workers: seq<Worker>)
    requires n > 0
    ensures |workers| == n
    ensures forall i | 0 <= i < n ::
              && fresh(workers[i]) && workers[i].Valid() && workers[i].id == i + 1
              && workers[i].peers == Peers(n, i) && workers[i].State() == WorkerState(map[], [], [])
  {
    workers := [];
    for id := 0 to n
      invariant |workers| == id
      invariant forall i | 0 <= i < id ::
                  && fresh(workers[i]) && workers[i].Valid() && workers[i].id == i + 1
                  && workers[i].peers == Peers(n, i) && workers[i].State() == WorkerState(map[], [], [])
    {
      var w := new Worker(id + 1, Peers(n, id), codec);
      workers := workers + [w];
    }
  }
}
