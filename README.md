# A verified model of the mio chat server

This project models, in Dafny, the sequential core of a small chat server built on the
`mio` event loop. The model covers these parts:

- **Framing and the streaming deframer.** The pb layer frames each serialised protobuf
  message behind a 4-byte little-endian length (`to_bytes`). The per-connection `Chunker`
  takes those frames apart again, byte by byte, across reads.
- **The chat post.** There are two post types:
  - the generated protobuf record (`Message`: an optional author, repeated text lines and
    unknown fields), with the chat helpers `command`, `from_result`, `from_text` and `take`;
  - the plain `Post` (login, text), which `into_bytes` frames behind an 8-byte length.
- **Connections.** Each connection keeps a send queue and an interest set. It comes in two
  variants:
  - the pb connection drains its queue until a write blocks;
  - the web/chat connection writes exactly one buffer per event.
- **Workers.** Each worker owns a slab of connections, keyed by token. It reads, deframes,
  parses, routes and broadcasts messages, resets a connection on error or hang-up, and
  forwards posts to its peer workers.
- **The listening servers.** Each hands new sockets to the workers in round-robin order.
- **The command-line client.** Its `read_exact` loop fills a buffer, and its `reader`
  reads length-prefixed posts.

Each source file keeps its own form in the model:

- Code that changes state in place becomes a class whose methods are proved against pure
  specification functions (`State() == Spec(old(State()), …)`). This covers the chunker,
  the protobuf record, the connections, the workers, the servers and `User`.
- Loops stay loops, with invariants: `Chunker::feed`, `merge_from`, the read loop of
  `readable`, the `writable` drain, `broadcast_local`, `broadcast`, `readable` of each
  worker, and `read_exact` on an `array`.
- Pure code becomes functions and lemmas: the framing, the post conversions and the layout
  arithmetic.

The outside world is a set of parameters:

- Socket reads are an oracle `recv: nat -> ReadResult`, answering the `k`-th read.
- Socket writes are an oracle `respond: nat -> WriteResult` (block, wrote `n`, or error).
- Registrations are a success flag, and re-registrations an oracle `ok: Token -> bool`.
- The slab's free slot is an `Option<Token>`.
- Channel sends are a `Status`.
- Protobuf serialisation is an abstract `Codec` (an `encode`/`parse` pair).

A panic of the source while it handles an event is an explicit `Panicked` outcome: an
`unwrap` of a channel or registration result, an index into a missing slab slot, or an
`assert!`. The one exception is the `unwrap` of `write_to_bytes`, which the model treats
as total (see below). The start-up asserts (`id > 0` of each worker's `new`, `n_workers >
0` of each `start`) are preconditions of the constructors and of `Start` instead.

## Model

| member | source | states |
|---|---|---|
| Bytes.FromLEOfLE | src/pb/worker/utils.rs:10 | reading back the little-endian encoding of a number that fits recovers the number |
| Bytes.LEOfFromLE | src/pb/worker/chunker.rs:34-35 | the little-endian value of a byte string, re-encoded at the same width, gives back the bytes |
| Bytes.LEPadded | src/post.rs:38 | a value that fits in `a` bytes, written in `a + b` bytes, is its `a`-byte form followed by `b` zero bytes |
| Chunking.Initial | src/pb/worker/chunker.rs:17-24 | the initial state reads the length, with both buffers empty and a length of 0 |
| Chunking.Step | src/pb/worker/chunker.rs:28-51 | one byte emits at most one message; the fourth header byte switches to payload mode with the little-endian length; an emitted message has exactly the announced length and resets to length mode; the state invariant (header under 4 bytes, payload shorter than its length when the length is positive) is kept |
| Chunking.FeedAll | src/pb/worker/chunker.rs:26-53 | feeding keeps the state invariant, and every emitted message is non-empty and shorter than 2^32 |
| Chunking.FeedSplit | src/pb/worker/chunker.rs:26-53 | feeding `a` and then `b` yields the same messages and state as feeding `a + b` |
| Chunking.FeedSnoc | src/pb/worker/chunker.rs:27-51 | feeding one more byte is one more step of the byte loop |
| Chunking.ReadHeader | src/pb/worker/chunker.rs:31-37 | the remaining header bytes complete the length and switch to payload mode with empty buffers |
| Chunking.ReadPayload | src/pb/worker/chunker.rs:42-49 | the remaining payload bytes emit the payload whole and return to length mode |
| Chunking.ZeroLengthStalls | src/pb/worker/chunker.rs:42-48 | after a zero-length header, no byte ever emits a message; every later byte piles up in the message buffer |
| Chunking.Chunker.constructor | src/pb/worker/chunker.rs:17-24 | a new chunker is in the initial state |
| Chunking.Chunker.Feed | src/pb/worker/chunker.rs:26-53 | the byte loop leaves the chunker in the state, and returns the messages, of the specification `FeedAll` |
| ProtoFraming.Frame | src/pb/worker/utils.rs:7-13 | a frame is 4 + n bytes; the payload follows unchanged; the header reads back as the length modulo 2^32, and as the length itself below 2^32 |
| ProtoFraming.ToBytes | src/pb/worker/utils.rs:7-13 | `to_bytes` is the frame of the serialised message |
| ProtoFraming.FromBytes | src/pb/worker/utils.rs:15-18 | it succeeds exactly when the parser does and returns the parsed message; a parse failure becomes an `InvalidData` error carrying the parser's reason |
| ProtoFraming.FrameRoundTrip | src/pb/worker/chunker.rs:26-53 | at a frame boundary, feeding one frame with a non-empty payload emits exactly that payload and ends at a boundary |
| ProtoFraming.FramesRoundTrip | src/pb/worker/chunker.rs:26-53 | a run of frames with non-empty payloads yields exactly those payloads, in order, and ends at a boundary |
| ProtoFraming.ChunkedRoundTrip | src/pb/worker/chunker.rs:26-53 | however the framed stream is cut into two reads, the messages of both reads together are the payloads in order |
| ProtoFraming.PipelineRoundTrip | src/pb/worker/utils.rs:7-18 | messages framed by `to_bytes`, deframed and parsed, come back unchanged and in order (given a lawful serialiser) |
| ProtoFraming.EmptyFrameStalls | src/pb/worker/chunker.rs:42-48 | a frame with an empty payload swallows the rest of the stream and emits nothing |
| ProtoMessage.Default | src/post/message.rs:24-26 | a default record has no author, no text, no unknown fields and a zero cached size |
| ProtoMessage.GetAuthor | src/post/message.rs:74-79 | `get_author` is the stored author when set and `""` otherwise |
| ProtoMessage.IsInitializedIffHasAuthor | src/post/message.rs:108-113 | `is_initialized` holds exactly when the required author is set |
| ProtoMessage.EqIgnoresCachedSize | src/post/message.rs:230-234 | two records are equal exactly when they agree on everything but the cached size |
| ProtoMessage.AddUnknown | src/post/message.rs:129-132 | an unknown value is pushed under its number, which is created empty when first seen, onto the vector of its own wire type; no other number changes |
| ProtoMessage.Push | src/post/message.rs:129-132 | a value joins exactly one of the four per-type vectors, so they hold one more value between them |
| ProtoMessage.AddUnknownForgetsCrossTypeOrder | src/post/message.rs:129-132 | a varint and a length-delimited value under one number give the same fields in either order |
| ProtoMessage.MergeEntry | src/post/message.rs:117-132 | success exactly for a whole field of an accepted wire type whose strings decode; then field 1 sets the author and field 2 appends its line; a field never touches the other one; a value cut short after a length-delimited tag for field 1 or 2 leaves the author as "" or a trailing "" line |
| ProtoMessage.MergeSplit | src/post/message.rs:115-136 | merging `a + b` is merging `a` and then `b`, unless `a` already failed |
| ProtoMessage.MergeAppendsText | src/post/message.rs:126-128 | a successful merge appends the decoded text lines of the input, in order, to the existing ones |
| ProtoMessage.MergeKeepsAuthor | src/post/message.rs:118-125 | input with no field-1 entry, whole or cut short, leaves the author as it was, whether or not the merge succeeds |
| ProtoMessage.Message.constructor | src/post/message.rs:24-26 | a new record is the default record |
| ProtoMessage.Message.ClearAuthor | src/post/message.rs:47-49 | the author becomes unset; nothing else changes |
| ProtoMessage.Message.SetAuthor | src/post/message.rs:56-58 | the author becomes set to the value; nothing else changes |
| ProtoMessage.Message.MutAuthor | src/post/message.rs:62-67 | an unset author is first set to `""`; the author is set afterwards and its value is returned |
| ProtoMessage.Message.TakeAuthor | src/post/message.rs:70-72 | returns the author (or `""` when unset) and leaves it unset |
| ProtoMessage.Message.ClearText | src/post/message.rs:83-85 | the text becomes empty; nothing else changes |
| ProtoMessage.Message.SetText | src/post/message.rs:88-90 | the text becomes the given lines; nothing else changes |
| ProtoMessage.Message.TakeText | src/post/message.rs:98-100 | returns the text lines and leaves the text empty |
| ProtoMessage.Message.Clear | src/post/message.rs:222-226 | author unset, text and unknown fields empty, so the record is no longer initialised |
| ProtoMessage.Message.MergeFrom | src/post/message.rs:115-136 | the field loop leaves the record, and returns the status, of the specification `MergeAll` |
| PostMessage.Command | src/post/mod.rs:10-18 | `Some` exactly when there is a first line starting with `"command "`, and then it is that line without the prefix |
| PostMessage.CommandReadsFirstLineOnly | src/post/mod.rs:11-13 | lines after the first never change the command |
| PostMessage.CommandOfPrefixedLine | src/post/mod.rs:12-14 | a first line of `"command " + c` gives the command `c` |
| PostMessage.FromResult | src/post/mod.rs:20-25 | author `"nobody"`, text exactly `[result]`, initialised |
| PostMessage.FromText | src/post/mod.rs:27-32 | the given author and text, initialised |
| PostMessage.Take | src/post/mod.rs:34-36 | the pair rebuilds an equal record through `from_text`; an unset author is taken as `""` |
| PostMessage.TakeFromText | src/post/mod.rs:27-36 | `take(from_text(a, t)) == (a, t)` |
| PostMessage.TakeRespectsEq | src/post/mod.rs:34-36 | records equal under `eq` (src/post/message.rs) give the same author and lines |
| ChatPost.IntoProto | src/post.rs:14-21 | the protobuf post carries the login and the text unchanged |
| ChatPost.FromProto | src/post.rs:23-30 | the login and text are moved out, with `""` for an unset field |
| ChatPost.FromIntoProto | src/post.rs:14-30 | converting a post to its protobuf form and back gives the same post |
| ChatPost.IntoBytes | src/post.rs:33-41 | 8 + n bytes: an 8-byte little-endian length followed by the serialised post unchanged |
| ChatPost.FromBytes | src/post.rs:43-47 | it succeeds exactly when parsing does; a failure is an `InvalidData` error and never a post |
| ChatPost.IntoBytesRoundTrip | src/post.rs:33-47 | dropping the 8-byte prefix and parsing recovers the post (given a lawful serialiser) |
| ChatPost.IntoBytesPrefixIsLength | src/post.rs:38-39 | the prefix is the total length less 8 |
| Connections.Advance | src/pb/worker/connection.rs:89-94 | a write of `n` bytes leaves the unwritten tail of the buffer; it is empty exactly when `n` covers the buffer |
| Connections.Fit | src/pb/worker/connection.rs:61-64 | a read takes a prefix of what the socket offers, never more than the 2048-byte buffer holds |
| Connections.Received | src/pb/worker/connection.rs:60-77 | the read loop only ever extends the buffer, up to its capacity |
| Connections.ReceivedIsOneBuffer | src/pb/worker/connection.rs:63-74 | the loop stops on `None`, on a read short of the capacity, or on an error; a successful loop returns the bytes read, within the capacity |
| Connections.Receive | src/pb/worker/connection.rs:60-77 | the read loop returns what the specification `Received` says |
| Connections.ReadConn | src/pb/worker/connection.rs:60-77 | `readable` changes only the chunker; an error leaves the connection untouched; the messages returned are non-empty and shorter than 2^32 |
| Connections.Accepted | src/pb/server.rs:218-231 | a free slot with a successful registration adds a registered connection under that token; otherwise the table is unchanged; existing entries never change |
| Connections.Reset | src/pb/server.rs:275-278 | exactly the given token is removed |
| Connections.BroadcastLocal | src/pb/server.rs:289-305 | the loop over connections, followed by removal of the failed tokens, gives the specification `Delivered` |
| Connections.EnqueueAll | src/pb/server.rs:290-299 | every connection gets the message queued, the keys stay the same, and exactly the tokens whose re-registration fails are noted |
| Connections.ResetAll | src/pb/server.rs:301-303 | exactly the noted tokens are removed and every other connection is left as it was |
| Connections.DeliveredReachesHealthy | src/pb/server.rs:289-305 | after delivery, the table holds exactly the tokens whose re-registration succeeded, each with the message at the end of its queue and writable interest |
| PbConnection.DrainWritesFromBack | src/pb/worker/connection.rs:82 | buffers are written from the back of the queue: the last one enqueued goes out first |
| PbConnection.DrainLeaves | src/pb/worker/connection.rs:82-101 | on a block or a partial write the queue keeps its front plus the unwritten buffer; on an error the popped buffer is lost; otherwise the queue ends empty |
| PbConnection.WritableOutcome | src/pb/worker/connection.rs:79-108 | after an `Ok`, writable interest is dropped exactly when the queue is empty; an error leaves the interest unchanged |
| PbConnection.Connection.constructor | src/pb/worker/connection.rs:18-26 | interest `{hup}`, an empty queue and a fresh chunker |
| PbConnection.Connection.Register | src/pb/worker/connection.rs:28-40 | readable is added to the interest; the registration's result is returned |
| PbConnection.Connection.SendMessage | src/pb/worker/connection.rs:54-58 | the buffer is appended, writable is added, and the result is always `Ok` |
| PbConnection.Connection.Readable | src/pb/worker/connection.rs:60-77 | the new state and result are those of the specification `ReadConn` |
| PbConnection.Connection.Writable | src/pb/worker/connection.rs:79-108 | the drain loop leaves the state and result of the specification `AfterWritable` |
| WebConnection.WriteOnceOutcome | src/web/connection.rs:83-110 | an empty queue is an error; exactly one buffer is popped from the back and pushed back only on a block; on success, writable is dropped exactly when the queue is empty |
| WebConnection.PartialWriteDropsTail | src/web/connection.rs:93-95 | a partial write loses the unwritten rest of the buffer |
| WebConnection.Connection.constructor | src/web/connection.rs:22-30 | interest `{hup}`, an empty queue and a fresh chunker |
| WebConnection.Connection.Register | src/web/connection.rs:32-44 | readable is added to the interest; the registration's result is returned |
| WebConnection.Connection.SendMessage | src/web/connection.rs:59-63 | the buffer is appended, writable is added, and the result is always `Ok` |
| WebConnection.Connection.Readable | src/web/connection.rs:65-81 | the new state and result are those of the specification `ReadConn` |
| WebConnection.Connection.Writable | src/web/connection.rs:83-110 | the single-pop write leaves the state and result of the specification `WriteOnce` |
| Layout.FirstConnToken | src/pb/server.rs:186-194 | connection tokens of worker `id > 0` start at `100 * id` |
| Layout.WorkerToken | src/web/worker.rs:28-38 | a worker's own token is `100 * id - 1`, just below its connections, and is neither 0 nor the listener's token |
| Layout.ConnTokensAvoidReserved | src/web/worker.rs:28-38 | no connection token can be 0, the listener's token or the worker's own token |
| Layout.WorkerTokensDistinct | src/worker.rs:27-36 | different workers have different tokens |
| Layout.Peers | src/web/worker.rs:42-50 | the peers of worker `self` among `n` are every other index below `n`, in order: `n - 1` of them |
| Layout.PtrAfterIsMod | src/web/server.rs:56-62 | after `k` sends from 0, the pointer is `k mod n` |
| PbServer.ProtoServer.constructor | src/pb/server.rs:59-78 | pointer 0, running, and nothing dispatched yet |
| PbServer.ProtoServer.RoundRobin | src/pb/server.rs:102-109 | the pointer moves on modulo `n` before the send, and the socket goes to the new pointer |
| PbServer.ProtoServer.Reregister | src/pb/server.rs:124-134 | a failure shuts the loop down; nothing else changes |
| PbServer.ProtoServer.Accept | src/pb/server.rs:79-100 | an accepted socket is dispatched to the next worker; nothing is dispatched otherwise; the listener is re-registered in every case |
| PbServer.ProtoServer.Ready | src/pb/server.rs:155-174 | token 0 or a foreign token panics; an error event shuts down; a readable event accepts |
| PbServer.DispatchInTurn | src/pb/server.rs:102-109 | the `k`-th socket (from 1) goes to worker `k mod n` |
| PbServer.ReplayKeepsLast | src/pb/server.rs:36-56 | after any sequence of calls, a new user holds exactly the last broadcast and the last echo asked for |
| PbServer.ReplayKeepsLastBroadcast | src/pb/server.rs:36-51 | a new user holds a broadcast exactly when some call asked for one, and then it is the last such call's message |
| PbServer.ReplayKeepsLastEcho | src/pb/server.rs:36-56 | a new user holds an echo exactly when some call asked for one, and then it is the last such call's message |
| PbServer.User.constructor | src/pb/server.rs:37-43 | a new user has neither request |
| PbServer.User.Broadcast | src/pb/server.rs:49-51 | replaces the broadcast request and keeps the echo |
| PbServer.User.Echo | src/pb/server.rs:53-55 | replaces the echo request and keeps the broadcast |
| PbServer.RunHandler | src/pb/server.rs:248-251 | the user ends up holding what the specification `Replay` gives for the handler's calls |
| PbServer.Forwarded | src/pb/server.rs:280-287 | one message per peer, in peer order |
| PbServer.BroadcastLocalSpec | src/pb/server.rs:289-305 | local delivery only drops connections and never touches the peer outbox |
| PbServer.Performed | src/pb/server.rs:257-273 | the broadcast goes to every peer before the echo; a reset can only drop connections; a missing own connection panics |
| PbServer.Parsable | src/pb/server.rs:239-246 | the messages kept are ones that parse, taken from the batch |
| PbServer.MessageHandled | src/pb/server.rs:239-251 | a message that does not parse leaves the state alone; a parsed one can only complete or panic for a missing connection, and only drops connections |
| PbServer.MalformedSkipped | src/pb/server.rs:238-252 | handling a batch is the same as handling only the messages that parse |
| PbServer.ReadableSpec | src/pb/server.rs:233-255 | a read error is returned with the state untouched; otherwise the messages are handled |
| PbServer.WriteEvent | src/pb/server.rs:332-341 | the writable branch panics exactly when the token is not in the table |
| PbServer.ReadySpec | src/pb/server.rs:313-353 | token 0 panics; an error or hang-up resets the connection and skips the write and read branches |
| PbServer.BroadcastBeforeEcho | src/pb/server.rs:257-273 | a user asking for both, with a healthy connection, gets the broadcast queued before the echo |
| PbServer.EchoAfterOwnResetPanics | src/pb/server.rs:257-273 | when the user's own re-registration fails during the broadcast, the echo indexes a removed slot and panics |
| PbServer.FailedWriteThenReadPanics | src/pb/server.rs:332-351 | with writable and readable both set, a failed write resets the connection, and the read branch then panics |
| PbServer.Worker.constructor | src/pb/server.rs:186-194 | requires `id > 0`; an empty table and no messages sent |
| PbServer.Worker.Accept | src/pb/server.rs:218-231 | the table becomes `Accepted` of the old one |
| PbServer.Worker.ResetConnection | src/pb/server.rs:275-278 | the table becomes `Reset` of the old one |
| PbServer.Worker.BroadcastLocal | src/pb/server.rs:289-305 | the state becomes `BroadcastLocalSpec` of the old one |
| PbServer.Worker.Broadcast | src/pb/server.rs:280-287 | the state becomes `BroadcastSpec` of the old one |
| PbServer.Worker.PerformRequests | src/pb/server.rs:257-273 | state and outcome are those of `Performed` |
| PbServer.Worker.Readable | src/pb/server.rs:233-255 | state and outcome are those of `ReadableSpec` |
| PbServer.Worker.HandleAll | src/pb/server.rs:238-252 | the loop over the deframed messages stops at the first panic and leaves the state and outcome of `HandleMessages` |
| PbServer.Worker.HandleMessage | src/pb/server.rs:239-251 | a fresh user runs the handler and its requests are performed, leaving the state and outcome of `MessageHandled` |
| PbServer.Worker.Ready | src/pb/server.rs:313-353 | state and outcome are those of `ReadySpec` |
| PbServer.Worker.Notify | src/pb/server.rs:355-370 | state and outcome are those of `NotifySpec` |
| PbServer.Start | src/pb/server.rs:196-216 | requires `n > 0`; builds `n` workers with ids `1..n`, each with all the others as peers, never itself |
| ChatWorker.HandlePosts | src/worker.rs:79-90 | handling a batch only ever drops connections |
| ChatWorker.PostHandled | src/worker.rs:80-89 | a message that does not parse leaves the table alone; a parsed post is re-encoded and delivered, which only drops connections |
| ChatWorker.PostsReachEveryone | src/worker.rs:79-111 | while every re-registration succeeds, each connection receives the re-encoded bytes of each valid post, in order; invalid ones are skipped |
| ChatWorker.ReadableSpec | src/worker.rs:73-92 | a read error is returned with the table untouched |
| ChatWorker.ReadySpec | src/worker.rs:125-167 | token 0 panics; an error or hang-up resets the token and returns; a writable event on the worker's own token panics |
| ChatWorker.WritableDropsPartialPost | src/worker.rs:252-279 | a partial write of the only queued post loses its unwritten tail and clears writable interest |
| ChatWorker.Worker.constructor | src/worker.rs:27-36 | requires `id > 0`; the worker's token is `100 * id - 1`, with an empty table |
| ChatWorker.Worker.Accept | src/worker.rs:58-71 | the table becomes `Accepted` of the old one: a failed registration frees the slot again |
| ChatWorker.Worker.ResetConnection | src/worker.rs:113-116 | the table becomes `Reset` of the old one |
| ChatWorker.Worker.Broadcast | src/worker.rs:94-111 | the table becomes `Delivered` of the old one |
| ChatWorker.Worker.Readable | src/worker.rs:73-92 | table and outcome are those of `ReadableSpec` |
| ChatWorker.Worker.HandlePost | src/worker.rs:80-89 | one message of the loop leaves the table of `PostHandled` |
| ChatWorker.Worker.Ready | src/worker.rs:125-167 | table and outcome are those of `ReadySpec` |
| ChatWorker.Worker.Notify | src/worker.rs:169-179 | a new socket is accepted; a finished task's output is delivered as it is |
| ChatWorker.Start | src/worker.rs:38-56 | requires `n > 0`; `n` workers with ids `1..n` and empty tables |
| WebWorker.TaskOf | src/web/worker.rs:91-96 | a command post becomes a task whose user is the author and whose command is the text without its leading `/` |
| WebWorker.Forwarded | src/web/worker.rs:104-109 | one `NewPost` per peer, in peer order |
| WebWorker.BroadcastLocalSpec | src/web/worker.rs:114-129 | local delivery only drops connections and leaves the peer outbox and the tasks alone |
| WebWorker.BroadcastSpec | src/web/worker.rs:104-112 | the post goes to every peer, then is delivered locally; the tasks are untouched |
| WebWorker.Route | src/web/worker.rs:91-99 | a post whose text is non-empty and starts with `/` becomes a shell task and is not broadcast; any other post is broadcast |
| WebWorker.HandlePosts | src/web/worker.rs:84-99 | handling a batch only ever drops connections |
| WebWorker.PostHandled | src/web/worker.rs:84-99 | a message that does not parse leaves the state alone; a parsed post is routed, which only drops connections |
| WebWorker.RoutingSplitsBatch | src/web/worker.rs:84-99 | over a batch, the tasks gain exactly the commands among the valid posts and the outbox gains exactly the other valid posts, in order; invalid ones are skipped |
| WebWorker.RoutingQueuesCommands | src/web/worker.rs:84-99 | over a batch the task list gains exactly the commands among the posts that parse, in arrival order |
| WebWorker.RoutingForwardsChatter | src/web/worker.rs:84-99 | over a batch the outbox gains, post by post, one copy per peer of every parsed post that is not a command |
| WebWorker.PostHandledForwards | src/web/worker.rs:84-99 | one message reaches the peers exactly when it parses and is not a command |
| WebWorker.ForwardedAllAppend | src/web/worker.rs:104-109 | forwarding two runs of posts is forwarding the first, then the second |
| WebWorker.ReadableSpec | src/web/worker.rs:77-102 | a read error is returned with the state untouched |
| WebWorker.ReadySpec | src/web/worker.rs:144-186 | token 0 panics; an error or hang-up resets the token; a writable event on the worker's own token panics |
| WebWorker.WrittenSpec | src/web/worker.rs:164-174 | a writable event on the worker's own token or on an unknown one panics; otherwise the connection stays only if its queue drained and it re-registered; the outbox and tasks are untouched |
| WebWorker.ReadSideSpec | src/web/worker.rs:176-184 | an unknown token panics; a read error resets the connection and completes; only connections are dropped |
| WebWorker.NotifySpec | src/web/worker.rs:188-203 | a finished task is broadcast as a post by its user; a peer's post is delivered locally only and never forwarded again |
| WebWorker.Worker.constructor | src/web/worker.rs:28-38 | requires `id > 0`; token `100 * id - 1`, an empty table, outbox and task list |
| WebWorker.Worker.Accept | src/web/worker.rs:62-75 | the table becomes `Accepted` of the old one |
| WebWorker.Worker.ResetConnection | src/web/worker.rs:133-136 | the table becomes `Reset` of the old one |
| WebWorker.Worker.BroadcastLocal | src/web/worker.rs:114-129 | the state becomes `BroadcastLocalSpec` of the old one |
| WebWorker.Worker.Broadcast | src/web/worker.rs:104-112 | the state becomes `BroadcastSpec` of the old one |
| WebWorker.Worker.Readable | src/web/worker.rs:77-102 | state and outcome are those of `ReadableSpec` |
| WebWorker.Worker.HandleAll | src/web/worker.rs:84-99 | the loop over the deframed messages leaves the state of `HandlePosts` |
| WebWorker.Worker.HandlePost | src/web/worker.rs:84-99 | one message of the loop leaves the state of `PostHandled` |
| WebWorker.Worker.Ready | src/web/worker.rs:144-186 | state and outcome are those of `ReadySpec` |
| WebWorker.Worker.WriteSide | src/web/worker.rs:164-174 | state and outcome are those of `WrittenSpec` |
| WebWorker.Worker.ReadSide | src/web/worker.rs:176-184 | state and outcome are those of `ReadSideSpec` |
| WebWorker.Worker.Notify | src/web/worker.rs:188-203 | the state becomes `NotifySpec` of the old one |
| WebWorker.Start | src/web/worker.rs:40-60 | requires `n > 0`; `n` workers with ids `1..n`, each with every other worker as a peer |
| WebServer.Server.constructor | src/web/server.rs:19-26 | token 1, pointer 0, running |
| WebServer.Server.SendToWorker | src/web/server.rs:56-62 | the socket goes to the worker the round-robin index selects; the pointer then moves on modulo `n`, even when the send fails |
| WebServer.Server.Reregister | src/web/server.rs:40-50 | a failure shuts the loop down; nothing else changes |
| WebServer.Server.Accept | src/web/server.rs:64-85 | an accepted socket is dispatched; a failed accept dispatches nothing; the listener is re-registered in every case |
| WebServer.Server.Ready | src/web/server.rs:92-111 | token 0 or a foreign token panics; an error event shuts down; a readable event accepts |
| WebServer.DispatchInTurn | src/web/server.rs:56-62 | the `i`-th socket (from 0) goes to worker `i mod n` |
| WebServer.EveryWorkerServed | src/web/server.rs:56-62 | among any `n` consecutive sockets, every worker receives one |
| Client.Fill | src/bin/client.rs:123-138 | never more than asked; success exactly when the buffer is full; a failure is "failed to fill whole buffer" or a non-interrupt error |
| Client.FillConsumes | src/bin/client.rs:125-131 | the bytes read, followed by what is left of the stream, are the whole stream |
| Client.InterruptedIsRetried | src/bin/client.rs:128 | an interrupted read is retried without progress |
| Client.FillClean | src/bin/client.rs:123-138 | on a stream of plain reads, `Ok` exactly when the stream holds enough bytes, otherwise `InvalidData` "failed to fill whole buffer" |
| Client.FillTakesPrefix | src/bin/client.rs:123-138 | a success has read exactly the next bytes of the stream |
| Client.FillReadOk | src/bin/client.rs:127 | a non-empty read contributes its first bytes, up to what is still wanted, and the rest of the fill continues after them |
| Client.ReadExact | src/bin/client.rs:123-138 | the loop over the array ends with the result of `Fill`, the bytes read at the front of the buffer and the rest of it untouched; an empty buffer succeeds without reading |
| Client.ReadOnce | src/bin/client.rs:124-130 | one pass of the loop moves the filled mark forward on a read, stops on end of stream, returns a non-interrupt error, and keeps the result of `Fill` |
| Client.Deliver | src/bin/client.rs:127 | a non-empty read lands after the bytes already held, strictly advancing the filled mark without touching the buffer beyond it |
| Client.ReadFrame | src/bin/client.rs:76-85 | a frame read is a 4-byte little-endian length followed by exactly that many bytes |
| Client.ReceiveFrame | src/bin/client.rs:76-85 | the two exact reads on fresh buffers give the body and the rest of `ReadFrame` |
| Client.FirstFrame | src/bin/client.rs:76-85 | on a stream of plain reads starting with a 4-byte-length frame, the first frame read is its payload and the stream continues right after it |
| Client.RunReader | src/bin/client.rs:73-100 | the reader loop takes in the posts and stops with the error of the specification `Reader` |
| Client.ReaderRoundTrip | src/bin/client.rs:73-100 | for records that have their author, framed with a 4-byte length, however the reads split the stream, the reader takes in every post in order and stops only at the end of the stream; the codec need only parse a serialised record back to one equal under `eq` (src/post/message.rs:108-113 refuses to serialise a record without an author) |
| Client.PostFrameMisread | src/bin/client.rs:76-85 | a post framed by `into_bytes` (8-byte length) is misread: the first body is four zero bytes followed by the post less its last four bytes |
| Client.ShortPostFrame | src/post.rs:33-41 | a post framed by `into_bytes` with a length below 2^32: the first four bytes read as the length, then four zero bytes and the serialised post |
| Client.ShortLengthHeader | src/post.rs:38 | an 8-byte little-endian length below 2^32 is its 4-byte encoding followed by four zero bytes |
| Client.MisreadBody | src/bin/client.rs:76-85 | whatever the first four bytes of a stream say, the reader takes that many of the following bytes as the body |

## Left out

- `mio` itself is not modelled: socket registration, `reregister`, `EventLoop::run`/`shutdown`, timers, `thread::spawn` and channel delivery. Each enters the model only as success or failure.
- The handler of src/pb/server.rs is not modelled; in its place is the list of calls it makes on its `User` for each message.
- Protobuf wire encoding is not modelled: `write_to_bytes`, `parse_from_bytes`, the coded streams, `compute_size`, the descriptor tables and lazy statics of src/post/message.rs. It is an abstract `Codec`, and UTF-8 decoding in `merge_from` is an abstract function.
- ProtoFraming.ToBytes: `write_to_bytes().unwrap()` (src/pb/worker/utils.rs:8) panics on a record that is not initialised, for example one without an author (src/post/message.rs:108-113). The model's `encode` is total, so PbServer.Performed, PbServer.BroadcastLocalSpec and PbServer.Worker.PerformRequests queue bytes for a handler's uninitialised message where the source panics.
- PbServer.ProtoServer.constructor, WebServer.Server.constructor: the start-up registration of the listening socket, with its `.ok().expect(..)` (src/pb/server.rs:73-74, src/lib.rs:42-43), is not modelled. The servers start registered, and a failed start-up registration, which panics in the source, cannot occur.
- WebWorker.NotifySpec: `TaskFinished` carries its result as one string. src/lib.rs:23-26 declares a `Vec<String>`, but the shell sends a single `String` (src/shell.rs:21) and the result becomes a post's `text`, which is a `String` (src/post.rs:11).
- `to_bytes` of src/post/mod.rs is not part of this model. It uses protobuf's varint length delimiting.
- The `Slab` allocation policy is not modelled. The free slot `insert_with` finds is an input, and a full slab is `None`.
- src/shell.rs, src/main.rs, src/lib.rs, src/pb/mod.rs, src/bin/bench.rs and bench.py are not part of this model. They cover process spawning, command-line parsing, wiring and benchmarks.
- Other chunker files are not part of this model. Every connection uses the deframer of src/pb/worker/chunker.rs.
- The client's stdin writer thread, `write_message` and its printing are not modelled. Logging is left out throughout.
- Client.ReadExact: the read source is a finite list of read results, and an exhausted list means end of stream. An endless run of interrupted reads, which would spin forever, is not modelled.
- Client.ReadFrame: the header is read with byteorder's `read_u32`, modelled with the same loop and the same error as `read_exact`.
- PbServer.Worker.Ready: one re-registration answer per token holds for the whole event. Two re-registrations of the same token within one event cannot disagree.
- PbServer.HandleMessages, PbServer.ReadySpec, ChatWorker.HandlePosts, ChatWorker.ReadySpec, WebWorker.HandlePosts, WebWorker.ReadySpec, WebWorker.ReadSideSpec, and the `Worker` methods proved equal to them (`Readable`, `HandleAll`, `Ready`, `ReadSide`): the re-registration answer is a function of the token alone, shared by every `reregister` call made while one event is handled. Each broadcast of a batch and the writable and readable branches all see the same answer for a token. So a connection that survives one post's broadcast and fails on the next is not modelled. The "only drops connections" properties do not depend on this.
- ChatWorker.Worker.Notify: the shell's output is delivered as the raw bytes of the message (src/worker.rs:175-177). The web worker instead turns it into a post.
- WebWorker.TaskOf: src/web/worker.rs reads `post.author` and a string `text`, while the `Post` of src/post.rs has `login` and `text`. The model uses `login` as the author.
- ChatPost.ProtoPost: the generated `proto_post::Post` is not part of this model. It is taken to hold two optional strings, `login` and `text`, whose `take_*` accessors return "" when the field is unset, like the record of src/post/message.rs.
- Client.RunReader: the body is parsed as the record of src/post/message.rs and taken apart with `take` of src/post/mod.rs.
- The chat workers frame posts with an 8-byte length, but the client reads a 4-byte one. The model keeps both as written and states the mismatch in Client.PostFrameMisread.
