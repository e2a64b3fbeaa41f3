/** The listening side of the chat server in src/web/server.rs: it accepts sockets and
    hands each to the next worker in turn. Unlike the `ProtoServer` of src/pb/server.rs,
    it sends first and moves the pointer afterwards, so the first socket goes to worker 0. */
module WebServer {
  import opened Io
  import opened Connections
  import opened Layout

  class Server {
    const token: Token
    const nWorkers: nat
    var workerPtr: nat
    /** False once the event loop has been asked to shut down. */
    var running: bool
    /** The worker each accepted socket was sent to, in order, whether or not the send
        succeeded. */
    ghost var dispatched: seq<nat>

    ghost predicate Valid()
      reads this
    {
      && nWorkers > 0 && token == SERVER_TOKEN
      && workerPtr == PtrAfter(nWorkers, |dispatched|)
      && forall i | 0 <= i < |dispatched| :: dispatched[i] == PtrAfter(nWorkers, i)
    }

    /** `Server::new` over the `n` workers `Worker::start` made (it panics unless `n > 0`). */
    constructor (nWorkers: nat)
      requires nWorkers > 0
      ensures Valid() && this.nWorkers == nWorkers
      ensures workerPtr == 0 && running && dispatched == []
    {
      token := SERVER_TOKEN;
      this.nWorkers := nWorkers;
      workerPtr := 0;
      running := true;
      dispatched := [];
    }

    /** `send_to_worker`: the socket goes to the worker the round-robin index selects, and the pointer
        moves on even when the send fails; `sendResult` is the channel's answer. */
    method SendToWorker(sendResult: Status) returns (target: nat, status: Status)
      requires Valid()
      modifies this
      ensures Valid()
      ensures target == old(workerPtr) && target < nWorkers && status == sendResult
      ensures workerPtr == Advanced(old(workerPtr), nWorkers)
      ensures dispatched == old(dispatched) + [target] && running == old(running)
    {
      target := workerPtr;
      status := sendResult;
      workerPtr := workerPtr + 1;
      workerPtr := workerPtr % nWorkers;
      dispatched := dispatched + [target];
    }

    /** `reregister`: a failure shuts the event loop down. */
    method Reregister(reregisterOk: bool)
      modifies this
      ensures running == (old(running) && reregisterOk)
      ensures workerPtr == old(workerPtr) && dispatched == old(dispatched)
    {
      if !reregisterOk {
        running := false;
      }
    }

    /** `accept`: a socket is sent on (a failed send is only logged); whatever happened,
        the listener is re-registered. */
    method Accept(accepted: AcceptResult, sendResult: Status, reregisterOk: bool)
      requires Valid()
      modifies this
      ensures Valid()
      ensures dispatched == old(dispatched) + (if accepted.Incoming? then [old(workerPtr)] else [])
      ensures running == (old(running) && reregisterOk)
    {
      if accepted.Incoming? {
        var _, _ := SendToWorker(sendResult);
      }
      Reregister(reregisterOk);
    }

    /** `ready`: an event for token 0 or for any token but the listener's panics; an error
        event shuts down; a readable event accepts. */
    method Ready(tok: Token, events: EventSet, accepted: AcceptResult, sendResult: Status,
                 reregisterOk: bool) returns (outcome: Outcome)
      requires Valid()
      modifies this
      ensures Valid()
      ensures tok == 0 ==> outcome == Panicked(ZeroToken)
      ensures tok != 0 && tok != token ==> outcome == Panicked(UnexpectedToken)
      ensures tok != token || Error in events || Readable !in events ==> dispatched == old(dispatched)
      ensures tok == token ==> outcome == Completed
      ensures tok == token && Error in events ==> !running
      ensures tok == token && Error !in events && Readable in events ==>
                && dispatched == old(dispatched) + (if accepted.Incoming? then [old(workerPtr)] else [])
                && running == (old(running) && reregisterOk)
      ensures tok != token || (Error !in events && Readable !in events) ==> running == old(running)
    {
      if tok == 0 {
        return Panicked(ZeroToken);
      }
      if tok != token {
        return Panicked(UnexpectedToken);
      }
      if Error in events {
        running := false;
        return Completed;
      }
      if Readable in events {
        Accept(accepted, sendResult, reregisterOk);
      }
      outcome := Completed;
    }
  }

  /** The `i`-th socket handed on (counting from 0) goes to worker `i mod n`. */
  lemma DispatchInTurn(n: nat, dispatched: seq<nat>, i: nat)
    requires n > 0 && i < |dispatched|
    requires forall j | 0 <= j < |dispatched| :: dispatched[j] == PtrAfter(n, j)
    ensures dispatched[i] == i % n
  {
    PtrAfterIsMod(n, i);
  }

  /** Among any `n` consecutive sockets, every worker gets one. */
  lemma EveryWorkerServed(n: nat, dispatched: seq<nat>, start: nat, w: nat)
    requires n > 0 && w < n && start + n <= |dispatched|
    requires forall j | 0 <= j < |dispatched| :: dispatched[j] == PtrAfter(n, j)
    ensures exists j :: start <= j < start + n && dispatched[j] == w
  {
    var q, r := start / n, start % n;
    assert start == q * n + r;
    var j, k;
    if w >= r {
      j, k := start + (w - r), q;
    } else {
      j, k := start + (n - r) + w, q + 1;
      assert (q + 1) * n == q * n + n;
    }
    assert j == k * n + w;
    ModUnique(j, n, k, w);
    DispatchInTurn(n, dispatched, j);
    assert dispatched[j] == w;
  }
}
