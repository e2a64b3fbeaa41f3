/** How the servers lay out event-loop tokens, which workers see which peers, and how
    the listening side hands accepted sockets to the workers in turn. */
module Layout {
  import opened Connections

  /** The listening socket's token (src/pb/server.rs:69, src/web/server.rs:22). */
  const SERVER_TOKEN: Token := 1

  /** The slab capacities: src/pb/server.rs:191, src/worker.rs:33, src/web/worker.rs:34. */
  const PB_CAPACITY: nat := 100_000
  const CHAT_CAPACITY: nat := 1024
  const WEB_CAPACITY: nat := 10_000_000

  /** The first connection token of worker `id`. */
  function FirstConnToken(id: nat): (t: Token)
    requires id > 0
    ensures t >= 100 && t % 100 == 0
  {
    100 * id
  }

  /** The worker's own token, just below its first connection token. */
  function WorkerToken(id: nat): (t: Token)
    requires id > 0
    ensures t + 1 == FirstConnToken(id)
    ensures t != 0 && t != SERVER_TOKEN
  {
    100 * id - 1
  }

  /** Every token a worker's slab hands out is distinct from the reserved token 0, from
      the listening socket's token and from the worker's own token. (The ranges of
      different workers may overlap; each worker runs its own event loop.) */
  lemma ConnTokensAvoidReserved(id: nat, slot: Token)
    requires id > 0 && FirstConnToken(id) <= slot
    ensures slot != 0 && slot != SERVER_TOKEN && slot != WorkerToken(id)
  {
  }

  /** Worker ids are 1-based, and distinct workers have distinct tokens. */
  lemma WorkerTokensDistinct(a: nat, b: nat)
    requires a > 0 && b > 0 && a != b
    ensures WorkerToken(a) != WorkerToken(b)
  {
  }

  /** The workers other than `self` among `0..n`, in increasing order: the `filter` of
      `start` in src/pb/server.rs and src/web/worker.rs. */
  function Peers(n: nat, self: nat): (r: seq<nat>)
    ensures forall i: nat :: i in r <==> i < n && i != self
    ensures |r| == if self < n then n - 1 else n
    ensures forall i, j | 0 <= i < j < |r| :: r[i] < r[j]
    decreases n
  {
    if n == 0 then []
    else
      var below := Peers(n - 1, self);
      assert forall i | 0 <= i < |below| :: below[i] < n - 1 by {
        forall i | 0 <= i < |below| ensures below[i] < n - 1 {
          assert below[i] in below;
        }
      }
      if n - 1 == self then below else below + [n - 1]
  }

  // ---------------------------------------------------------------------------
  // Round robin

  /** The pointer update of `round_robin` and `send_to_worker`. */
  function Advanced(ptr: nat, n: nat): (r: nat)
    requires n > 0
    ensures r < n
  {
    (ptr + 1) % n
  }

  /** The pointer after `k` updates from 0. */
  function PtrAfter(n: nat, k: nat): (r: nat)
    requires n > 0
    ensures r < n
  {
    if k == 0 then 0 else Advanced(PtrAfter(n, k - 1), n)
  }

  /** A multiple of `n` strictly between `-n` and `n` is zero. */
  lemma MulZero(d: int, n: int)
    requires n > 0 && -n < d * n < n
    ensures d == 0
  {
  }

  /** Euclidean remainders are unique. */
  lemma ModUnique(k: int, n: int, q: int, r: int)
    requires n > 0 && 0 <= r < n && k == q * n + r
    ensures k % n == r
  {
    var q', r' := k / n, k % n;
    assert k == q' * n + r';
    assert (q - q') * n == r' - r;
    MulZero(q - q', n);
  }

  /** `k mod n` is one more than `(k - 1) mod n`, wrapping at `n`. */
  lemma ModStep(k: nat, n: nat)
    requires n > 0 && k > 0
    ensures k % n == if (k - 1) % n + 1 == n then 0 else (k - 1) % n + 1
  {
    var q, p := (k - 1) / n, (k - 1) % n;
    assert k - 1 == q * n + p;
    if p + 1 == n {
      assert k == (q + 1) * n + 0;
      ModUnique(k, n, q + 1, 0);
    } else {
      ModUnique(k, n, q, p + 1);
    }
  }

  /** After `k` updates from 0 the pointer is at `k mod n`. */
  lemma {:induction false} PtrAfterIsMod(n: nat, k: nat)
    requires n > 0
    ensures PtrAfter(n, k) == k % n
  {
    if k > 0 {
      PtrAfterIsMod(n, k - 1);
      var p := (k - 1) % n;
      ModStep(k, n);
      if p + 1 == n {
        ModUnique(p + 1, n, 1, 0);
      } else {
        ModUnique(p + 1, n, 0, p + 1);
      }
    }
  }
}
