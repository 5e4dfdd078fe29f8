/** The bounded, lossy queues between the WebSocket and the session runner. */
module BoundedQueue {
  import opened Prelude

  /**
   * A queue together with everything that ever happened to it.  `offered` lists every frame
   * presented with put_nowait and `depths` how many frames waited at that moment; `taken`
   * lists the frames that a getter has received.
   */
  datatype Queue<T> = Queue(cap: nat, offered: seq<T>, depths: seq<nat>, taken: seq<T>, waiting: seq<T>)

  function Empty<T>(cap: nat): Queue<T> {
    Queue(cap, [], [], [], [])
  }

  /** put_nowait, with the refused frame dropped. */
  function Put<T>(q: Queue<T>, x: T): Queue<T> {
    q.(offered := q.offered + [x],
       depths := q.depths + [|q.waiting|],
       waiting := if |q.waiting| < q.cap then q.waiting + [x] else q.waiting)
  }

  function PutAll<T>(q: Queue<T>, xs: seq<T>): Queue<T> {
    if xs == [] then q else Put(PutAll(q, xs[..|xs| - 1]), xs[|xs| - 1])
  }

  function Take<T>(q: Queue<T>): Queue<T>
    requires q.waiting != []
  {
    q.(taken := q.taken + [q.waiting[0]], waiting := q.waiting[1..])
  }

  /** The offered frames that met a queue with a free slot. */
  ghost function Accepted<T>(offered: seq<T>, depths: seq<nat>, cap: nat): seq<T>
    requires |offered| == |depths|
  {
    if offered == [] then []
    else
      var n := |offered| - 1;
      Accepted(offered[..n], depths[..n], cap) + if depths[n] < cap then [offered[n]] else []
  }

  ghost function Dropped<T>(q: Queue<T>): nat {
    Count((d: nat) => d >= q.cap, q.depths)
  }

  /** Nothing is lost but the frames refused at a full queue, and nothing is reordered. */
  ghost predicate Accounted<T>(q: Queue<T>) {
    && |q.offered| == |q.depths|
    && |q.waiting| <= q.cap
    && (forall i :: 0 <= i < |q.depths| ==> q.depths[i] <= q.cap)
    && Accepted(q.offered, q.depths, q.cap) == q.taken + q.waiting
  }

  lemma PutKeepsAccounted<T>(q: Queue<T>, x: T)
    requires Accounted(q)
    ensures Accounted(Put(q, x))
  {
    var r := Put(q, x);
    assert r.offered[..|q.offered|] == q.offered && r.depths[..|q.depths|] == q.depths;
    assert q.taken + (q.waiting + [x]) == (q.taken + q.waiting) + [x];
  }

  lemma TakeKeepsAccounted<T>(q: Queue<T>)
    requires Accounted(q) && q.waiting != []
    ensures Accounted(Take(q))
  {
    assert q.taken + q.waiting == (q.taken + [q.waiting[0]]) + q.waiting[1..];
  }

  lemma {:induction false} PutAllEffect<T>(q: Queue<T>, xs: seq<T>)
    ensures PutAll(q, xs).offered == q.offered + xs
    ensures PutAll(q, xs).taken == q.taken && PutAll(q, xs).cap == q.cap
    ensures Accounted(q) ==> Accounted(PutAll(q, xs))
  {
    if xs == [] {
      assert q.offered + xs == q.offered;
    } else {
      var n := |xs| - 1;
      PutAllEffect(q, xs[..n]);
      assert xs == xs[..n] + [xs[n]];
      if Accounted(q) {
        PutKeepsAccounted(PutAll(q, xs[..n]), xs[n]);
      }
    }
  }

  lemma {:induction false} AcceptedSubsequence<T>(offered: seq<T>, depths: seq<nat>, cap: nat)
    requires |offered| == |depths|
    ensures Subsequence(Accepted(offered, depths, cap), offered)
    ensures |Accepted(offered, depths, cap)| + Count((d: nat) => d >= cap, depths) == |offered|
  {
    if offered == [] {
      SubsequenceRefl(offered);
    } else {
      var n := |offered| - 1;
      AcceptedSubsequence(offered[..n], depths[..n], cap);
      assert offered == offered[..n] + [offered[n]];
      if depths[n] < cap {
        SubsequenceKeep(Accepted(offered[..n], depths[..n], cap), offered[..n], offered[n]);
      } else {
        SubsequenceSkip(Accepted(offered[..n], depths[..n], cap), offered[..n], offered[n]);
        assert Accepted(offered, depths, cap) == Accepted(offered[..n], depths[..n], cap);
      }
    }
  }

  /**
   * Lossy FIFO accounting: what was taken followed by what waits is an order-preserving
   * subsequence of what was offered, the rest was dropped, and every drop met a full queue.
   */
  lemma LossyFifo<T>(q: Queue<T>)
    requires Accounted(q)
    ensures Subsequence(q.taken + q.waiting, q.offered)
    ensures |q.offered| == |q.taken| + |q.waiting| + Dropped(q)
    ensures forall i :: 0 <= i < |q.depths| && q.depths[i] >= q.cap ==> q.depths[i] == q.cap
  {
    AcceptedSubsequence(q.offered, q.depths, q.cap);
  }
}
