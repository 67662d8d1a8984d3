/** The bounded in-process queue: offers are refused at a backpressure threshold. */
module Ingestion {
  import opened Types

  /** What the ingest state holds. `maxsize` 0 means an unbounded queue. */
  datatype Ingest = Ingest(maxsize: nat, threshold: real, queue: seq<Signal>, accepted: nat, dropped: nat)

  function Empty(maxsize: nat, threshold: real): Ingest {
    Ingest(maxsize, threshold, [], 0, 0)
  }

  function PctFull(q: Ingest): real {
    if q.maxsize == 0 then 0.0 else |q.queue| as real / q.maxsize as real
  }

  predicate Backpressured(q: Ingest) {
    PctFull(q) >= q.threshold
  }

  predicate Full(q: Ingest) {
    0 < q.maxsize <= |q.queue|
  }

  /** The branch in which `put_nowait` would raise QueueFull. */
  predicate QueueFullBranch(q: Ingest) {
    !Backpressured(q) && Full(q)
  }

  predicate Accepts(q: Ingest) {
    !Backpressured(q) && !Full(q)
  }

  function Offered(q: Ingest, sig: Signal): Ingest {
    if Accepts(q) then q.(queue := q.queue + [sig], accepted := q.accepted + 1)
    else q.(dropped := q.dropped + 1)
  }

  function Taken(q: Ingest): Ingest
    requires q.queue != []
  {
    q.(queue := q.queue[1..])
  }

  class IngestQueue {
    const maxsize: nat
    const threshold: real
    var queue: seq<Signal>
    var accepted: nat
    var dropped: nat

    ghost function Snapshot(): Ingest
      reads this
    {
      Ingest(maxsize, threshold, queue, accepted, dropped)
    }

    constructor (maxsize: nat, threshold: real)
      ensures Snapshot() == Empty(maxsize, threshold)
    {
      this.maxsize, this.threshold := maxsize, threshold;
      queue, accepted, dropped := [], 0, 0;
    }

    function QueuePctFull(): real
      reads this
    {
      if maxsize != 0 then |queue| as real / maxsize as real else 0.0
    }

    predicate IsBackpressured()
      reads this
    {
      QueuePctFull() >= threshold
    }

    method Offer(sig: Signal) returns (ok: bool)
      modifies this
      ensures Snapshot() == Offered(old(Snapshot()), sig)
      ensures ok <==> Accepts(old(Snapshot()))
      ensures WithinDepth(old(Snapshot())) ==>
        (ok <==> if maxsize > 0 then |old(queue)| < DepthLimit(maxsize, threshold) else threshold > 0.0)
      ensures queue == if ok then old(queue) + [sig] else old(queue)
      ensures accepted + dropped == old(accepted) + old(dropped) + 1
    {
      if WithinDepth(Snapshot()) {
        AcceptsIsExact(Snapshot());
      }
      if IsBackpressured() {
        dropped := dropped + 1;
        return false;
      }
      if maxsize > 0 && |queue| >= maxsize {
        dropped := dropped + 1;
        return false;
      }
      queue := queue + [sig];
      accepted := accepted + 1;
      return true;
    }

    method Get() returns (sig: Signal)
      requires queue != []
      modifies this`queue
      ensures Snapshot() == Taken(old(Snapshot())) && sig == old(queue)[0]
    {
      sig := queue[0];
      queue := queue[1..];
    }
  }

  // ---------- The backpressure bound ----------

  function Ceil(x: real): int {
    -((-x).Floor)
  }

  lemma CeilIsLeast(x: real, n: int)
    ensures x <= n as real <==> Ceil(x) <= n
  {
  }

  /** The deepest the queue ever gets. */
  function DepthLimit(maxsize: nat, threshold: real): int
    requires maxsize > 0
  {
    if threshold <= 0.0 then 0
    else if threshold <= 1.0 then Ceil(threshold * maxsize as real)
    else maxsize
  }

  predicate WithinDepth(q: Ingest) {
    q.maxsize > 0 ==> |q.queue| <= DepthLimit(q.maxsize, q.threshold)
  }

  lemma PctMeansProduct(depth: nat, maxsize: nat, threshold: real)
    requires maxsize > 0
    ensures depth as real / maxsize as real >= threshold <==> depth as real >= threshold * maxsize as real
  {
    var m := maxsize as real;
    var pct := depth as real / m;
    assert pct * m == depth as real;
    if pct >= threshold {
      assert (pct - threshold) * m >= 0.0;
    } else {
      assert (threshold - pct) * m > 0.0;
    }
  }

  /** A threshold that is not positive refuses everything. */
  lemma NothingAccepted(q: Ingest)
    requires q.threshold <= 0.0
    ensures !Accepts(q)
  {
    if q.maxsize > 0 {
      PctMeansProduct(|q.queue|, q.maxsize, 0.0);
    }
  }

  lemma LimitAtMostSize(maxsize: nat, threshold: real)
    requires maxsize > 0
    ensures 0 <= DepthLimit(maxsize, threshold) <= maxsize
  {
    if 0.0 < threshold <= 1.0 {
      var m := maxsize as real;
      assert (1.0 - threshold) * m >= 0.0;
      assert threshold * m > 0.0;
      CeilIsLeast(threshold * m, maxsize);
      CeilIsLeast(threshold * m, -1);
    }
  }

  /** Within its depth limit a bounded queue takes a signal exactly below that limit, and an
      unbounded one exactly if the threshold is positive. */
  lemma AcceptsIsExact(q: Ingest)
    requires WithinDepth(q)
    ensures Accepts(q) <==>
      if q.maxsize > 0 then |q.queue| < DepthLimit(q.maxsize, q.threshold) else q.threshold > 0.0
  {
    if q.maxsize > 0 {
      var x := q.threshold * q.maxsize as real;
      LimitAtMostSize(q.maxsize, q.threshold);
      PctMeansProduct(|q.queue|, q.maxsize, q.threshold);
      CeilIsLeast(x, |q.queue|);
      if q.threshold <= 0.0 {
        NothingAccepted(q);
      } else if q.threshold > 1.0 {
        assert (q.threshold - 1.0) * q.maxsize as real > 0.0;
      }
    }
  }

  lemma OfferKeepsDepth(q: Ingest, sig: Signal)
    requires WithinDepth(q)
    ensures WithinDepth(Offered(q, sig))
  {
    if q.maxsize > 0 && Accepts(q) {
      var x := q.threshold * q.maxsize as real;
      PctMeansProduct(|q.queue|, q.maxsize, q.threshold);
      assert |q.queue| as real < x;
      CeilIsLeast(x, |q.queue|);
      assert q.threshold <= 0.0 ==> x <= 0.0;
    }
  }

  /** Within its depth limit, a queue is full without backpressure exactly when it holds
      `maxsize` signals under a threshold above 1. */
  lemma FullWithoutBackpressure(q: Ingest)
    requires WithinDepth(q)
    ensures QueueFullBranch(q) <==> q.maxsize > 0 && |q.queue| == q.maxsize && q.threshold > 1.0
  {
    if q.maxsize > 0 {
      LimitAtMostSize(q.maxsize, q.threshold);
      PctMeansProduct(|q.queue|, q.maxsize, q.threshold);
      var m := q.maxsize as real;
      if q.threshold <= 1.0 && |q.queue| == q.maxsize {
        assert (1.0 - q.threshold) * m >= 0.0;
      } else if q.threshold > 1.0 && |q.queue| == q.maxsize {
        assert (q.threshold - 1.0) * m > 0.0;
      }
    }
  }

  // ---------- Runs of the queue alone ----------

  datatype QueueOp = Put(sig: Signal) | Take

  function Apply(q: Ingest, op: QueueOp): Ingest {
    match op
    case Put(sig) => Offered(q, sig)
    case Take => if q.queue == [] then q else Taken(q)
  }

  function RunQueue(q: Ingest, ops: seq<QueueOp>): Ingest
    decreases |ops|
  {
    if ops == [] then q else RunQueue(Apply(q, ops[0]), ops[1..])
  }

  lemma {:induction false} RunKeepsDepth(q: Ingest, ops: seq<QueueOp>)
    requires WithinDepth(q)
    ensures WithinDepth(RunQueue(q, ops))
    ensures RunQueue(q, ops).maxsize == q.maxsize && RunQueue(q, ops).threshold == q.threshold
    decreases |ops|
  {
    if ops != [] {
      if ops[0].Put? {
        OfferKeepsDepth(q, ops[0].sig);
      }
      RunKeepsDepth(Apply(q, ops[0]), ops[1..]);
    }
  }

  /** The queue can be filled up to any depth within the limit. */
  lemma {:induction false} FillsTo(q: Ingest, sig: Signal, n: nat) returns (ops: seq<QueueOp>)
    requires WithinDepth(q)
    requires if q.maxsize > 0 then |q.queue| + n <= DepthLimit(q.maxsize, q.threshold) else n == 0 || q.threshold > 0.0
    ensures |RunQueue(q, ops).queue| == |q.queue| + n
    decreases n
  {
    if n == 0 {
      ops := [];
    } else {
      AcceptsIsExact(q);
      OfferKeepsDepth(q, sig);
      var rest := FillsTo(Offered(q, sig), sig, n - 1);
      ops := [Put(sig)] + rest;
      assert ops[1..] == rest;
    }
  }

  ghost predicate CanReachDepth(maxsize: nat, threshold: real, depth: nat) {
    exists ops :: |RunQueue(Empty(maxsize, threshold), ops).queue| == depth
  }

  /** A bounded queue reaches exactly the depths up to its limit; an unbounded one reaches
      every depth if the threshold is positive, and otherwise stays empty. */
  lemma DepthsAreExact(maxsize: nat, threshold: real, depth: nat)
    ensures CanReachDepth(maxsize, threshold, depth) <==>
      if maxsize > 0 then depth <= DepthLimit(maxsize, threshold) else depth == 0 || threshold > 0.0
  {
    var start := Empty(maxsize, threshold);
    if maxsize > 0 {
      LimitAtMostSize(maxsize, threshold);
    }
    forall ops ensures var r := RunQueue(start, ops);
      if maxsize > 0 then |r.queue| <= DepthLimit(maxsize, threshold) else |r.queue| == 0 || threshold > 0.0
    {
      RunKeepsDepth(start, ops);
      if maxsize == 0 && threshold <= 0.0 {
        StaysEmpty(start, ops);
      }
    }
    if if maxsize > 0 then depth <= DepthLimit(maxsize, threshold) else depth == 0 || threshold > 0.0 {
      var ops := FillsTo(start, Signal("c", Cache, Info, 0), depth);
    }
  }

  lemma {:induction false} StaysEmpty(q: Ingest, ops: seq<QueueOp>)
    requires q.threshold <= 0.0 && q.queue == []
    ensures RunQueue(q, ops).queue == []
    decreases |ops|
  {
    if ops != [] {
      NothingAccepted(q);
      StaysEmpty(Apply(q, ops[0]), ops[1..]);
    }
  }

  ghost predicate CanReachQueueFull(maxsize: nat, threshold: real) {
    exists ops :: QueueFullBranch(RunQueue(Empty(maxsize, threshold), ops))
  }

  /** The QueueFull branch is dead code for every threshold up to 1, and live for every
      threshold above it on a bounded queue. */
  lemma QueueFullReachable(maxsize: nat, threshold: real)
    ensures CanReachQueueFull(maxsize, threshold) <==> maxsize > 0 && threshold > 1.0
  {
    var start := Empty(maxsize, threshold);
    if maxsize > 0 {
      LimitAtMostSize(maxsize, threshold);
    }
    forall ops ensures QueueFullBranch(RunQueue(start, ops)) ==> maxsize > 0 && threshold > 1.0 {
      RunKeepsDepth(start, ops);
      FullWithoutBackpressure(RunQueue(start, ops));
    }
    if maxsize > 0 && threshold > 1.0 {
      var ops := FillsTo(start, Signal("c", Cache, Info, 0), maxsize);
      RunKeepsDepth(start, ops);
      FullWithoutBackpressure(RunQueue(start, ops));
    }
  }
}
