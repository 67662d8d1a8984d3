/** What one worker does in a row when nobody interrupts: the segments longer runs are made of. */
module SoloWorker {
  import opened Types
  import opened Ingestion
  import opened Debouncer

  /** Only worker w acts. */
  ghost predicate Alone(es: seq<Event>, w: nat) {
    forall k :: 0 <= k < |es| ==> es[k] == Advance(w)
  }

  lemma OneAlone(s: World, w: nat) returns (es: seq<Event>)
    requires w < |s.workers|
    ensures Alone(es, w) && Run(s, es) == Advanced(s, w)
  {
    es := [Advance(w)];
    RunOne(s, Advance(w));
  }

  lemma TwoAlone(s: World, w: nat) returns (es: seq<Event>)
    requires w < |s.workers|
    ensures Alone(es, w) && Run(s, es) == Advanced(Advanced(s, w), w)
  {
    es := [Advance(w), Advance(w)];
    RunTwo(s, Advance(w), Advance(w));
  }

  /** What worker w never touches between a fetch and its next one. */
  ghost predicate Beside(s: World, s': World, w: nat) {
    && |s'.workers| == |s.workers| && s'.ingest == s.ingest && s'.failures == s.failures
    && forall v :: 0 <= v < |s.workers| && v != w ==> s'.workers[v] == s.workers[v]
  }

  /** Documents, feed, rows, links and metrics are the same. */
  ghost predicate SameTables(s: World, s': World) {
    s'.docs == s.docs && s'.feed == s.feed && s'.items == s.items && s'.links == s.links && s'.metrics == s.metrics
  }

  /** Some signal of c. */
  function SignalFor(c: ComponentId): Signal {
    Signal(c, Cache, Info, 0)
  }

  /** A signal is offered and fetched: an empty queue takes it if the threshold is positive. */
  lemma Receive(s: World, w: nat, sig: Signal) returns (last: World, es: seq<Event>)
    requires w < |s.workers| && s.workers[w].Idle? && s.ingest.queue == [] && s.ingest.threshold > 0.0
    ensures last == Run(s, es) && SameTables(s, last) && last.dedup == s.dedup
    ensures last.workers == s.workers[w := Fetched(sig)]
    ensures last.ingest == s.ingest.(accepted := s.ingest.accepted + 1)
    ensures last.claims == s.claims && last.failures == s.failures
    ensures last.flow.arrivals == s.flow.arrivals + [sig]
  {
    last := Next(Next(s, Offer(sig)), Advance(w));
    es := [Offer(sig), Advance(w)];
    RunTwo(s, Offer(sig), Advance(w));
  }

  /** Insert and claim: the worker has won or lost. */
  lemma InsertAndClaim(s: World, w: nat) returns (last: World, es: seq<Event>)
    requires w < |s.workers| && s.workers[w].Fetched?
    ensures last == Run(s, es) && Alone(es, w) && Beside(s, last, w)
    ensures last.docs == s.docs + [s.workers[w].sig] && last.items == s.items && last.feed == s.feed
    ensures last.links == s.links && last.metrics == s.metrics && last.flow.arrivals == s.flow.arrivals
    ensures last.claims == s.claims.(wins := last.claims.wins)
    ensures var sig := s.workers[w].sig;
      if sig.component in s.dedup then last.workers[w] == Lost(sig, |s.docs|) && last.dedup == s.dedup
      else last.workers[w] == Won(sig, |s.docs|) && last.dedup == s.dedup[sig.component := Pending(|s.docs|)]
  {
    last := Advanced(Advanced(s, w), w);
    es := TwoAlone(s, w);
  }

  /** The winner creates its row. */
  lemma CreateRow(s: World, w: nat) returns (last: World, es: seq<Event>)
    requires w < |s.workers| && s.workers[w].Won?
    ensures last == Run(s, es) && Alone(es, w) && Beside(s, last, w) && last.claims == s.claims
    ensures last.docs == s.docs && last.feed == s.feed && last.links == s.links && last.metrics == s.metrics
    ensures last.dedup == s.dedup && last.items == s.items + [NewItem(s.workers[w].sig)]
    ensures last.workers[w] == Created(s.workers[w].sig, s.workers[w].doc, |s.items|)
    ensures last.flow.arrivals == s.flow.arrivals
  {
    last := Advanced(s, w);
    es := OneAlone(s, w);
  }

  /** It swaps the id in, if the key is still there. */
  lemma Swap(s: World, w: nat) returns (last: World, es: seq<Event>)
    requires w < |s.workers| && s.workers[w].Created?
    ensures last == Run(s, es) && Alone(es, w) && Beside(s, last, w) && last.claims == s.claims
    ensures SameTables(s, last) && last.flow.arrivals == s.flow.arrivals
    ensures var k := s.workers[w];
      && last.workers[w] == Announcing(k.sig, k.doc, k.item)
      && last.dedup == if k.sig.component in s.dedup then s.dedup[k.sig.component := Claimed(k.item)] else s.dedup
  {
    last := Advanced(s, w);
    es := OneAlone(s, w);
  }

  lemma Announce(s: World, w: nat) returns (last: World, es: seq<Event>)
    requires w < |s.workers| && s.workers[w].Announcing?
    ensures last == Run(s, es) && Alone(es, w) && Beside(s, last, w) && last.claims == s.claims
    ensures last.docs == s.docs && last.items == s.items && last.links == s.links && last.metrics == s.metrics
    ensures last.dedup == s.dedup && last.flow.arrivals == s.flow.arrivals
    ensures var k := s.workers[w];
      && last.workers[w] == Linking(k.sig, k.doc, k.item)
      && last.feed == s.feed[FeedEntry(k.item, k.sig.component) := Score(k.sig.severity)]
  {
    last := Advanced(s, w);
    es := OneAlone(s, w);
  }

  /** A loser finds an id and counts its signal there. */
  lemma LookUpAndAttach(s: World, w: nat) returns (last: World, es: seq<Event>)
    requires w < |s.workers| && s.workers[w].Lost? && s.workers[w].sig.component in s.dedup
    requires s.dedup[s.workers[w].sig.component].Claimed?
    ensures last == Run(s, es) && Alone(es, w) && Beside(s, last, w) && last.claims == s.claims
    ensures last.docs == s.docs && last.feed == s.feed && last.links == s.links && last.metrics == s.metrics
    ensures last.dedup == s.dedup && last.flow.arrivals == s.flow.arrivals
    ensures var k := s.workers[w]; var item := s.dedup[k.sig.component].item;
      last.workers[w] == Linking(k.sig, k.doc, item) && last.items == Incremented(s.items, item)
  {
    last := Advanced(Advanced(s, w), w);
    es := TwoAlone(s, w);
  }

  /** A loser finds a placeholder: its signal is lost. */
  lemma LookUpAndRaise(s: World, w: nat) returns (last: World, es: seq<Event>)
    requires w < |s.workers| && s.workers[w].Lost? && ReadsPlaceholder(s, s.workers[w])
    ensures last == Run(s, es) && Alone(es, w) && Beside(s, last, w) && last.workers[w].Idle?
    ensures SameTables(s, last) && last.dedup == s.dedup && last.flow.arrivals == s.flow.arrivals
    ensures last.claims
      == s.claims.(placeholderReads := Bump(s.claims.placeholderReads, s.workers[w].sig.component))
  {
    last := Advanced(s, w);
    es := OneAlone(s, w);
  }

  /** A loser finds no key and creates a row of its own. */
  lemma FallBack(s: World, w: nat) returns (last: World, es: seq<Event>)
    requires w < |s.workers| && s.workers[w].Lost? && s.workers[w].sig.component !in s.dedup
    ensures last == Run(s, es) && Alone(es, w) && Beside(s, last, w)
    ensures last.docs == s.docs && last.feed == s.feed && last.links == s.links && last.metrics == s.metrics
    ensures last.dedup == s.dedup && last.claims == s.claims.(misses := last.claims.misses)
    ensures last.items == s.items + [NewItem(s.workers[w].sig)]
    ensures last.workers[w] == Refilling(s.workers[w].sig, s.workers[w].doc, |s.items|)
  {
    last := Advanced(Advanced(s, w), w);
    es := TwoAlone(s, w);
  }

  /** It sets the key to its row. */
  lemma Refill(s: World, w: nat) returns (last: World, es: seq<Event>)
    requires w < |s.workers| && s.workers[w].Refilling?
    ensures last == Run(s, es) && Alone(es, w) && Beside(s, last, w) && last.claims == s.claims
    ensures SameTables(s, last) && last.dedup == s.dedup[s.workers[w].sig.component := Claimed(s.workers[w].item)]
    ensures last.workers[w] == Linking(s.workers[w].sig, s.workers[w].doc, s.workers[w].item)
  {
    last := Advanced(s, w);
    es := OneAlone(s, w);
  }

  /** Link, meter, finish. */
  lemma LinkAndMeter(s: World, w: nat) returns (last: World, es: seq<Event>)
    requires w < |s.workers| && s.workers[w].Linking?
    ensures last == Run(s, es) && Alone(es, w) && Beside(s, last, w) && last.workers[w].Idle?
    ensures last.claims == s.claims && last.docs == s.docs && last.feed == s.feed && last.items == s.items
    ensures last.dedup == s.dedup && last.flow.arrivals == s.flow.arrivals
    ensures var k := s.workers[w];
      && last.links == s.links + [LinkFor(k.sig, k.doc, k.item)]
      && last.metrics == Bump(s.metrics, MetricKeyFor(k.sig))
  {
    var s2 := Advanced(Advanced(s, w), w);
    var first := TwoAlone(s, w);
    assert s2.workers[w].Metered?;
    var more := OneAlone(s2, w);
    last, es := Advanced(s2, w), first + more;
    RunAppend(s, first, more);
  }

  /** A worker's pending call raises for good. */
  lemma FailOne(s: World, w: nat) returns (last: World, es: seq<Event>)
    requires w < |s.workers| && CanFail(s.workers[w])
    ensures last == Run(s, es) && last.workers == s.workers[w := Idle] && SameTables(s, last)
    ensures last.ingest == s.ingest && last.dedup == s.dedup && last.claims == s.claims
    ensures last.failures.all == Bump(s.failures.all, s.workers[w].sig.component)
  {
    last, es := Next(s, Fail(w)), [Fail(w)];
    RunOne(s, Fail(w));
  }
}
