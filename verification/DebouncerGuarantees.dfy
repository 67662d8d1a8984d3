/** What the debouncer guarantees over every run of any number of workers. */
module DebouncerGuarantees {
  import opened Types
  import opened Ingestion
  import opened Debouncer
  import opened DebouncerInvariants

  lemma ClaimsBound(s: World, c: ComponentId)
    requires ClaimsOk(s, c)
    ensures var r := At(s.claims.removals, c); var most := PerRemoval(|s.workers|, r);
      && At(s.claims.wins, c) <= r + 1 && At(s.claims.misses, c) <= most
      && Rows(s.items, c) <= 1 + most + r
  {
  }

  lemma OneFactorMore(n: nat, r: nat)
    ensures (n + 1) * r == n * r + r
  {
  }

  /** Whatever the interleaving, the expiries and the failures: component c is claimed at
      most once more than its key vanished, at most n losers per vanishing fall back, and so
      it gets at most one work item plus n + 1 for each time its key vanished. */
  lemma WorkItemsBounded(n: nat, maxsize: nat, threshold: real, es: seq<Event>, c: ComponentId)
    ensures var s := Run(Init(n, maxsize, threshold), es);
      && At(s.claims.wins, c) <= At(s.claims.removals, c) + 1
      && At(s.claims.misses, c) <= n * At(s.claims.removals, c)
      && Rows(s.items, c) <= 1 + (n + 1) * At(s.claims.removals, c)
  {
    InitInv(n, maxsize, threshold);
    RunKeepsInv(Init(n, maxsize, threshold), es);
    var s := Run(Init(n, maxsize, threshold), es);
    ClaimsBound(s, c);
    PerRemovalIsProduct(n, At(s.claims.removals, c));
    OneFactorMore(n, At(s.claims.removals, c));
  }

  /** Dedup values, links and feed members never dangle and never cross components. */
  lemma ReferencesHold(n: nat, maxsize: nat, threshold: real, es: seq<Event>)
    ensures RefsOk(Run(Init(n, maxsize, threshold), es))
  {
    InitInv(n, maxsize, threshold);
    RunKeepsInv(Init(n, maxsize, threshold), es);
  }

  /** A work item's signal count is its links, plus the workers that counted a signal and
      have not linked it, plus the runs that failed in between; so it is never below its links. */
  lemma SignalCountExplained(n: nat, maxsize: nat, threshold: real, es: seq<Event>, i: nat)
    ensures var s := Run(Init(n, maxsize, threshold), es);
      i < |s.items| ==>
        && s.items[i].signalCount
           == LinksOf(s.links, i) + Count(s.workers, IsUnlinked(i)) + At(s.failures.orphans, i)
        && s.items[i].signalCount >= LinksOf(s.links, i)
  {
    InitInv(n, maxsize, threshold);
    RunKeepsInv(Init(n, maxsize, threshold), es);
    assert ItemOk(Run(Init(n, maxsize, threshold), es), i);
  }

  /** Nothing is queued and no worker is busy. */
  predicate Complete(s: World) {
    s.ingest.queue == [] && forall w :: 0 <= w < |s.workers| ==> s.workers[w].Idle?
  }

  lemma CompleteCounts(s: World, p: Probe)
    requires Complete(s)
    ensures Count(s.workers, p) == 0
  {
    CountBounds(s.workers, p);
  }

  /** In every complete run, each accepted signal of c was counted by exactly one work item
      of c, or lost to a placeholder read, or lost to a failure before it was counted. */
  lemma EverySignalAccountedFor(n: nat, maxsize: nat, threshold: real, es: seq<Event>, c: ComponentId)
    ensures var s := Run(Init(n, maxsize, threshold), es);
      Complete(s) ==>
        SignalsOf(s.flow.arrivals, c)
        == Counted(s.items, c) + At(s.claims.placeholderReads, c) + At(s.failures.uncounted, c)
  {
    InitInv(n, maxsize, threshold);
    RunKeepsInv(Init(n, maxsize, threshold), es);
    var s := Run(Init(n, maxsize, threshold), es);
    if Complete(s) {
      CompleteCounts(s, IsUncounted(c));
      assert ReceivedOk(s, c);
      assert s.flow.arrivals == s.flow.fetched;
    }
  }

  /** The only work item of c. */
  ghost predicate OnlyItem(s: World, c: ComponentId, i: nat) {
    IsItemOf(s.items, i, c) && forall j: nat :: IsItemOf(s.items, j, c) ==> j == i
  }

  /** Nothing is left to do, c's key never vanished, no call for c failed, and c got a signal. */
  ghost predicate Undisturbed(s: World, c: ComponentId) {
    && Complete(s) && SignalsOf(s.flow.arrivals, c) > 0
    && At(s.claims.removals, c) == 0 && At(s.failures.all, c) == 0
  }

  lemma UndisturbedHasOneRow(s: World, c: ComponentId)
    requires ClaimsOk(s, c) && ReceivedOk(s, c) && FlowOk(s) && Undisturbed(s, c)
    ensures Rows(s.items, c) == 1
    ensures Counted(s.items, c) + At(s.claims.placeholderReads, c) == SignalsOf(s.flow.arrivals, c)
  {
    CompleteCounts(s, IsCreating(c));
    CompleteCounts(s, IsUncounted(c));
    RowsLocate(s.items, c);
    assert s.flow.arrivals == s.flow.fetched;
  }

  /** A complete run in which c's key never vanished and no call for c failed debounces
      perfectly: one work item, which counts and links every signal not lost to a placeholder read. */
  lemma CompleteRunDebounces(n: nat, maxsize: nat, threshold: real, es: seq<Event>, c: ComponentId)
    ensures var s := Run(Init(n, maxsize, threshold), es);
      Undisturbed(s, c) ==>
        exists i: nat ::
          OnlyItem(s, c, i)
          && s.items[i].signalCount + At(s.claims.placeholderReads, c) == SignalsOf(s.flow.arrivals, c)
          && LinksOf(s.links, i) == s.items[i].signalCount
  {
    InitInv(n, maxsize, threshold);
    RunKeepsInv(Init(n, maxsize, threshold), es);
    var s := Run(Init(n, maxsize, threshold), es);
    if Undisturbed(s, c) {
      UndisturbedHasOneRow(s, c);
      RowsLocate(s.items, c);
      var i: nat :| IsItemOf(s.items, i, c) && s.items[i].signalCount == Counted(s.items, c)
        && forall j: nat :: IsItemOf(s.items, j, c) ==> j == i;
      CompleteCounts(s, IsUnlinked(i));
      assert ItemOk(s, i) && OnlyItem(s, c, i);
    }
  }

  /** Signals are conserved, leave in the order they came, and every get has one task_done. */
  lemma SignalsConserved(n: nat, maxsize: nat, threshold: real, es: seq<Event>)
    ensures var s := Run(Init(n, maxsize, threshold), es); var busy := Count(s.workers, IsBusy);
      && s.flow.offers == s.ingest.accepted + s.ingest.dropped
      && s.ingest.accepted == |s.ingest.queue| + busy + s.flow.processed + s.flow.failed
      && s.flow.arrivals == s.flow.fetched + s.ingest.queue
      && |s.flow.fetched| == s.flow.tasksDone + busy
  {
    InitInv(n, maxsize, threshold);
    RunKeepsInv(Init(n, maxsize, threshold), es);
  }

  lemma {:induction false} RunKeepsLimits(s: World, es: seq<Event>)
    ensures Run(s, es).ingest.maxsize == s.ingest.maxsize && Run(s, es).ingest.threshold == s.ingest.threshold
    decreases |es|
  {
    if es != [] {
      RunKeepsLimits(Next(s, es[0]), es[1..]);
    }
  }

  /** The queue never gets deeper than the ceiling of threshold times size, and then
      `put_nowait` never raises. */
  lemma QueueDepthBounded(n: nat, maxsize: nat, threshold: real, es: seq<Event>)
    requires maxsize > 0
    ensures var q := Run(Init(n, maxsize, threshold), es).ingest;
      && |q.queue| <= DepthLimit(maxsize, threshold) <= maxsize
      && (0.0 < threshold <= 1.0 ==> |q.queue| <= Ceil(threshold * maxsize as real) && !QueueFullBranch(q))
  {
    InitInv(n, maxsize, threshold);
    RunKeepsInv(Init(n, maxsize, threshold), es);
    RunKeepsLimits(Init(n, maxsize, threshold), es);
    var q := Run(Init(n, maxsize, threshold), es).ingest;
    LimitAtMostSize(maxsize, threshold);
    FullWithoutBackpressure(q);
  }

  /** There are metric rows for whole minutes only. The row of a minute, component and
      severity counts the fetched signals of that component and severity whose timestamps
      fall in that minute, but for those still held before their upsert and those lost; in a
      complete run that is every accepted signal, metered once or lost. All rows together
      are the processed signals and those about to be. */
  lemma MetricsCountSignals(n: nat, maxsize: nat, threshold: real, es: seq<Event>, k: MetricKey)
    ensures var s := Run(Init(n, maxsize, threshold), es);
      && (forall key :: key in s.metrics ==> key.bucket % 60_000_000 == 0)
      && (k.bucket % 60_000_000 == 0 ==>
           && At(s.metrics, k) + Count(s.workers, IsUnmetered(k)) + SignalsIn(s.flow.lost, k)
              == SignalsIn(s.flow.fetched, k)
           && (Complete(s) ==> At(s.metrics, k) + SignalsIn(s.flow.lost, k) == SignalsIn(s.flow.arrivals, k)))
      && Total(s.metrics) == s.flow.processed + Count(s.workers, IsMetered)
  {
    InitInv(n, maxsize, threshold);
    RunKeepsInv(Init(n, maxsize, threshold), es);
    var s := Run(Init(n, maxsize, threshold), es);
    assert MetricOk(s, k);
    assert forall key :: key in s.metrics ==> Aligned(key);
    if Complete(s) {
      CompleteCounts(s, IsUnmetered(k));
      assert s.flow.arrivals == s.flow.fetched;
    }
  }
}
