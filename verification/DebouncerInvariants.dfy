/** What every event of the debouncer keeps, whatever the interleaving. */
module DebouncerInvariants {
  import opened Types
  import opened Ingestion
  import opened Debouncer
  import States

  // ---------- References: index and tables agree ----------

  ghost predicate WorkerOk(items: seq<WorkItem>, k: Worker) {
    && (Unlinked(k) || k.Attaching? ==> IsItemOf(items, k.item, k.sig.component))
    && (k.Created? || k.Announcing? || k.Refilling? ==> items[k.item].severity == k.sig.severity)
  }

  ghost predicate DedupOk(items: seq<WorkItem>, dedup: map<ComponentId, Dedup>) {
    forall c :: c in dedup && dedup[c].Claimed? ==> IsItemOf(items, dedup[c].item, c)
  }

  ghost predicate LinksOk(items: seq<WorkItem>, links: seq<Link>) {
    forall k :: 0 <= k < |links| ==> IsItemOf(items, links[k].item, links[k].component)
  }

  ghost predicate FeedOk(items: seq<WorkItem>, feed: map<FeedEntry, int>) {
    forall e :: e in feed ==> IsItemOf(items, e.item, e.component) && feed[e] == Score(items[e.item].severity)
  }

  ghost predicate WorkersOk(items: seq<WorkItem>, workers: seq<Worker>) {
    forall w :: 0 <= w < |workers| ==> WorkerOk(items, workers[w])
  }

  /** A numeric dedup value, a link, a feed member and a worker's id always refer to an
      existing work item of the same component, and a feed score is that item's. */
  ghost predicate RefsOk(s: World) {
    DedupOk(s.items, s.dedup) && LinksOk(s.items, s.links) && FeedOk(s.items, s.feed) && WorkersOk(s.items, s.workers)
  }

  /** Rows are only added, and keep their component and severity. */
  predicate Grows(before: seq<WorkItem>, after: seq<WorkItem>) {
    && |before| <= |after|
    && forall i :: 0 <= i < |before| ==>
      after[i].component == before[i].component && after[i].severity == before[i].severity
  }

  lemma GrowthKeepsRefs(s: World, items: seq<WorkItem>)
    requires RefsOk(s) && Grows(s.items, items)
    ensures RefsOk(s.(items := items))
  {
  }

  lemma StepGrows(items: seq<WorkItem>, k: Worker)
    ensures Grows(items, ItemsAfter(items, CallOf(k)))
  {
  }

  lemma StepKeepsDedup(items: seq<WorkItem>, dedup: map<ComponentId, Dedup>, k: Worker)
    requires WorkerOk(items, k) && DedupOk(items, dedup)
    ensures DedupOk(items, DedupAfter(dedup, CallOf(k)))
  {
  }

  lemma StepKeepsLinks(items: seq<WorkItem>, links: seq<Link>, k: Worker)
    requires WorkerOk(items, k) && LinksOk(items, links)
    ensures LinksOk(items, LinksAfter(links, CallOf(k)))
  {
  }

  lemma StepKeepsFeed(items: seq<WorkItem>, feed: map<FeedEntry, int>, k: Worker)
    requires WorkerOk(items, k) && FeedOk(items, feed)
    ensures FeedOk(items, FeedAfter(feed, CallOf(k)))
  {
  }

  lemma StepKeepsWorker(s: World, k: Worker)
    requires WorkerOk(s.items, k) && DedupOk(s.items, s.dedup)
    ensures WorkerOk(ItemsAfter(s.items, CallOf(k)), Resumed(s, k))
  {
  }

  lemma AdvanceKeepsRefs(s: World, w: nat)
    requires RefsOk(s) && w < |s.workers|
    ensures RefsOk(Advanced(s, w)) && Grows(s.items, Advanced(s, w).items)
  {
    var k := s.workers[w];
    var items := ItemsAfter(s.items, CallOf(k));
    StepGrows(s.items, k);
    GrowthKeepsRefs(s, items);
    assert WorkerOk(s.items, k) && WorkerOk(items, k);
    StepKeepsDedup(items, s.dedup, k);
    StepKeepsLinks(items, s.links, k);
    StepKeepsFeed(items, s.feed, k);
    StepKeepsWorker(s, k);
  }

  lemma EventKeepsRefs(s: World, e: Event)
    requires RefsOk(s)
    ensures RefsOk(Next(s, e)) && Grows(s.items, Next(s, e).items)
  {
    match e {
      case Advance(w) => if w < |s.workers| { AdvanceKeepsRefs(s, w); }
      case Update(item, result) =>
        if item < |s.items| {
          GrowthKeepsRefs(s, s.items[item := States.Updated(s.items[item], result)]);
        }
      case _ =>
    }
  }

  // ---------- Claims, misses and rows of one component ----------

  /** n for each of r removals, as a sum. */
  function PerRemoval(n: nat, r: nat): nat {
    if r == 0 then 0 else PerRemoval(n, r - 1) + n
  }

  lemma {:induction false} PerRemovalIsProduct(n: nat, r: nat)
    ensures PerRemoval(n, r) == n * r
  {
    if r > 0 {
      PerRemovalIsProduct(n, r - 1);
    }
  }

  /** Wins are bounded by the removals, and the losers that found the key missing by the
      workers a removal can catch between losing and looking. */
  ghost predicate BoundOk(s: World, c: ComponentId) {
    var wins, misses, removals := At(s.claims.wins, c), At(s.claims.misses, c), At(s.claims.removals, c);
    if c in s.dedup
    then wins <= removals + 1 && misses <= PerRemoval(|s.workers|, removals)
    else wins <= removals && misses + Count(s.workers, IsLost(c)) <= PerRemoval(|s.workers|, removals)
  }

  /** Rows of c come from wins and misses and from nothing else. */
  ghost predicate RowsOk(s: World, c: ComponentId) {
    var claimed := At(s.claims.wins, c) + At(s.claims.misses, c);
    var made := Rows(s.items, c) + Count(s.workers, IsCreating(c));
    made <= claimed <= made + At(s.failures.all, c)
  }

  /** Nothing of c happens before its first win. */
  ghost predicate FirstWinOk(s: World, c: ComponentId) {
    At(s.claims.wins, c) == 0 ==>
      && c !in s.dedup && At(s.claims.misses, c) == 0 && At(s.claims.placeholderReads, c) == 0
      && Count(s.workers, IsLost(c)) == 0
  }

  ghost predicate ClaimsOk(s: World, c: ComponentId) {
    BoundOk(s, c) && RowsOk(s, c) && FirstWinOk(s, c)
  }

  /** What one step adds to the rows of c and to the signals they count. */
  lemma StepRows(items: seq<WorkItem>, k: Worker, c: ComponentId)
    requires WorkerOk(items, k)
    ensures Rows(ItemsAfter(items, CallOf(k)), c) == Rows(items, c) + Ask(IsCreating(c), k)
    ensures Counted(ItemsAfter(items, CallOf(k)), c) == Counted(items, c) + StepCounts(k, c)
  {
    if k.Won? || k.Missed? {
      RowsAppend(items, NewItem(k.sig), c);
    } else if k.Attaching? {
      RowsReplace(items, k.item, items[k.item].(signalCount := items[k.item].signalCount + 1), c);
    } else {
      assert ItemsAfter(items, CallOf(k)) == items;
    }
  }

  function StepCounts(k: Worker, c: ComponentId): nat {
    if (k.Won? || k.Missed? || k.Attaching?) && k.sig.component == c then 1 else 0
  }

  function StepWins(s: World, k: Worker, c: ComponentId): nat {
    if k.Stored? && k.sig.component == c && c !in s.dedup then 1 else 0
  }

  function StepMisses(s: World, k: Worker, c: ComponentId): nat {
    if k.Lost? && k.sig.component == c && c !in s.dedup then 1 else 0
  }

  function StepPlaceholders(s: World, k: Worker, c: ComponentId): nat {
    if ReadsPlaceholder(s, k) && k.sig.component == c then 1 else 0
  }

  lemma StepWinsTally(s: World, k: Worker, c: ComponentId)
    ensures At(ClaimsAfter(s, k).wins, c) == At(s.claims.wins, c) + StepWins(s, k, c)
  {
  }

  lemma StepMissesTally(s: World, k: Worker, c: ComponentId)
    ensures At(ClaimsAfter(s, k).misses, c) == At(s.claims.misses, c) + StepMisses(s, k, c)
  {
  }

  lemma StepReadsTally(s: World, k: Worker, c: ComponentId)
    ensures At(ClaimsAfter(s, k).placeholderReads, c) == At(s.claims.placeholderReads, c) + StepPlaceholders(s, k, c)
  {
  }

  /** What one step adds to the tallies of c. */
  lemma StepClaims(s: World, k: Worker, c: ComponentId)
    ensures var after := ClaimsAfter(s, k);
      && At(after.wins, c) == At(s.claims.wins, c) + StepWins(s, k, c)
      && At(after.misses, c) == At(s.claims.misses, c) + StepMisses(s, k, c)
      && At(after.placeholderReads, c) == At(s.claims.placeholderReads, c) + StepPlaceholders(s, k, c)
      && after.removals == s.claims.removals
  {
    StepWinsTally(s, k, c);
    StepMissesTally(s, k, c);
    StepReadsTally(s, k, c);
  }

  lemma StepProbes(s: World, k: Worker, c: ComponentId)
    ensures Ask(IsLost(c), Resumed(s, k)) == (if k.Stored? && k.sig.component == c && c in s.dedup then 1 else 0)
    ensures Ask(IsCreating(c), Resumed(s, k)) == StepWins(s, k, c) + StepMisses(s, k, c)
    ensures Ask(IsUncounted(c), Resumed(s, k))
      == if k.Idle? then (if s.ingest.queue != [] && s.ingest.queue[0].component == c then 1 else 0)
         else Ask(IsUncounted(c), k) - StepCounts(k, c) - StepPlaceholders(s, k, c)
  {
  }

  lemma StepDedup(s: World, k: Worker, c: ComponentId)
    ensures c in DedupAfter(s.dedup, CallOf(k)) <==>
      c in s.dedup || StepWins(s, k, c) == 1 || (k.Refilling? && k.sig.component == c)
  {
  }

  lemma StepFalling(s: World, k: Worker, c: ComponentId)
    ensures Ask(IsFalling(c), Resumed(s, k)) + (if k.Refilling? && k.sig.component == c then 1 else 0)
      == Ask(IsFalling(c), k) + StepMisses(s, k, c)
  {
  }

  lemma AdvanceKeepsBound(s: World, w: nat, c: ComponentId)
    requires BoundOk(s, c) && w < |s.workers|
    ensures BoundOk(Advanced(s, w), c)
  {
    var k := s.workers[w];
    CountMove(s.workers, w, Resumed(s, k), IsLost(c));
    StepProbes(s, k, c);
    StepClaims(s, k, c);
    StepDedup(s, k, c);
  }

  lemma AdvanceKeepsRows(s: World, w: nat, c: ComponentId)
    requires RefsOk(s) && RowsOk(s, c) && w < |s.workers|
    ensures RowsOk(Advanced(s, w), c)
  {
    var k := s.workers[w];
    assert WorkerOk(s.items, k);
    CountMove(s.workers, w, Resumed(s, k), IsCreating(c));
    StepRows(s.items, k, c);
    StepProbes(s, k, c);
    StepClaims(s, k, c);
  }

  /** A worker about to refill c's key holds a row of c, so somebody has claimed c before. */
  lemma RefillMeansRow(items: seq<WorkItem>, k: Worker)
    requires WorkerOk(items, k) && k.Refilling?
    ensures Rows(items, k.sig.component) > 0
  {
    RowsLocate(items, k.sig.component);
  }

  lemma AdvanceKeepsFirstWin(s: World, w: nat, c: ComponentId)
    requires RefsOk(s) && RowsOk(s, c) && FirstWinOk(s, c) && w < |s.workers|
    ensures FirstWinOk(Advanced(s, w), c)
  {
    var k := s.workers[w];
    assert WorkerOk(s.items, k);
    CountMove(s.workers, w, Resumed(s, k), IsLost(c));
    CountBounds(s.workers, IsLost(c));
    StepProbes(s, k, c);
    StepClaims(s, k, c);
    StepDedup(s, k, c);
    if k.Refilling? && k.sig.component == c {
      RefillMeansRow(s.items, k);
    }
  }

  lemma VanishKeepsClaims(s: World, d: ComponentId, c: ComponentId)
    requires ClaimsOk(s, c) && d in s.dedup
    ensures ClaimsOk(Vanished(s, d), c)
  {
    CountBounds(s.workers, IsLost(c));
  }

  lemma FailKeepsClaims(s: World, w: nat, c: ComponentId)
    requires ClaimsOk(s, c) && w < |s.workers| && CanFail(s.workers[w])
    ensures ClaimsOk(Failed(s, w), c)
  {
    CountMove(s.workers, w, Idle, IsLost(c));
    CountMove(s.workers, w, Idle, IsCreating(c));
  }

  lemma UpdateKeepsRows(items: seq<WorkItem>, i: nat, r: States.TransitionResult, c: ComponentId)
    requires i < |items|
    ensures var after := items[i := States.Updated(items[i], r)];
      Rows(after, c) == Rows(items, c) && Counted(after, c) == Counted(items, c)
  {
    RowsReplace(items, i, States.Updated(items[i], r), c);
  }

  lemma EventKeepsClaims(s: World, e: Event, c: ComponentId)
    requires RefsOk(s) && ClaimsOk(s, c)
    ensures ClaimsOk(Next(s, e), c)
  {
    match e {
      case Advance(w) =>
        if w < |s.workers| {
          AdvanceKeepsBound(s, w, c);
          AdvanceKeepsRows(s, w, c);
          AdvanceKeepsFirstWin(s, w, c);
        }
      case Fail(w) => if w < |s.workers| && CanFail(s.workers[w]) { FailKeepsClaims(s, w, c); }
      case Remove(d) => if d in s.dedup { VanishKeepsClaims(s, d, c); }
      case Update(i, r) => if i < |s.items| { UpdateKeepsRows(s.items, i, r, c); }
      case _ =>
    }
  }

  // ---------- Signals counted, linked, orphaned: one work item ----------

  function SignalCount(items: seq<WorkItem>, i: nat): nat {
    if i < |items| then items[i].signalCount else 0
  }

  /** A row counts its links, the workers yet to link it, and the runs that died in between. */
  ghost predicate ItemOk(s: World, i: nat) {
    SignalCount(s.items, i) == LinksOf(s.links, i) + Count(s.workers, IsUnlinked(i)) + At(s.failures.orphans, i)
  }

  /** What one step adds to the count and to the links of work item i. */
  lemma StepItem(s: World, k: Worker, i: nat)
    requires WorkerOk(s.items, k)
    ensures SignalCount(ItemsAfter(s.items, CallOf(k)), i) - SignalCount(s.items, i)
      == Ask(IsUnlinked(i), Resumed(s, k)) - (if k.Linking? then 0 else Ask(IsUnlinked(i), k))
    ensures LinksOf(LinksAfter(s.links, CallOf(k)), i)
      == LinksOf(s.links, i) + (if k.Linking? then Ask(IsUnlinked(i), k) else 0)
  {
    if k.Linking? {
      assert (s.links + [CallOf(k).link])[..|s.links|] == s.links;
    }
  }

  lemma AdvanceKeepsItem(s: World, w: nat, i: nat)
    requires RefsOk(s) && ItemOk(s, i) && w < |s.workers|
    ensures ItemOk(Advanced(s, w), i)
  {
    var k := s.workers[w];
    assert WorkerOk(s.items, k);
    CountMove(s.workers, w, Resumed(s, k), IsUnlinked(i));
    StepItem(s, k, i);
  }

  lemma FailKeepsItem(s: World, w: nat, i: nat)
    requires ItemOk(s, i) && w < |s.workers| && CanFail(s.workers[w])
    ensures ItemOk(Failed(s, w), i)
  {
    CountMove(s.workers, w, Idle, IsUnlinked(i));
  }

  lemma EventKeepsItem(s: World, e: Event, i: nat)
    requires RefsOk(s) && ItemOk(s, i)
    ensures ItemOk(Next(s, e), i)
  {
    match e {
      case Advance(w) => if w < |s.workers| { AdvanceKeepsItem(s, w, i); }
      case Fail(w) => if w < |s.workers| && CanFail(s.workers[w]) { FailKeepsItem(s, w, i); }
      case _ =>
    }
  }

  /** A run that died between counting and linking is a failure of the item's component. */
  ghost predicate OrphansOk(s: World) {
    forall i :: i in s.failures.orphans ==>
      i < |s.items| && At(s.failures.all, s.items[i].component) > 0
  }

  lemma EventKeepsOrphans(s: World, e: Event)
    requires RefsOk(s) && OrphansOk(s)
    ensures OrphansOk(Next(s, e))
  {
    EventKeepsRefs(s, e);
    if e.Fail? && e.w < |s.workers| && CanFail(s.workers[e.w]) {
      assert WorkerOk(s.items, s.workers[e.w]);
    }
  }

  // ---------- Signals received by one component ----------

  /** Every fetched signal of c is still uncounted in a worker, was lost to a placeholder
      or to a failure before counting, or is counted by exactly one row of c. */
  ghost predicate ReceivedOk(s: World, c: ComponentId) {
    && SignalsOf(s.flow.fetched, c)
       == Count(s.workers, IsUncounted(c)) + At(s.claims.placeholderReads, c) + At(s.failures.uncounted, c)
          + Counted(s.items, c)
    && At(s.failures.uncounted, c) <= At(s.failures.all, c)
  }

  /** A signal of c that the step fetches. */
  function StepFetches(s: World, k: Worker, c: ComponentId): nat {
    if k.Idle? && s.ingest.queue != [] && s.ingest.queue[0].component == c then 1 else 0
  }

  lemma AdvanceFetches(s: World, w: nat, c: ComponentId)
    requires w < |s.workers|
    ensures SignalsOf(Advanced(s, w).flow.fetched, c) == SignalsOf(s.flow.fetched, c) + StepFetches(s, s.workers[w], c)
  {
    var k, fetched := s.workers[w], s.flow.fetched;
    if k.Idle? && s.ingest.queue != [] {
      assert (fetched + [s.ingest.queue[0]])[..|fetched|] == fetched;
    }
  }

  lemma AdvanceUncounts(s: World, w: nat, c: ComponentId)
    requires w < |s.workers|
    ensures var k := s.workers[w];
      Count(Advanced(s, w).workers, IsUncounted(c)) + StepCounts(k, c) + StepPlaceholders(s, k, c)
      == Count(s.workers, IsUncounted(c)) + StepFetches(s, k, c)
  {
    var k := s.workers[w];
    CountMove(s.workers, w, Resumed(s, k), IsUncounted(c));
    StepProbes(s, k, c);
  }

  /** Fetched, counted and lost signals move together. */
  lemma DeltasKeepReceived(s: World, after: World, c: ComponentId, fetches: nat, counts: nat, losses: nat)
    requires ReceivedOk(s, c) && after.failures == s.failures
    requires SignalsOf(after.flow.fetched, c) == SignalsOf(s.flow.fetched, c) + fetches
    requires Counted(after.items, c) == Counted(s.items, c) + counts
    requires At(after.claims.placeholderReads, c) == At(s.claims.placeholderReads, c) + losses
    requires Count(after.workers, IsUncounted(c)) + counts + losses == Count(s.workers, IsUncounted(c)) + fetches
    ensures ReceivedOk(after, c)
  {
  }

  lemma AdvanceKeepsReceived(s: World, w: nat, c: ComponentId)
    requires RefsOk(s) && ReceivedOk(s, c) && w < |s.workers|
    ensures ReceivedOk(Advanced(s, w), c)
  {
    var k := s.workers[w];
    AdvanceFetches(s, w, c);
    AdvanceUncounts(s, w, c);
    assert WorkerOk(s.items, k);
    StepRows(s.items, k, c);
    StepClaims(s, k, c);
    DeltasKeepReceived(s, Advanced(s, w), c, StepFetches(s, k, c), StepCounts(k, c), StepPlaceholders(s, k, c));
  }

  lemma FailKeepsReceived(s: World, w: nat, c: ComponentId)
    requires ReceivedOk(s, c) && w < |s.workers| && CanFail(s.workers[w])
    ensures ReceivedOk(Failed(s, w), c)
  {
    CountMove(s.workers, w, Idle, IsUncounted(c));
  }

  lemma EventKeepsReceived(s: World, e: Event, c: ComponentId)
    requires RefsOk(s) && ReceivedOk(s, c)
    ensures ReceivedOk(Next(s, e), c)
  {
    match e {
      case Advance(w) => if w < |s.workers| { AdvanceKeepsReceived(s, w, c); }
      case Fail(w) => if w < |s.workers| && CanFail(s.workers[w]) { FailKeepsReceived(s, w, c); }
      case Update(i, r) => if i < |s.items| { UpdateKeepsRows(s.items, i, r, c); }
      case _ =>
    }
  }

  // ---------- The flow through the queue ----------

  ghost predicate FlowOk(s: World) {
    && s.flow.offers == s.ingest.accepted + s.ingest.dropped
    && s.flow.arrivals == s.flow.fetched + s.ingest.queue
    && |s.flow.arrivals| == s.ingest.accepted
    && |s.flow.fetched| == Count(s.workers, IsBusy) + s.flow.tasksDone
    && s.flow.tasksDone == s.flow.processed + s.flow.failed
    && WithinDepth(s.ingest)
  }

  lemma AdvanceKeepsFlow(s: World, w: nat)
    requires FlowOk(s) && w < |s.workers|
    ensures FlowOk(Advanced(s, w))
  {
    var k := s.workers[w];
    CountMove(s.workers, w, Resumed(s, k), IsBusy);
  }

  lemma EventKeepsFlow(s: World, e: Event)
    requires FlowOk(s)
    ensures FlowOk(Next(s, e))
  {
    match e {
      case Offer(sig) =>
        OfferKeepsDepth(s.ingest, sig);
        assert s.flow.fetched + s.ingest.queue + [sig] == s.flow.fetched + (s.ingest.queue + [sig]);
      case Advance(w) => if w < |s.workers| { AdvanceKeepsFlow(s, w); }
      case Fail(w) => if w < |s.workers| { CountMove(s.workers, w, Idle, IsBusy); }
      case _ =>
    }
  }

  // ---------- Metric buckets ----------

  /** The row of a whole minute counts its metered signals, and every fetched signal of
      that minute, component and severity is metered, still held before its upsert, or lost. */
  ghost predicate MetricOk(s: World, key: MetricKey) {
    Aligned(key) ==>
      && At(s.metrics, key) == SignalsIn(s.flow.metered, key)
      && SignalsIn(s.flow.fetched, key)
         == At(s.metrics, key) + Count(s.workers, IsUnmetered(key)) + SignalsIn(s.flow.lost, key)
  }

  /** What one step adds to the histories behind a metric row. */
  lemma StepMeter(s: World, k: Worker, key: MetricKey)
    requires Aligned(key)
    ensures At(MetricsAfter(s.metrics, CallOf(k)), key)
      == At(s.metrics, key) + (if k.Metering? then Hits(k.sig, key) else 0)
    ensures SignalsIn(FlowAfter(s, k).metered, key)
      == SignalsIn(s.flow.metered, key) + (if k.Metering? then Hits(k.sig, key) else 0)
  {
    if k.Metering? {
      SignalsInAppend(s.flow.metered, k.sig, key);
      BumpHits(s.metrics, k.sig, key);
    }
  }

  lemma StepFetch(s: World, k: Worker, key: MetricKey)
    ensures SignalsIn(FlowAfter(s, k).fetched, key) == SignalsIn(s.flow.fetched, key)
      + (if k.Idle? && s.ingest.queue != [] then Hits(s.ingest.queue[0], key) else 0)
    ensures SignalsIn(FlowAfter(s, k).lost, key)
      == SignalsIn(s.flow.lost, key) + (if ReadsPlaceholder(s, k) then Hits(k.sig, key) else 0)
  {
    if k.Idle? && s.ingest.queue != [] {
      SignalsInAppend(s.flow.fetched, s.ingest.queue[0], key);
    }
    if ReadsPlaceholder(s, k) {
      SignalsInAppend(s.flow.lost, k.sig, key);
    }
  }

  /** A step takes a signal from "held before its upsert" exactly by metering or losing it. */
  lemma StepHolds(s: World, k: Worker, key: MetricKey)
    ensures Ask(IsUnmetered(key), Resumed(s, k))
      == if k.Idle? then (if s.ingest.queue != [] then Hits(s.ingest.queue[0], key) else 0)
         else if k.Metering? || ReadsPlaceholder(s, k) then 0
         else Ask(IsUnmetered(key), k)
  {
    if CanFail(k) && !k.Metering? && !ReadsPlaceholder(s, k) {
      assert Resumed(s, k).sig == k.sig;
    }
  }

  lemma AdvanceHolds(s: World, w: nat, key: MetricKey)
    requires w < |s.workers|
    ensures Count(Advanced(s, w).workers, IsUnmetered(key)) + Ask(IsUnmetered(key), s.workers[w])
      == Count(s.workers, IsUnmetered(key)) + Ask(IsUnmetered(key), Resumed(s, s.workers[w]))
  {
    CountMove(s.workers, w, Resumed(s, s.workers[w]), IsUnmetered(key));
  }

  /** Fetched, metered, held and lost signals move together. */
  lemma DeltasKeepMetric(s: World, after: World, key: MetricKey, fetches: nat, meters: nat, losses: nat)
    requires Aligned(key) && MetricOk(s, key)
    requires At(after.metrics, key) == At(s.metrics, key) + meters
    requires SignalsIn(after.flow.metered, key) == SignalsIn(s.flow.metered, key) + meters
    requires SignalsIn(after.flow.fetched, key) == SignalsIn(s.flow.fetched, key) + fetches
    requires SignalsIn(after.flow.lost, key) == SignalsIn(s.flow.lost, key) + losses
    requires Count(after.workers, IsUnmetered(key)) + meters + losses == Count(s.workers, IsUnmetered(key)) + fetches
    ensures MetricOk(after, key)
  {
  }

  lemma AdvanceKeepsMetric(s: World, w: nat, key: MetricKey)
    requires MetricOk(s, key) && w < |s.workers|
    ensures MetricOk(Advanced(s, w), key)
  {
    if Aligned(key) {
      var k := s.workers[w];
      var fetches := if k.Idle? && s.ingest.queue != [] then Hits(s.ingest.queue[0], key) else 0;
      var meters := if k.Metering? then Hits(k.sig, key) else 0;
      var losses := if ReadsPlaceholder(s, k) then Hits(k.sig, key) else 0;
      AdvanceHolds(s, w, key);
      StepMeter(s, k, key);
      StepFetch(s, k, key);
      StepHolds(s, k, key);
      DeltasKeepMetric(s, Advanced(s, w), key, fetches, meters, losses);
    }
  }

  lemma FailKeepsMetric(s: World, w: nat, key: MetricKey)
    requires MetricOk(s, key) && w < |s.workers| && CanFail(s.workers[w])
    ensures MetricOk(Failed(s, w), key)
  {
    CountMove(s.workers, w, Idle, IsUnmetered(key));
    SignalsInAppend(s.flow.lost, s.workers[w].sig, key);
  }

  lemma EventKeepsMetric(s: World, e: Event, key: MetricKey)
    requires MetricOk(s, key)
    ensures MetricOk(Next(s, e), key)
  {
    match e {
      case Advance(w) => if w < |s.workers| { AdvanceKeepsMetric(s, w, key); }
      case Fail(w) => if w < |s.workers| && CanFail(s.workers[w]) { FailKeepsMetric(s, w, key); }
      case _ =>
    }
  }

  /** There are rows for whole minutes only. */
  lemma EventKeepsAligned(s: World, e: Event)
    requires AllAligned(s.metrics)
    ensures AllAligned(Next(s, e).metrics)
  {
    if e.Advance? && e.w < |s.workers| && s.workers[e.w].Metering? {
      BumpAligned(s.metrics, s.workers[e.w].sig);
    }
  }

  /** All metric rows together are the processed signals and those about to be. */
  ghost predicate MeteredOk(s: World) {
    Total(s.metrics) == s.flow.processed + Count(s.workers, IsMetered)
  }

  lemma AdvanceKeepsMetered(s: World, w: nat)
    requires MeteredOk(s) && w < |s.workers|
    ensures MeteredOk(Advanced(s, w))
  {
    var k := s.workers[w];
    CountMove(s.workers, w, Resumed(s, k), IsMetered);
    if k.Metering? {
      TotalBump(s.metrics, MetricKeyFor(k.sig));
    }
  }

  lemma EventKeepsMetered(s: World, e: Event)
    requires MeteredOk(s)
    ensures MeteredOk(Next(s, e))
  {
    match e {
      case Advance(w) => if w < |s.workers| { AdvanceKeepsMetered(s, w); }
      case Fail(w) => if w < |s.workers| { CountMove(s.workers, w, Idle, IsMetered); }
      case _ =>
    }
  }

  // ---------- All of it, over every run ----------

  ghost predicate Inv(s: World) {
    && RefsOk(s) && OrphansOk(s) && FlowOk(s) && MeteredOk(s) && AllAligned(s.metrics)
    && (forall key :: MetricOk(s, key))
    && (forall c :: ClaimsOk(s, c))
    && (forall c :: ReceivedOk(s, c))
    && (forall i: nat :: ItemOk(s, i))
  }

  lemma InitInv(n: nat, maxsize: nat, threshold: real)
    ensures Inv(Init(n, maxsize, threshold))
  {
    var s := Init(n, maxsize, threshold);
    if maxsize > 0 {
      LimitAtMostSize(maxsize, threshold);
    }
    forall p ensures Count(s.workers, p) == 0 {
      CountBounds(s.workers, p);
    }
    assert forall c :: ClaimsOk(s, c);
  }

  lemma EventKeepsInv(s: World, e: Event)
    requires Inv(s)
    ensures Inv(Next(s, e)) && |Next(s, e).workers| == |s.workers|
  {
    EventKeepsRefs(s, e);
    EventKeepsOrphans(s, e);
    EventKeepsFlow(s, e);
    EventKeepsMetered(s, e);
    EventKeepsAligned(s, e);
    forall key ensures MetricOk(Next(s, e), key) {
      EventKeepsMetric(s, e, key);
    }
    forall c ensures ClaimsOk(Next(s, e), c) {
      EventKeepsClaims(s, e, c);
    }
    forall c ensures ReceivedOk(Next(s, e), c) {
      EventKeepsReceived(s, e, c);
    }
    forall i: nat ensures ItemOk(Next(s, e), i) {
      EventKeepsItem(s, e, i);
    }
  }

  lemma {:induction false} RunKeepsInv(s: World, es: seq<Event>)
    requires Inv(s)
    ensures Inv(Run(s, es)) && |Run(s, es).workers| == |s.workers|
    decreases |es|
  {
    if es != [] {
      EventKeepsInv(s, es[0]);
      RunKeepsInv(Next(s, es[0]), es[1..]);
    }
  }
}
