/** The debouncer at its finest grain: any number of workers run `_process_one`, one
    step per await, over a shared queue, Redis and Postgres. Any storage call can fail
    (a failed call has no effect), any key can vanish between two steps, and the API
    can touch rows and the feed at any moment. A run is any sequence of events. */
module Debouncer {
  import opened Types
  import opened Ingestion
  import States

  /** A worker between two awaits: what it holds and which call it makes next. */
  datatype Worker =
    | Idle                                          // queue.get
    | Fetched(sig: Signal)                          // mongo insert
    | Stored(sig: Signal, doc: nat)                 // SET NX
    | Won(sig: Signal, doc: nat)                    // create_work_item
    | Created(sig: Signal, doc: nat, item: nat)     // SET XX
    | Announcing(sig: Signal, doc: nat, item: nat)  // push_live_feed
    | Lost(sig: Signal, doc: nat)                   // GET
    | Missed(sig: Signal, doc: nat)                 // fallback create_work_item
    | Refilling(sig: Signal, doc: nat, item: nat)   // fallback SET
    | Attaching(sig: Signal, doc: nat, item: nat)   // increment_signal_count
    | Linking(sig: Signal, doc: nat, item: nat)     // add_signal_link
    | Metering(sig: Signal)                         // upsert_metric_bucket
    | Metered(sig: Signal)                          // processed += 1

  /** Signals through the queue and the worker loop; `lost` are those whose run died before
      metering them, and `unlinked` counts, per document, the runs that died before linking
      it. Histories are kept for the statements only; no step reads them. */
  datatype Flow = Flow(
    offers: nat, arrivals: seq<Signal>, fetched: seq<Signal>, metered: seq<Signal>,
    lost: seq<Signal>, unlinked: map<nat, nat>, processed: nat, failed: nat, tasksDone: nat)

  /** How often, per component, the claim was won, the key was found missing by a loser,
      was removed, and was read while it held a placeholder. */
  datatype Claims = Claims(
    wins: map<ComponentId, nat>, misses: map<ComponentId, nat>,
    removals: map<ComponentId, nat>, placeholderReads: map<ComponentId, nat>)

  /** Storage failures per component, those before the signal was counted, those between
      SET NX and SET XX, and per work item those between counting the signal and linking it. */
  datatype Failures = Failures(
    all: map<ComponentId, nat>, uncounted: map<ComponentId, nat>, abandoned: map<ComponentId, nat>,
    orphans: map<nat, nat>)

  /** Per work item: pushes to the live feed, fallback creations, runs that died before the
      push; and per feed member: how often the API pruned it. */
  datatype Notices = Notices(
    pushes: map<nat, nat>, fallbacks: map<nat, nat>, unannounced: map<nat, nat>, prunes: map<FeedEntry, nat>)

  /** `docs` are the documents in Mongo; a document's id is its position. */
  datatype World = World(
    ingest: Ingest, workers: seq<Worker>, docs: seq<Signal>,
    dedup: map<ComponentId, Dedup>, feed: map<FeedEntry, int>,
    items: seq<WorkItem>, links: seq<Link>, metrics: map<MetricKey, nat>,
    flow: Flow, claims: Claims, failures: Failures, notices: Notices)

  datatype Event =
    | Offer(sig: Signal)
    | Advance(w: nat)                                     // worker w's next call succeeds
    | Fail(w: nat)                                        // ... or raises
    | Remove(c: ComponentId)                              // TTL expiry or clear_dedup
    | DropEntry(e: FeedEntry)                             // the API prunes a feed member
    | Update(item: nat, result: States.TransitionResult)  // the API's update_state

  function Init(n: nat, maxsize: nat, threshold: real): World {
    World(Empty(maxsize, threshold), seq(n, _ => Idle), [], map[], map[], [], [], map[],
          Flow(0, [], [], [], [], map[], 0, 0, 0), Claims(map[], map[], map[], map[]),
          Failures(map[], map[], map[], map[]), Notices(map[], map[], map[], map[]))
  }

  // ---------- The calls of _process_one and what the stores make of them ----------

  datatype Call =
    | TakeSignal
    | InsertDoc(sig: Signal)
    | SetNx(c: ComponentId, value: Dedup)
    | SetXx(c: ComponentId, value: Dedup)
    | Set(c: ComponentId, value: Dedup)
    | Get(c: ComponentId)
    | InsertRow(row: WorkItem)
    | Increment(item: nat)
    | InsertLink(link: Link)
    | PushEntry(e: FeedEntry, score: int)
    | UpsertBucket(key: MetricKey)
    | CountProcessed

  function CallOf(k: Worker): Call {
    match k
    case Idle => TakeSignal
    case Fetched(sig) => InsertDoc(sig)
    case Stored(sig, doc) => SetNx(sig.component, Pending(doc))
    case Won(sig, _) => InsertRow(NewItem(sig))
    case Created(sig, _, item) => SetXx(sig.component, Claimed(item))
    case Announcing(sig, _, item) => PushEntry(FeedEntry(item, sig.component), Score(sig.severity))
    case Lost(sig, _) => Get(sig.component)
    case Missed(sig, _) => InsertRow(NewItem(sig))
    case Refilling(sig, _, item) => Set(sig.component, Claimed(item))
    case Attaching(_, _, item) => Increment(item)
    case Linking(sig, doc, item) => InsertLink(LinkFor(sig, doc, item))
    case Metering(sig) => UpsertBucket(MetricKeyFor(sig))
    case Metered(_) => CountProcessed
  }

  function DedupAfter(dedup: map<ComponentId, Dedup>, call: Call): map<ComponentId, Dedup> {
    match call
    case SetNx(c, value) => if c in dedup then dedup else dedup[c := value]
    case SetXx(c, value) => if c in dedup then dedup[c := value] else dedup
    case Set(c, value) => dedup[c := value]
    case _ => dedup
  }

  function ItemsAfter(items: seq<WorkItem>, call: Call): seq<WorkItem> {
    match call
    case InsertRow(row) => items + [row]
    case Increment(item) => Incremented(items, item)
    case _ => items
  }

  function DocsAfter(docs: seq<Signal>, call: Call): seq<Signal> {
    if call.InsertDoc? then docs + [call.sig] else docs
  }

  function LinksAfter(links: seq<Link>, call: Call): seq<Link> {
    if call.InsertLink? then links + [call.link] else links
  }

  function FeedAfter(feed: map<FeedEntry, int>, call: Call): map<FeedEntry, int> {
    if call.PushEntry? then feed[call.e := call.score] else feed
  }

  function MetricsAfter(metrics: map<MetricKey, nat>, call: Call): map<MetricKey, nat> {
    if call.UpsertBucket? then Bump(metrics, call.key) else metrics
  }

  // ---------- Where a worker resumes ----------

  /** Its signal is already in some work item's count, its link is not written yet. */
  predicate Unlinked(k: Worker) {
    k.Created? || k.Announcing? || k.Refilling? || k.Linking?
  }

  /** Its signal is in no work item's count yet. */
  predicate Uncounted(k: Worker) {
    k.Fetched? || k.Stored? || k.Won? || k.Lost? || k.Missed? || k.Attaching?
  }

  /** GET found another claimer's placeholder, on which `int` raises. */
  predicate ReadsPlaceholder(s: World, k: Worker) {
    k.Lost? && k.sig.component in s.dedup && s.dedup[k.sig.component].Pending?
  }

  function Resumed(s: World, k: Worker): Worker {
    match k
    case Idle => if s.ingest.queue == [] then Idle else Fetched(s.ingest.queue[0])
    case Fetched(sig) => Stored(sig, |s.docs|)
    case Stored(sig, doc) => if sig.component in s.dedup then Lost(sig, doc) else Won(sig, doc)
    case Won(sig, doc) => Created(sig, doc, |s.items|)
    case Created(sig, doc, item) => Announcing(sig, doc, item)
    case Announcing(sig, doc, item) => Linking(sig, doc, item)
    case Lost(sig, doc) =>
      if sig.component !in s.dedup then Missed(sig, doc)
      else if ReadsPlaceholder(s, k) then Idle
      else Attaching(sig, doc, s.dedup[sig.component].item)
    case Missed(sig, doc) => Refilling(sig, doc, |s.items|)
    case Refilling(sig, doc, item) => Linking(sig, doc, item)
    case Attaching(sig, doc, item) => Linking(sig, doc, item)
    case Linking(sig, _, _) => Metering(sig)
    case Metering(sig) => Metered(sig)
    case Metered(_) => Idle
  }

  function FlowAfter(s: World, k: Worker): Flow {
    match k
    case Idle => if s.ingest.queue == [] then s.flow else s.flow.(fetched := s.flow.fetched + [s.ingest.queue[0]])
    case Lost(_, _) => if ReadsPlaceholder(s, k) then FlowFailed(s.flow, k) else s.flow
    case Metering(sig) => s.flow.(metered := s.flow.metered + [sig])
    case Metered(_) => s.flow.(processed := s.flow.processed + 1, tasksDone := s.flow.tasksDone + 1)
    case _ => s.flow
  }

  /** It holds a document that it has not linked yet. */
  predicate HasDoc(k: Worker) {
    k.Stored? || k.Won? || k.Created? || k.Announcing? || k.Lost? || k.Missed? || k.Refilling? || k.Attaching?
    || k.Linking?
  }

  /** The exception reaches the worker loop, whose `finally` marks the task done. */
  function FlowFailed(flow: Flow, k: Worker): Flow
    requires !k.Idle?
  {
    flow.(failed := flow.failed + 1, tasksDone := flow.tasksDone + 1, lost := flow.lost + [k.sig],
          unlinked := if HasDoc(k) then Bump(flow.unlinked, k.doc) else flow.unlinked)
  }

  function ClaimsAfter(s: World, k: Worker): Claims {
    if k.Stored? && k.sig.component !in s.dedup then s.claims.(wins := Bump(s.claims.wins, k.sig.component))
    else if k.Lost? && k.sig.component !in s.dedup then s.claims.(misses := Bump(s.claims.misses, k.sig.component))
    else if ReadsPlaceholder(s, k) then
      s.claims.(placeholderReads := Bump(s.claims.placeholderReads, k.sig.component))
    else s.claims
  }

  function NoticesAfter(s: World, k: Worker): Notices {
    match k
    case Announcing(_, _, item) => s.notices.(pushes := Bump(s.notices.pushes, item))
    case Missed(_, _) => s.notices.(fallbacks := Bump(s.notices.fallbacks, |s.items|))
    case _ => s.notices
  }

  /** It opened a work item from a won claim and has not announced it yet. */
  predicate Opening(k: Worker) {
    k.Created? || k.Announcing?
  }

  function NoticesFailed(notices: Notices, k: Worker): Notices {
    if Opening(k) then notices.(unannounced := Bump(notices.unannounced, k.item)) else notices
  }

  function FailuresAfter(f: Failures, k: Worker): Failures
    requires !k.Idle?
  {
    Failures(Bump(f.all, k.sig.component),
             if Uncounted(k) then Bump(f.uncounted, k.sig.component) else f.uncounted,
             if k.Won? || k.Created? then Bump(f.abandoned, k.sig.component) else f.abandoned,
             if Unlinked(k) then Bump(f.orphans, k.item) else f.orphans)
  }

  // ---------- Events ----------

  /** The pending call of worker `w` takes effect and the worker resumes. */
  function Advanced(s: World, w: nat): World
    requires w < |s.workers|
  {
    var k := s.workers[w];
    var call := CallOf(k);
    World(if call.TakeSignal? && s.ingest.queue != [] then Taken(s.ingest) else s.ingest,
          s.workers[w := Resumed(s, k)],
          DocsAfter(s.docs, call),
          DedupAfter(s.dedup, call), FeedAfter(s.feed, call),
          ItemsAfter(s.items, call), LinksAfter(s.links, call), MetricsAfter(s.metrics, call),
          FlowAfter(s, k), ClaimsAfter(s, k), s.failures, NoticesAfter(s, k))
  }

  /** A worker between a fetch and its last write can fail; the counter bump cannot. */
  predicate CanFail(k: Worker) {
    !k.Idle? && !k.Metered?
  }

  /** The pending call of worker `w` raises for good, without an effect. */
  function Failed(s: World, w: nat): World
    requires w < |s.workers| && CanFail(s.workers[w])
  {
    var k := s.workers[w];
    s.(workers := s.workers[w := Idle], flow := FlowFailed(s.flow, k),
       failures := FailuresAfter(s.failures, k), notices := NoticesFailed(s.notices, k))
  }

  function Arrived(s: World, sig: Signal): World {
    s.(ingest := Offered(s.ingest, sig),
       flow := s.flow.(offers := s.flow.offers + 1,
                       arrivals := if Accepts(s.ingest) then s.flow.arrivals + [sig] else s.flow.arrivals))
  }

  function Vanished(s: World, c: ComponentId): World
    requires c in s.dedup
  {
    s.(dedup := s.dedup - {c}, claims := s.claims.(removals := Bump(s.claims.removals, c)))
  }

  function Pruned(s: World, e: FeedEntry): World
    requires e in s.feed
  {
    s.(feed := s.feed - {e}, notices := s.notices.(prunes := Bump(s.notices.prunes, e)))
  }

  /** One event. Events that do not apply (no such worker, key, member or row) change nothing. */
  function Next(s: World, e: Event): World {
    match e
    case Offer(sig) => Arrived(s, sig)
    case Advance(w) => if w < |s.workers| then Advanced(s, w) else s
    case Fail(w) => if w < |s.workers| && CanFail(s.workers[w]) then Failed(s, w) else s
    case Remove(c) => if c in s.dedup then Vanished(s, c) else s
    case DropEntry(entry) => if entry in s.feed then Pruned(s, entry) else s
    case Update(item, result) =>
      if item < |s.items| then s.(items := s.items[item := States.Updated(s.items[item], result)]) else s
  }

  function Run(s: World, es: seq<Event>): World
    decreases |es|
  {
    if es == [] then s else Run(Next(s, es[0]), es[1..])
  }

  lemma {:induction false} RunAppend(s: World, es: seq<Event>, more: seq<Event>)
    ensures Run(s, es + more) == Run(Run(s, es), more)
    decreases |es|
  {
    if es == [] {
      assert es + more == more;
    } else {
      assert (es + more)[1..] == es[1..] + more;
      RunAppend(Next(s, es[0]), es[1..], more);
    }
  }

  lemma RunOne(s: World, a: Event)
    ensures Run(s, [a]) == Next(s, a)
  {
    assert [a][1..] == [];
  }

  lemma RunTwo(s: World, a: Event, b: Event)
    ensures Run(s, [a, b]) == Next(Next(s, a), b)
  {
    assert [a, b][1..] == [b];
    RunOne(Next(s, a), b);
  }

  // ---------- Counting ----------

  /** A question asked of each worker. */
  datatype Probe =
    | IsLost(c: ComponentId)       // lost the claim for c, has not looked up yet
    | IsCreating(c: ComponentId)   // about to insert a row for c
    | IsClaiming(c: ComponentId)   // won the claim for c, has not swapped its id in yet
    | IsFalling(c: ComponentId)    // found c's key missing, has not set it yet
    | IsUncounted(c: ComponentId)
    | IsUnlinked(item: nat)
    | IsOpening(item: nat)
    | IsUnmetered(key: MetricKey)
    | IsHolding(doc: nat)
    | IsBusy
    | IsMetered

  /** It holds c's claim and has not swapped its work item's id in. */
  predicate Claiming(k: Worker, c: ComponentId) {
    (k.Won? || k.Created?) && k.sig.component == c
  }

  predicate Answers(p: Probe, k: Worker) {
    match p
    case IsLost(c) => k.Lost? && k.sig.component == c
    case IsCreating(c) => (k.Won? || k.Missed?) && k.sig.component == c
    case IsClaiming(c) => Claiming(k, c)
    case IsFalling(c) => (k.Missed? || k.Refilling?) && k.sig.component == c
    case IsUncounted(c) => Uncounted(k) && k.sig.component == c
    case IsUnlinked(item) => Unlinked(k) && k.item == item
    case IsOpening(item) => Opening(k) && k.item == item
    case IsUnmetered(key) => !k.Idle? && !k.Metered? && InMinute(k.sig, key)
    case IsHolding(doc) => HasDoc(k) && k.doc == doc
    case IsBusy => !k.Idle?
    case IsMetered => k.Metered?
  }

  function Ask(p: Probe, k: Worker): nat {
    if Answers(p, k) then 1 else 0
  }

  function Count(ws: seq<Worker>, p: Probe): nat {
    if ws == [] then 0 else Count(ws[..|ws| - 1], p) + Ask(p, ws[|ws| - 1])
  }

  lemma {:induction false} CountMove(ws: seq<Worker>, w: nat, next: Worker, p: Probe)
    requires w < |ws|
    ensures Count(ws[w := next], p) + Ask(p, ws[w]) == Count(ws, p) + Ask(p, next)
  {
    var n := |ws| - 1;
    if w == n {
      assert ws[w := next][..n] == ws[..n];
    } else {
      CountMove(ws[..n], w, next, p);
      assert ws[w := next][..n] == ws[..n][w := next];
    }
  }

  lemma {:induction false} CountBounds(ws: seq<Worker>, p: Probe)
    ensures Count(ws, p) <= |ws|
    ensures (forall w :: 0 <= w < |ws| ==> !Answers(p, ws[w])) ==> Count(ws, p) == 0
    ensures forall w :: 0 <= w < |ws| && Answers(p, ws[w]) ==> Count(ws, p) > 0
  {
    if ws != [] {
      CountBounds(ws[..|ws| - 1], p);
    }
  }

  /** Two workers that answer count twice; one that does not leaves the count short of all. */
  lemma {:induction false} CountTwo(ws: seq<Worker>, p: Probe, v: nat, w: nat)
    requires v < w < |ws| && Answers(p, ws[v]) && Answers(p, ws[w])
    ensures Count(ws, p) >= 2
  {
    var n := |ws| - 1;
    if w == n {
      CountBounds(ws[..n], p);
      assert Answers(p, ws[..n][v]);
    } else {
      CountTwo(ws[..n], p, v, w);
    }
  }

  lemma {:induction false} CountShort(ws: seq<Worker>, p: Probe, w: nat)
    requires w < |ws| && !Answers(p, ws[w])
    ensures Count(ws, p) < |ws|
  {
    var n := |ws| - 1;
    if w == n {
      CountBounds(ws[..n], p);
    } else {
      CountShort(ws[..n], p, w);
    }
  }

  /** Rows of component c: how many, and how many signals they count together. */
  function Rows(items: seq<WorkItem>, c: ComponentId): nat {
    if items == [] then 0
    else Rows(items[..|items| - 1], c) + (if items[|items| - 1].component == c then 1 else 0)
  }

  function Counted(items: seq<WorkItem>, c: ComponentId): nat {
    if items == [] then 0
    else
      var last := items[|items| - 1];
      Counted(items[..|items| - 1], c) + (if last.component == c then last.signalCount else 0)
  }

  lemma RowsAppend(items: seq<WorkItem>, row: WorkItem, c: ComponentId)
    ensures Rows(items + [row], c) == Rows(items, c) + (if row.component == c then 1 else 0)
    ensures Counted(items + [row], c) == Counted(items, c) + (if row.component == c then row.signalCount else 0)
  {
    assert (items + [row])[..|items|] == items;
  }

  lemma {:induction false} RowsReplace(items: seq<WorkItem>, i: nat, row: WorkItem, c: ComponentId)
    requires i < |items| && row.component == items[i].component
    ensures Rows(items[i := row], c) == Rows(items, c)
    ensures row.component == c ==>
      Counted(items[i := row], c) + items[i].signalCount == Counted(items, c) + row.signalCount
    ensures row.component != c ==> Counted(items[i := row], c) == Counted(items, c)
  {
    var n := |items| - 1;
    if i == n {
      assert items[i := row][..n] == items[..n];
    } else {
      RowsReplace(items[..n], i, row, c);
      assert items[i := row][..n] == items[..n][i := row];
    }
  }

  /** No row of c: none of them has it. One row: exactly one does, and it carries the whole count. */
  lemma {:induction false} RowsLocate(items: seq<WorkItem>, c: ComponentId)
    ensures Rows(items, c) == 0 ==> Counted(items, c) == 0 && forall i :: 0 <= i < |items| ==> items[i].component != c
    ensures Rows(items, c) == 1 ==>
      exists i: nat :: IsItemOf(items, i, c) && items[i].signalCount == Counted(items, c)
        && forall j: nat :: IsItemOf(items, j, c) ==> j == i
  {
    if items != [] {
      var n := |items| - 1;
      RowsLocate(items[..n], c);
      if Rows(items, c) == 1 {
        if items[n].component == c {
          assert IsItemOf(items, n, c);
        } else {
          var i: nat :| IsItemOf(items[..n], i, c) && items[..n][i].signalCount == Counted(items[..n], c)
            && forall j: nat :: IsItemOf(items[..n], j, c) ==> j == i;
          assert IsItemOf(items, i, c);
          forall j: nat | IsItemOf(items, j, c) ensures j == i {
            assert IsItemOf(items[..n], j, c);
          }
        }
      }
    }
  }

  function LinksOf(links: seq<Link>, item: nat): nat {
    if links == [] then 0
    else LinksOf(links[..|links| - 1], item) + (if links[|links| - 1].item == item then 1 else 0)
  }

  function SignalsOf(sigs: seq<Signal>, c: ComponentId): nat {
    if sigs == [] then 0
    else SignalsOf(sigs[..|sigs| - 1], c) + (if sigs[|sigs| - 1].component == c then 1 else 0)
  }
}
