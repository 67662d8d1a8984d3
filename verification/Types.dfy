/** The entities of the incident system: signals, work items, links, root-cause
    analyses, and the small vocabulary every other module shares.
    Times are integer microseconds; MTTR is kept in microseconds as well. */
module Types {

  type ComponentId = string

  datatype Option<+T> = None | Some(value: T)

  datatype ComponentType = Cache | Rdbms | Api | Mcp | Queue | NoSql

  datatype Severity = Info | Warn | Error | Critical

  datatype WorkItemState = Open | Investigating | Resolved | Closed

  datatype Signal = Signal(component: ComponentId, kind: ComponentType, severity: Severity, timestamp: int)

  /** A row of `work_items`. Its id is its position in the table. */
  datatype WorkItem = WorkItem(
    component: ComponentId, kind: ComponentType, severity: Severity,
    state: WorkItemState, startTime: int,
    endTime: Option<int>, mttr: Option<int>, signalCount: nat)

  /** A row of `signal_links`. */
  datatype Link = Link(item: nat, signal: nat, component: ComponentId, severity: Severity, timestamp: int)

  /** The primary key of `signal_metrics`. */
  datatype MetricKey = MetricKey(bucket: int, component: ComponentId, severity: Severity)

  /** A live-feed member before it is printed as a string. */
  datatype FeedEntry = FeedEntry(item: nat, component: ComponentId)

  /** What a dedup key holds: the claimer's placeholder, or a work item's id. */
  datatype Dedup = Pending(signal: nat) | Claimed(item: nat)

  /** An RCA as the validator sees it: any attribute may be absent. */
  datatype Rca = Rca(
    rootCause: Option<string>, fixApplied: Option<string>, prevention: Option<string>,
    startTime: Option<int>, endTime: Option<int>)

  /** The row `create_work_item` inserts: OPEN, one signal, no end. */
  function NewItem(sig: Signal): WorkItem {
    WorkItem(sig.component, sig.kind, sig.severity, Open, sig.timestamp, None, None, 1)
  }

  /** The UPDATE of `increment_signal_count`. */
  function Incremented(items: seq<WorkItem>, item: nat): seq<WorkItem> {
    if item < |items| then items[item := items[item].(signalCount := items[item].signalCount + 1)] else items
  }

  /** The row `add_signal_link` inserts. */
  function LinkFor(sig: Signal, doc: nat, item: nat): Link {
    Link(item, doc, sig.component, sig.severity, sig.timestamp)
  }

  function Score(severity: Severity): int {
    match severity
    case Info => 1
    case Warn => 2
    case Error => 3
    case Critical => 4
  }

  function RcaOf(rcas: map<nat, Rca>, item: nat): Option<Rca> {
    if item in rcas then Some(rcas[item]) else None
  }

  /** Scores are 1 to 4, and the more severe signal has the higher one. */
  lemma ScoresRankSeverities(severity: Severity)
    ensures 1 <= Score(severity) <= 4
    ensures Score(Info) < Score(Warn) < Score(Error) < Score(Critical)
  {
  }

  /** Work item `i` exists and belongs to component `c`. */
  predicate IsItemOf(items: seq<WorkItem>, i: nat, c: ComponentId) {
    i < |items| && items[i].component == c
  }

  // ---------- One-minute metric buckets ----------

  const MINUTE: int := 60_000_000

  function BucketFor(ts: int): int {
    ts - ts % MINUTE
  }

  function MetricKeyFor(sig: Signal): MetricKey {
    MetricKey(BucketFor(sig.timestamp), sig.component, sig.severity)
  }

  /** A bucket is the last whole minute not after the timestamp, and two timestamps
      share a bucket exactly when they fall in the same minute. */
  lemma BucketIsMinuteFloor(ts: int, other: int)
    ensures 0 <= ts - BucketFor(ts) < MINUTE
    ensures BucketFor(BucketFor(ts)) == BucketFor(ts)
    ensures BucketFor(ts) == BucketFor(other) <==> BucketFor(ts) <= other < BucketFor(ts) + MINUTE
  {
    assert ts == MINUTE * (ts / MINUTE) + ts % MINUTE;
    assert other == MINUTE * (other / MINUTE) + other % MINUTE;
  }

  /** The signal is of the key's component and severity, and falls in the 60 seconds from
      its bucket on. */
  predicate InMinute(sig: Signal, key: MetricKey) {
    && sig.component == key.component && sig.severity == key.severity
    && key.bucket <= sig.timestamp < key.bucket + 60_000_000
  }

  /** The key's bucket is a whole minute. */
  predicate Aligned(key: MetricKey) {
    key.bucket % 60_000_000 == 0
  }

  /** A signal is metered under a whole minute, and that is the only such key it falls under. */
  lemma MetricKeyIsMinute(sig: Signal, key: MetricKey)
    ensures Aligned(MetricKeyFor(sig))
    ensures Aligned(key) ==> (MetricKeyFor(sig) == key <==> InMinute(sig, key))
  {
    var b := BucketFor(sig.timestamp);
    BucketIsMinuteFloor(sig.timestamp, key.bucket);
    assert b == MINUTE * (sig.timestamp / MINUTE);
    if Aligned(key) && InMinute(sig, key) {
      assert key.bucket == MINUTE * (key.bucket / MINUTE);
      BucketIsMinuteFloor(key.bucket, sig.timestamp);
    }
  }

  function Hits(sig: Signal, key: MetricKey): nat {
    if InMinute(sig, key) then 1 else 0
  }

  /** How many signals fall under the key. */
  function SignalsIn(sigs: seq<Signal>, key: MetricKey): nat {
    if sigs == [] then 0 else SignalsIn(sigs[..|sigs| - 1], key) + Hits(sigs[|sigs| - 1], key)
  }

  lemma SignalsInAppend(sigs: seq<Signal>, sig: Signal, key: MetricKey)
    ensures SignalsIn(sigs + [sig], key) == SignalsIn(sigs, key) + Hits(sig, key)
  {
    assert (sigs + [sig])[..|sigs|] == sigs;
  }

  /** Counting a signal in its bucket raises the counts it falls under. */
  lemma BumpHits(metrics: map<MetricKey, nat>, sig: Signal, key: MetricKey)
    requires Aligned(key)
    ensures At(Bump(metrics, MetricKeyFor(sig)), key) == At(metrics, key) + Hits(sig, key)
  {
    MetricKeyIsMinute(sig, key);
  }

  ghost predicate AllAligned(metrics: map<MetricKey, nat>) {
    forall key :: key in metrics ==> Aligned(key)
  }

  lemma BumpAligned(metrics: map<MetricKey, nat>, sig: Signal)
    requires AllAligned(metrics)
    ensures AllAligned(Bump(metrics, MetricKeyFor(sig)))
  {
    MetricKeyIsMinute(sig, MetricKeyFor(sig));
  }

  // ---------- Tallies: maps that read 0 where nothing was counted ----------

  function At<K>(tally: map<K, nat>, k: K): nat {
    if k in tally then tally[k] else 0
  }

  function Bump<K>(tally: map<K, nat>, k: K): map<K, nat> {
    tally[k := At(tally, k) + 1]
  }

  ghost function Total<K>(tally: map<K, nat>): nat {
    if tally == map[] then 0 else
      var k :| k in tally;
      tally[k] + Total(tally - {k})
  }

  lemma {:induction false} TotalPick<K>(tally: map<K, nat>, k: K)
    requires k in tally
    ensures Total(tally) == tally[k] + Total(tally - {k})
    decreases |tally|
  {
    var p :| p in tally && Total(tally) == tally[p] + Total(tally - {p});
    if p != k {
      TotalPick(tally - {p}, k);
      TotalPick(tally - {k}, p);
      assert tally - {p} - {k} == tally - {k} - {p};
    }
  }

  lemma TotalBump<K>(tally: map<K, nat>, k: K)
    ensures Total(Bump(tally, k)) == Total(tally) + 1
  {
    var after := Bump(tally, k);
    TotalPick(after, k);
    assert after - {k} == tally - {k};
    if k in tally {
      TotalPick(tally, k);
    } else {
      assert tally - {k} == tally;
    }
  }
}
