/** The whole system at its coarse grain: `_process_one` and each API handler run one
    after the other on healthy stores. Keys live while now < expiry, and time passes
    between the Redis calls of `_process_one`. */
module Site {
  import opened Types
  import opened RcaValidator
  import opened States
  import opened LiveFeed

  datatype Key = Key(value: Dedup, expires: int)

  datatype Site = Site(
    docs: seq<Signal>, keys: map<ComponentId, Key>, feed: map<FeedEntry, int>,
    items: seq<WorkItem>, links: seq<Link>, metrics: map<MetricKey, nat>, rcas: map<nat, Rca>)

  /** How far the best-effort Redis cleanup after a close got. */
  datatype Cleanup = Done | FeedOnly | Skipped

  /** A signal is claimed at the stamped time, the second Redis call comes at `look`, and
      the fallback's SET at `refill`. */
  datatype Action =
    | Process(sig: Signal, look: int, refill: int)
    | Transit(item: nat, target: WorkItemState, cleanup: Cleanup)
    | Submit(item: nat, body: RcaBody)

  datatype Stamped = Stamped(at: int, action: Action)

  const EMPTY: Site := Site([], map[], map[], [], [], map[], map[])

  function Live(keys: map<ComponentId, Key>, c: ComponentId, now: int): Option<Dedup> {
    if c in keys && now < keys[c].expires then Some(keys[c].value) else None
  }

  /** Link the signal to its work item and count it in its minute. */
  function Recorded(s: Site, sig: Signal, doc: nat, item: nat): Site {
    s.(links := s.links + [LinkFor(sig, doc, item)],
       metrics := Bump(s.metrics, MetricKeyFor(sig)))
  }

  function Processed(s: Site, sig: Signal, now: int, ttl: int): Site {
    var c, doc := sig.component, |s.docs|;
    match Live(s.keys, c, now)
    case None =>
      var item := |s.items|;
      Recorded(s.(docs := s.docs + [sig], items := s.items + [NewItem(sig)],
                  keys := s.keys[c := Key(Claimed(item), now + ttl)],
                  feed := s.feed[FeedEntry(item, c) := Score(sig.severity)]),
               sig, doc, item)
    case Some(Claimed(item)) =>
      Recorded(s.(docs := s.docs + [sig], items := Incremented(s.items, item)), sig, doc, item)
    case Some(Pending(_)) => s.(docs := s.docs + [sig])
  }

  /** Find or create the signal's work item when time passes between the Redis calls: SET
      NX at `t0`, then SET XX or GET at `t1`, then the fallback's SET at `t2`. The key may be
      gone by `t1`; a fallback row is never announced in the feed. `None` is the ValueError
      on a placeholder. */
  function Debounced(s: Site, sig: Signal, doc: nat, t0: int, t1: int, t2: int, ttl: int): (Site, Option<nat>) {
    var c, item := sig.component, |s.items|;
    if Live(s.keys, c, t0).None? then
      var claimed := s.keys[c := Key(Pending(doc), t0 + ttl)];
      (s.(items := s.items + [NewItem(sig)],
          keys := if t1 < t0 + ttl then claimed[c := Key(Claimed(item), t1 + ttl)] else claimed,
          feed := s.feed[FeedEntry(item, c) := Score(sig.severity)]),
       Some(item))
    else match Live(s.keys, c, t1)
      case None =>
        (s.(items := s.items + [NewItem(sig)], keys := s.keys[c := Key(Claimed(item), t2 + ttl)]), Some(item))
      case Some(Claimed(found)) => (s.(items := Incremented(s.items, found)), Some(found))
      case Some(Pending(_)) => (s, None)
  }

  function ProcessedOver(s: Site, sig: Signal, t0: int, t1: int, t2: int, ttl: int): Site {
    var (found, item) := Debounced(s.(docs := s.docs + [sig]), sig, |s.docs|, t0, t1, t2, ttl);
    if item.Some? then Recorded(found, sig, |s.docs|, item.value) else found
  }

  /** The key was not live at SET NX: a new row, and a key that names it or has expired. */
  lemma WonLeavesItsItem(s: Site, sig: Signal, doc: nat, t0: int, t1: int, t2: int, ttl: int, later: int)
    requires Live(s.keys, sig.component, t0).None? && t0 <= t1 <= later
    ensures var (after, item) := Debounced(s, sig, doc, t0, t1, t2, ttl);
      && item == Some(|s.items|) && after.items == s.items + [NewItem(sig)]
      && Live(after.keys, sig.component, later) in {None, Some(Claimed(|s.items|))}
  {
  }

  /** It was live then and gone at GET: a new row by the fallback. */
  lemma FellBackLeavesItsItem(s: Site, sig: Signal, doc: nat, t0: int, t1: int, t2: int, ttl: int, later: int)
    requires Live(s.keys, sig.component, t0).Some? && Live(s.keys, sig.component, t1).None?
    ensures var (after, item) := Debounced(s, sig, doc, t0, t1, t2, ttl);
      && item == Some(|s.items|) && after.items == s.items + [NewItem(sig)]
      && Live(after.keys, sig.component, later) in {None, Some(Claimed(|s.items|))}
  {
  }

  /** It was live both times: the row it names, or nothing if it holds a placeholder. */
  lemma LostLeavesItsItem(s: Site, sig: Signal, doc: nat, t0: int, t1: int, t2: int, ttl: int, later: int)
    requires Live(s.keys, sig.component, t0).Some? && Live(s.keys, sig.component, t1).Some? && t1 <= later
    ensures var (after, item) := Debounced(s, sig, doc, t0, t1, t2, ttl); var v := s.keys[sig.component].value;
      if v.Claimed? then
        && item == Some(v.item) && after.items == Incremented(s.items, v.item)
        && Live(after.keys, sig.component, later) in {None, Some(v)}
      else item == None && after == s
  {
  }

  lemma ForeignKeysStay(s: Site, sig: Signal, doc: nat, t0: int, t1: int, t2: int, ttl: int)
    ensures Debounced(s, sig, doc, t0, t1, t2, ttl).0.keys - {sig.component} == s.keys - {sig.component}
  {
  }

  /** Whatever expires in between, the key a lone worker leaves behind names the work item
      it counted its signal in, or is gone; and no other component's key is touched. */
  lemma DebounceLeavesItsItem(s: Site, sig: Signal, doc: nat, t0: int, t1: int, t2: int, ttl: int, later: int)
    requires t0 <= t1 <= t2 <= later
    requires Live(s.keys, sig.component, t1).Some? && Live(s.keys, sig.component, t1).value.Claimed? ==>
      Live(s.keys, sig.component, t1).value.item < |s.items|
    ensures var (after, item) := Debounced(s, sig, doc, t0, t1, t2, ttl); var c := sig.component;
      && (item.Some? ==>
           && item.value < |after.items|
           && Live(after.keys, c, later) in {None, Some(Claimed(item.value))}
           && SignalSum(after.items) == SignalSum(s.items) + 1)
      && (item.None? ==> after == s && Live(s.keys, c, t1).Some? && Live(s.keys, c, t1).value.Pending?)
      && after.keys - {c} == s.keys - {c}
  {
    var c := sig.component;
    ForeignKeysStay(s, sig, doc, t0, t1, t2, ttl);
    SignalSumAppend(s.items, NewItem(sig));
    if Live(s.keys, c, t0).None? {
      WonLeavesItsItem(s, sig, doc, t0, t1, t2, ttl, later);
    } else if Live(s.keys, c, t1).None? {
      FellBackLeavesItsItem(s, sig, doc, t0, t1, t2, ttl, later);
    } else {
      LostLeavesItsItem(s, sig, doc, t0, t1, t2, ttl, later);
      if s.keys[c].value.Claimed? {
        var i := s.keys[c].value.item;
        SignalSumReplace(s.items, i, s.items[i].(signalCount := s.items[i].signalCount + 1));
      }
    }
  }

  /** Everything one signal can do to rows and keys: a new row, one more signal in the row
      its key names, or nothing. */
  lemma ProcessShape(s: Site, sig: Signal, t0: int, t1: int, t2: int, ttl: int)
    ensures var after, c := ProcessedOver(s, sig, t0, t1, t2, ttl), sig.component;
      && after.keys - {c} == s.keys - {c}
      && if Live(s.keys, c, t0).None? || Live(s.keys, c, t1).None? then
           && after.items == s.items + [NewItem(sig)] && c in after.keys
           && (after.keys[c].value.Claimed? ==> after.keys[c].value.item == |s.items|)
         else
           && after.keys == s.keys
           && after.items
              == if s.keys[c].value.Claimed? then Incremented(s.items, s.keys[c].value.item) else s.items
  {
    ForeignKeysStay(s.(docs := s.docs + [sig]), sig, |s.docs|, t0, t1, t2, ttl);
  }

  /** All signals counted by all rows. */
  function SignalSum(items: seq<WorkItem>): nat {
    if items == [] then 0 else SignalSum(items[..|items| - 1]) + items[|items| - 1].signalCount
  }

  lemma SignalSumAppend(items: seq<WorkItem>, row: WorkItem)
    ensures SignalSum(items + [row]) == SignalSum(items) + row.signalCount
  {
    assert (items + [row])[..|items|] == items;
  }

  lemma {:induction false} SignalSumReplace(items: seq<WorkItem>, i: nat, row: WorkItem)
    requires i < |items|
    ensures SignalSum(items[i := row]) + items[i].signalCount == SignalSum(items) + row.signalCount
  {
    var n := |items| - 1;
    if i == n {
      assert items[i := row][..n] == items[..n];
    } else {
      SignalSumReplace(items[..n], i, row);
      assert items[i := row][..n] == items[..n][i := row];
    }
  }

  /** When no time passes, the fallback cannot happen and SET XX finds the claim in place. */
  lemma AtomicProcess(s: Site, sig: Signal, now: int, ttl: int)
    requires ttl > 0
    ensures ProcessedOver(s, sig, now, now, now, ttl) == Processed(s, sig, now, ttl)
  {
    if Live(s.keys, sig.component, now).None? {
      var c := sig.component;
      assert s.keys[c := Key(Pending(|s.docs|), now + ttl)][c := Key(Claimed(|s.items|), now + ttl)]
          == s.keys[c := Key(Claimed(|s.items|), now + ttl)];
    }
  }

  /** What a transition request for an existing row decides. */
  function Decision(s: Site, item: nat, target: WorkItemState, now: int): Outcome
    requires item < |s.items|
  {
    Transition(s.items[item], target, RcaOf(s.rcas, item), now)
  }

  function Cleaned(s: Site, item: nat, c: ComponentId, cleanup: Cleanup): Site {
    match cleanup
    case Skipped => s
    case FeedOnly => s.(feed := WithoutItem(s.feed, item))
    case Done => s.(feed := WithoutItem(s.feed, item), keys := s.keys - {c})
  }

  function Transited(s: Site, item: nat, target: WorkItemState, now: int, cleanup: Cleanup): Site {
    if item >= |s.items| || !Decision(s, item, target, now).Moved? then s
    else
      var r := Decision(s, item, target, now).result;
      var moved := s.(items := s.items[item := Updated(s.items[item], r)]);
      if r.newState == Closed then Cleaned(moved, item, s.items[item].component, cleanup) else moved
  }

  function Submitted(s: Site, item: nat, body: RcaBody): Site {
    if item < |s.items| && AcceptedRca(body).Some? then s.(rcas := s.rcas[item := AcceptedRca(body).value]) else s
  }

  function Handled(s: Site, e: Stamped, ttl: int): Site {
    match e.action
    case Process(sig, look, refill) => ProcessedOver(s, sig, e.at, look, refill, ttl)
    case Transit(item, target, cleanup) => Transited(s, item, target, e.at, cleanup)
    case Submit(item, body) => Submitted(s, item, body)
  }

  /** When the event's last Redis call comes. */
  function Finished(e: Stamped): int {
    if e.action.Process? then e.action.refill else e.at
  }

  function Run(s: Site, es: seq<Stamped>, ttl: int): Site
    decreases |es|
  {
    if es == [] then s else Run(Handled(s, es[0], ttl), es[1..], ttl)
  }

  lemma {:induction false} RunAppend(s: Site, es: seq<Stamped>, e: Stamped, ttl: int)
    ensures Run(s, es + [e], ttl) == Handled(Run(s, es, ttl), e, ttl)
    decreases |es|
  {
    if es == [] {
      assert (es + [e])[1..] == [];
    } else {
      assert (es + [e])[1..] == es[1..] + [e];
      RunAppend(Handled(s, es[0], ttl), es[1..], e, ttl);
    }
  }

  /** The event is a signal whose worker reads a placeholder and raises. */
  predicate Raises(s: Site, e: Stamped) {
    && e.action.Process?
    && Live(s.keys, e.action.sig.component, e.at).Some?
    && Live(s.keys, e.action.sig.component, e.action.look).Some?
    && Live(s.keys, e.action.sig.component, e.action.look).value.Pending?
  }

  function RaisesIn(s: Site, es: seq<Stamped>, ttl: int): nat
    decreases |es|
  {
    if es == [] then 0 else (if Raises(s, es[0]) then 1 else 0) + RaisesIn(Handled(s, es[0], ttl), es[1..], ttl)
  }

  lemma {:induction false} RaisesInAppend(s: Site, es: seq<Stamped>, e: Stamped, ttl: int)
    ensures RaisesIn(s, es + [e], ttl) == RaisesIn(s, es, ttl) + (if Raises(Run(s, es, ttl), e) then 1 else 0)
    ensures RaisesIn(s, es, ttl) <= |es|
    decreases |es|
  {
    if es == [] {
      assert (es + [e])[1..] == [];
    } else {
      assert (es + [e])[1..] == es[1..] + [e];
      RaisesInAppend(Handled(s, es[0], ttl), es[1..], e, ttl);
    }
  }

  /** The request is for an existing row and is accepted. */
  predicate Accepted(s: Site, e: Stamped) {
    e.action.Transit? && e.action.item < |s.items|
    && Decision(s, e.action.item, e.action.target, e.at).Moved?
  }

  /** The event closes a work item. */
  predicate Closing(s: Site, e: Stamped) {
    Accepted(s, e) && e.action.target == Closed
  }
}
