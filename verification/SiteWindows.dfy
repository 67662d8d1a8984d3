/** Debouncing at the coarse grain refines the tumbling-window group-by: the work items
    of each component are its windows. */
module SiteWindows {
  import opened Types
  import opened States
  import opened Site
  import opened Windows

  /** What one event is to component c: a signal of c, an accepted close of one of its
      items whose key was cleared, or nothing. */
  function StimulusOf(s: Site, e: Stamped, c: ComponentId): seq<Stimulus> {
    if e.action.Process? then
      (if e.action.sig.component == c then [Arrive(e.action.sig, e.at, e.action.look, e.action.refill)] else [])
    else if Closing(s, e) && e.action.cleanup.Done? && s.items[e.action.item].component == c then [Close]
    else []
  }

  function Stimuli(s: Site, es: seq<Stamped>, c: ComponentId, ttl: int): seq<Stimulus>
    decreases |es|
  {
    if es == [] then []
    else StimulusOf(s, es[0], c) + Stimuli(Handled(s, es[0], ttl), es[1..], c, ttl)
  }

  function SummaryOf(row: WorkItem): Group {
    Group(row.startTime, row.kind, row.severity, row.signalCount)
  }

  /** The work items of c in creation order, each as the window it stands for. */
  function Summaries(items: seq<WorkItem>, c: ComponentId): seq<Group> {
    if items == [] then []
    else
      var last := items[|items| - 1];
      Summaries(items[..|items| - 1], c) + (if last.component == c then [SummaryOf(last)] else [])
  }

  lemma SummariesAppend(items: seq<WorkItem>, row: WorkItem, c: ComponentId)
    ensures Summaries(items + [row], c)
      == Summaries(items, c) + (if row.component == c then [SummaryOf(row)] else [])
  {
    assert (items + [row])[..|items|] == items;
  }

  /** Rewriting a row without touching its summary, or a row of another component, changes nothing. */
  lemma {:induction false} SummariesKeep(items: seq<WorkItem>, i: nat, row: WorkItem, c: ComponentId)
    requires i < |items| && row.component == items[i].component
    requires row.component == c ==> SummaryOf(row) == SummaryOf(items[i])
    ensures Summaries(items[i := row], c) == Summaries(items, c)
  {
    var n := |items| - 1;
    if i == n {
      assert items[i := row][..n] == items[..n];
    } else {
      SummariesKeep(items[..n], i, row, c);
      assert items[i := row][..n] == items[..n][i := row];
    }
  }

  /** Row i is the latest of component c. */
  predicate Latest(items: seq<WorkItem>, i: nat, c: ComponentId) {
    IsItemOf(items, i, c) && forall j :: i < j < |items| ==> items[j].component != c
  }

  /** The last row is one of c: counting a signal in it widens the last window. */
  lemma WidenAtEnd(front: seq<WorkItem>, last: WorkItem, c: ComponentId)
    requires last.component == c
    ensures Summaries(front + [last], c) != []
    ensures Summaries(Incremented(front + [last], |front|), c) == Widened(Summaries(front + [last], c))
  {
    var row := last.(signalCount := last.signalCount + 1);
    assert Incremented(front + [last], |front|) == front + [row];
    SummariesAppend(front, last, c);
    SummariesAppend(front, row, c);
    WidenLast(Summaries(front, c), SummaryOf(last));
  }

  /** It is not: what happens to an earlier row happens to the summaries of the front. */
  lemma WidenBeforeEnd(front: seq<WorkItem>, last: WorkItem, i: nat, c: ComponentId)
    requires last.component != c && i < |front|
    ensures Summaries(front + [last], c) == Summaries(front, c)
    ensures Summaries(Incremented(front + [last], i), c) == Summaries(Incremented(front, i), c)
  {
    assert Incremented(front + [last], i) == Incremented(front, i) + [last];
    SummariesAppend(front, last, c);
    SummariesAppend(Incremented(front, i), last, c);
  }

  /** Counting one more signal in the latest row of c widens its last window. */
  lemma {:induction false} SummariesWiden(items: seq<WorkItem>, i: nat, c: ComponentId)
    requires Latest(items, i, c)
    ensures Summaries(items, c) != [] && Summaries(Incremented(items, i), c) == Widened(Summaries(items, c))
  {
    var n := |items| - 1;
    assert items == items[..n] + [items[n]];
    if i == n {
      WidenAtEnd(items[..n], items[n], c);
    } else {
      SummariesWiden(items[..n], i, c);
      WidenBeforeEnd(items[..n], items[n], i, c);
    }
  }

  /** After the stimuli ss of c, its work items are the windows of ss, and its key is
      there exactly while the last window has not been closed: it expires at that
      window's deadline and names the latest work item, or holds a placeholder if the
      claim expired before the swap. */
  ghost predicate Tracks(s: Site, ss: seq<Stimulus>, c: ComponentId, ttl: int) {
    var w := LastWindow(ss, None, ttl);
    && Summaries(s.items, c) == GroupBy(ss, None, ttl)
    && (c in s.keys <==> w.Some?)
    && (c in s.keys ==>
         && s.keys[c].expires == w.value.deadline
         && (w.value.swapped <==> s.keys[c].value.Claimed?)
         && (s.keys[c].value.Claimed? ==> Latest(s.items, s.keys[c].value.item, c)))
  }

  /** The signal joins the open window: it is counted in the latest row, or lost. */
  lemma JoinTracks(s: Site, a: Stimulus, ss: seq<Stimulus>, c: ComponentId, ttl: int)
    requires Tracks(s, ss, c, ttl) && a.Arrive? && a.sig.component == c
    requires c in s.keys && Joins(a, s.keys[c].expires)
    ensures Tracks(ProcessedOver(s, a.sig, a.claim, a.look, a.refill, ttl), ss + [a], c, ttl)
  {
    GroupByAppend(ss, a, None, ttl);
    if s.keys[c].value.Claimed? {
      SummariesWiden(s.items, s.keys[c].value.item, c);
    }
  }

  /** The window the key stands for. */
  function WindowOf(keys: map<ComponentId, Key>, c: ComponentId): Option<Window> {
    if c in keys then Some(Window(keys[c].expires, keys[c].value.Claimed?)) else None
  }

  /** A signal that does not join makes a row, and a key that stands for its window. */
  lemma OpensWindow(s: Site, a: Stimulus, c: ComponentId, ttl: int)
    requires a.Arrive? && a.sig.component == c && (c in s.keys ==> !Joins(a, s.keys[c].expires))
    ensures var after := ProcessedOver(s, a.sig, a.claim, a.look, a.refill, ttl);
      && after.items == s.items + [NewItem(a.sig)]
      && WindowOf(after.keys, c) == Some(Opened(a, WindowOf(s.keys, c), ttl))
      && (after.keys[c].value.Claimed? ==> after.keys[c].value.item == |s.items|)
  {
  }

  lemma OpenTracks(s: Site, a: Stimulus, ss: seq<Stimulus>, c: ComponentId, ttl: int)
    requires Tracks(s, ss, c, ttl) && a.Arrive? && a.sig.component == c
    requires c in s.keys ==> !Joins(a, s.keys[c].expires)
    ensures Tracks(ProcessedOver(s, a.sig, a.claim, a.look, a.refill, ttl), ss + [a], c, ttl)
  {
    assert WindowOf(s.keys, c) == LastWindow(ss, None, ttl);
    OpensWindow(s, a, c, ttl);
    GroupByAppend(ss, a, None, ttl);
    SummariesAppend(s.items, NewItem(a.sig), c);
  }

  /** A claimed key of any component names one of its own rows. */
  ghost predicate KeysOwn(s: Site) {
    forall d :: d in s.keys && s.keys[d].value.Claimed? ==> IsItemOf(s.items, s.keys[d].value.item, d)
  }

  /** A signal of another component adds or counts in a row of its own. */
  lemma ForeignRows(s: Site, a: Stimulus, c: ComponentId, ttl: int)
    requires KeysOwn(s) && a.Arrive? && a.sig.component != c
    ensures var after := ProcessedOver(s, a.sig, a.claim, a.look, a.refill, ttl);
      && Summaries(after.items, c) == Summaries(s.items, c)
      && forall i :: Latest(s.items, i, c) ==> Latest(after.items, i, c)
  {
    var d := a.sig.component;
    ProcessShape(s, a.sig, a.claim, a.look, a.refill, ttl);
    SummariesAppend(s.items, NewItem(a.sig), c);
    if d in s.keys && s.keys[d].value.Claimed? {
      var row := s.items[s.keys[d].value.item];
      SummariesKeep(s.items, s.keys[d].value.item, row.(signalCount := row.signalCount + 1), c);
    }
  }

  lemma ForeignProcessTracks(s: Site, a: Stimulus, ss: seq<Stimulus>, c: ComponentId, ttl: int)
    requires Tracks(s, ss, c, ttl) && KeysOwn(s) && a.Arrive? && a.sig.component != c
    ensures Tracks(ProcessedOver(s, a.sig, a.claim, a.look, a.refill, ttl), ss, c, ttl)
  {
    ForeignRows(s, a, c, ttl);
    ProcessShape(s, a.sig, a.claim, a.look, a.refill, ttl);
    OtherKeyStays(s.keys, ProcessedOver(s, a.sig, a.claim, a.look, a.refill, ttl).keys, a.sig.component, c);
  }

  lemma OtherKeyStays(before: map<ComponentId, Key>, after: map<ComponentId, Key>, d: ComponentId, c: ComponentId)
    requires after - {d} == before - {d} && c != d
    ensures c in after <==> c in before
    ensures c in after ==> after[c] == before[c]
  {
    assert c in after - {d} <==> c in after;
    assert c in before - {d} <==> c in before;
    assert c in after ==> (after - {d})[c] == after[c] && (before - {d})[c] == before[c];
  }

  /** An accepted transition rewrites a row without touching its summary. */
  lemma MoveTracks(s: Site, i: nat, r: TransitionResult, ss: seq<Stimulus>, c: ComponentId, ttl: int)
    requires Tracks(s, ss, c, ttl) && i < |s.items|
    ensures Tracks(s.(items := s.items[i := Updated(s.items[i], r)]), ss, c, ttl)
  {
    SummariesKeep(s.items, i, Updated(s.items[i], r), c);
  }

  /** After a close the feed is pruned, and the key of the row's component may be cleared. */
  lemma CleanupTracks(s: Site, i: nat, d: ComponentId, cleanup: Cleanup, ss: seq<Stimulus>, c: ComponentId, ttl: int)
    requires Tracks(s, ss, c, ttl)
    ensures Tracks(Cleaned(s, i, d, cleanup), if cleanup.Done? && d == c then ss + [Close] else ss, c, ttl)
  {
    GroupByAppend(ss, Close, None, ttl);
  }

  lemma TransitTracks(s: Site, e: Stamped, ss: seq<Stimulus>, c: ComponentId, ttl: int)
    requires Tracks(s, ss, c, ttl) && Accepted(s, e)
    ensures Tracks(Handled(s, e, ttl), ss + StimulusOf(s, e, c), c, ttl)
  {
    var i := e.action.item;
    var r := Decision(s, i, e.action.target, e.at).result;
    TransitionIsExact(s.items[i], e.action.target, RcaOf(s.rcas, i), e.at);
    MoveTracks(s, i, r, ss, c, ttl);
    var moved := s.(items := s.items[i := Updated(s.items[i], r)]);
    CleanupTracks(moved, i, s.items[i].component, e.action.cleanup, ss, c, ttl);
    assert ss + [] == ss;
  }

  lemma EventTracks(s: Site, e: Stamped, ss: seq<Stimulus>, c: ComponentId, ttl: int)
    requires Tracks(s, ss, c, ttl) && KeysOwn(s)
    ensures Tracks(Handled(s, e, ttl), ss + StimulusOf(s, e, c), c, ttl)
  {
    assert ss + [] == ss;
    match e.action {
      case Process(sig, look, refill) =>
        var a := Arrive(sig, e.at, look, refill);
        if sig.component != c {
          ForeignProcessTracks(s, a, ss, c, ttl);
        } else if c in s.keys && Joins(a, s.keys[c].expires) {
          JoinTracks(s, a, ss, c, ttl);
        } else {
          OpenTracks(s, a, ss, c, ttl);
        }
      case Transit(_, _, _) => if Accepted(s, e) { TransitTracks(s, e, ss, c, ttl); }
      case Submit(_, _) =>
    }
  }

  lemma ProcessKeepsKeysOwn(s: Site, sig: Signal, t0: int, t1: int, t2: int, ttl: int)
    requires KeysOwn(s)
    ensures KeysOwn(ProcessedOver(s, sig, t0, t1, t2, ttl))
  {
    var c, after := sig.component, ProcessedOver(s, sig, t0, t1, t2, ttl);
    ProcessShape(s, sig, t0, t1, t2, ttl);
    forall d | d in after.keys && after.keys[d].value.Claimed?
      ensures IsItemOf(after.items, after.keys[d].value.item, d)
    {
      if d != c {
        OtherKeyStays(s.keys, after.keys, c, d);
      }
    }
  }

  lemma EventKeepsKeysOwn(s: Site, e: Stamped, ttl: int)
    requires KeysOwn(s)
    ensures KeysOwn(Handled(s, e, ttl))
  {
    match e.action {
      case Process(sig, look, refill) => ProcessKeepsKeysOwn(s, sig, e.at, look, refill, ttl);
      case Transit(_, _, _) => if Accepted(s, e) { assert Handled(s, e, ttl).keys.Keys <= s.keys.Keys; }
      case Submit(_, _) =>
    }
  }

  lemma Reassociate(a: seq<Stimulus>, b: seq<Stimulus>, c: seq<Stimulus>)
    ensures a + (b + c) == a + b + c
  {
  }

  lemma {:induction false} RunTracks(s: Site, es: seq<Stamped>, ss: seq<Stimulus>, c: ComponentId, ttl: int)
      returns (last: Site)
    requires Tracks(s, ss, c, ttl) && KeysOwn(s)
    ensures last == Run(s, es, ttl) && Tracks(last, ss + Stimuli(s, es, c, ttl), c, ttl)
    decreases |es|
  {
    if es == [] {
      assert ss + Stimuli(s, es, c, ttl) == ss;
      last := s;
    } else {
      EventTracks(s, es[0], ss, c, ttl);
      EventKeepsKeysOwn(s, es[0], ttl);
      Reassociate(ss, StimulusOf(s, es[0], c), Stimuli(Handled(s, es[0], ttl), es[1..], c, ttl));
      last := RunTracks(Handled(s, es[0], ttl), es[1..], ss + StimulusOf(s, es[0], c), c, ttl);
    }
  }

  /** The work items of every component are exactly its tumbling windows, in order: start
      time, type and severity of the first signal, and as many signals as fell into it;
      only behind a claim that expired before its swap are the signals lost. */
  lemma WorkItemsAreWindows(es: seq<Stamped>, c: ComponentId, ttl: int)
    ensures Summaries(Run(EMPTY, es, ttl).items, c) == GroupBy(Stimuli(EMPTY, es, c, ttl), None, ttl)
  {
    var last := RunTracks(EMPTY, es, [], c, ttl);
    assert [] + Stimuli(EMPTY, es, c, ttl) == Stimuli(EMPTY, es, c, ttl);
  }

  // ---------- How many work items a stretch of time can see ----------

  /** Events come one after the other, between `from` and `to`. */
  ghost predicate Chronological(es: seq<Stamped>, from: int, to: int) {
    && (forall i :: 0 <= i < |es| ==> from <= es[i].at <= Finished(es[i]) <= to)
    && (forall i :: 0 <= i < |es| && es[i].action.Process? ==> es[i].at <= es[i].action.look <= es[i].action.refill)
    && (forall i, j :: 0 <= i < j < |es| ==> Finished(es[i]) <= es[j].at)
  }

  lemma ChronologicalTail(es: seq<Stamped>, from: int, to: int)
    requires es != [] && Chronological(es, from, to)
    ensures Chronological(es[1..], Finished(es[0]), to)
  {
    assert forall i :: 0 <= i < |es[1..]| ==> es[1..][i] == es[i + 1];
  }

  lemma {:induction false} StimuliWithin(s: Site, es: seq<Stamped>, c: ComponentId, ttl: int, from: int, to: int)
    requires Chronological(es, from, to)
    ensures Within(Stimuli(s, es, c, ttl), from, to)
    decreases |es|
  {
    if es != [] {
      ChronologicalTail(es, from, to);
      StimuliWithin(Handled(s, es[0], ttl), es[1..], c, ttl, Finished(es[0]), to);
    }
  }

  /** In a run of duration T, component c gets at most floor(T / ttl) + 1 work items, plus
      one for every close that cleared its key. */
  lemma WorkItemsOverTime(es: seq<Stamped>, c: ComponentId, ttl: int, from: int, to: int)
    requires ttl > 0 && from <= to && Chronological(es, from, to)
    ensures |Summaries(Run(EMPTY, es, ttl).items, c)| <= (to - from) / ttl + 1 + Closes(Stimuli(EMPTY, es, c, ttl))
  {
    WorkItemsAreWindows(es, c, ttl);
    StimuliWithin(EMPTY, es, c, ttl, from, to);
    WindowsBounded(Stimuli(EMPTY, es, c, ttl), None, ttl, from, to);
    RoomIsQuotient(from, to, ttl);
  }

  // ---------- Nothing is lost one after the other ----------

  function Processes(es: seq<Stamped>): nat {
    if es == [] then 0 else (if es[0].action.Process? then 1 else 0) + Processes(es[1..])
  }

  /** Every placeholder has expired. */
  ghost predicate NoPlaceholder(s: Site, now: int) {
    forall c :: c in s.keys && s.keys[c].value.Pending? ==> s.keys[c].expires <= now
  }

  lemma ProcessLosesNothing(s: Site, sig: Signal, t0: int, t1: int, t2: int, ttl: int)
    requires KeysOwn(s) && NoPlaceholder(s, t0) && t0 <= t1 <= t2
    ensures var after := ProcessedOver(s, sig, t0, t1, t2, ttl);
      SignalSum(after.items) == SignalSum(s.items) + 1 && NoPlaceholder(after, t2)
  {
    var c, after := sig.component, ProcessedOver(s, sig, t0, t1, t2, ttl);
    DebounceLeavesItsItem(s.(docs := s.docs + [sig]), sig, |s.docs|, t0, t1, t2, ttl, t2);
    forall d | d in after.keys && after.keys[d].value.Pending? ensures after.keys[d].expires <= t2 {
      if d != c {
        OtherKeyStays(s.keys, after.keys, c, d);
      } else {
        assert Live(after.keys, c, t2) != Some(after.keys[c].value);
      }
    }
  }

  lemma TransitLosesNothing(s: Site, e: Stamped, ttl: int)
    requires Accepted(s, e) && NoPlaceholder(s, e.at)
    ensures SignalSum(Handled(s, e, ttl).items) == SignalSum(s.items) && NoPlaceholder(Handled(s, e, ttl), e.at)
  {
    var i, after := e.action.item, Handled(s, e, ttl);
    var row := Updated(s.items[i], Decision(s, i, e.action.target, e.at).result);
    SignalSumReplace(s.items, i, row);
    assert after.items == s.items[i := row];
    assert forall c :: c in after.keys ==> c in s.keys && after.keys[c] == s.keys[c];
  }

  lemma EventLosesNothing(s: Site, e: Stamped, ttl: int)
    requires KeysOwn(s) && NoPlaceholder(s, e.at)
    requires e.action.Process? ==> e.at <= e.action.look <= e.action.refill
    ensures var after := Handled(s, e, ttl);
      && SignalSum(after.items) == SignalSum(s.items) + (if e.action.Process? then 1 else 0)
      && NoPlaceholder(after, Finished(e)) && !Raises(s, e)
  {
    match e.action {
      case Process(sig, look, refill) => ProcessLosesNothing(s, sig, e.at, look, refill, ttl);
      case Transit(_, _, _) =>
        if Accepted(s, e) {
          TransitLosesNothing(s, e, ttl);
        }
      case Submit(_, _) =>
    }
  }

  lemma {:induction false} RunLosesNothing(s: Site, es: seq<Stamped>, ttl: int, from: int, to: int)
    requires KeysOwn(s) && NoPlaceholder(s, from) && Chronological(es, from, to)
    ensures SignalSum(Run(s, es, ttl).items) == SignalSum(s.items) + Processes(es) && RaisesIn(s, es, ttl) == 0
    decreases |es|
  {
    if es != [] {
      ChronologicalTail(es, from, to);
      EventLosesNothing(s, es[0], ttl);
      EventKeepsKeysOwn(s, es[0], ttl);
      RunLosesNothing(Handled(s, es[0], ttl), es[1..], ttl, Finished(es[0]), to);
    }
  }

  /** Signals processed one after the other are all counted, each once, and none raises,
      whatever expires between the Redis calls: by the next claim an unswapped placeholder
      has expired. */
  lemma SequentialSignalsAreCounted(es: seq<Stamped>, ttl: int, from: int, to: int)
    requires Chronological(es, from, to)
    ensures SignalSum(Run(EMPTY, es, ttl).items) == Processes(es) && RaisesIn(EMPTY, es, ttl) == 0
  {
    RunLosesNothing(EMPTY, es, ttl, from, to);
  }
}
