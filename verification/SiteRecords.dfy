/** What the coarse system records of its signals: documents, links and metric rows. */
module SiteRecords {
  import opened Types
  import opened States
  import opened Site
  import opened SiteWindows

  /** The signals of a run, and those whose worker did not raise. */
  function SentBy(e: Stamped): seq<Signal> {
    if e.action.Process? then [e.action.sig] else []
  }

  function Sent(es: seq<Stamped>): seq<Signal> {
    if es == [] then [] else SentBy(es[0]) + Sent(es[1..])
  }

  function KeptBy(s: Site, e: Stamped): seq<Signal> {
    if e.action.Process? && !Raises(s, e) then [e.action.sig] else []
  }

  function Kept(s: Site, es: seq<Stamped>, ttl: int): seq<Signal>
    decreases |es|
  {
    if es == [] then [] else KeptBy(s, es[0]) + Kept(Handled(s, es[0], ttl), es[1..], ttl)
  }

  function CountOf(items: seq<WorkItem>, i: nat): nat {
    if i < |items| then items[i].signalCount else 0
  }

  /** The link of a signal: its own document, its own facts, and the row that counted it. */
  predicate LinksSignal(s: Site, after: Site, l: Link, sig: Signal) {
    && l.signal == |s.docs| && l.component == sig.component && l.severity == sig.severity
    && l.timestamp == sig.timestamp
    && IsItemOf(after.items, l.item, sig.component) && CountOf(after.items, l.item) == CountOf(s.items, l.item) + 1
  }

  /** One signal: its document is inserted; and unless its worker raises, one link is added,
      which names that document and the row whose count went up, and the signal is counted
      in the metric row of its minute, component and severity and in no other. */
  lemma SignalIsRecorded(s: Site, sig: Signal, t0: int, t1: int, t2: int, ttl: int)
    requires KeysOwn(s)
    ensures var after, raises := ProcessedOver(s, sig, t0, t1, t2, ttl), Raises(s, Stamped(t0, Process(sig, t1, t2)));
      && after.docs == s.docs + [sig]
      && if raises then after.links == s.links && after.metrics == s.metrics
         else
           && |after.links| == |s.links| + 1 && s.links <= after.links
           && LinksSignal(s, after, after.links[|s.links|], sig)
           && (forall key :: Aligned(key) ==> At(after.metrics, key) == At(s.metrics, key) + Hits(sig, key))
           && (AllAligned(s.metrics) ==> AllAligned(after.metrics))
  {
    var after := ProcessedOver(s, sig, t0, t1, t2, ttl);
    ProcessShape(s, sig, t0, t1, t2, ttl);
    if !Raises(s, Stamped(t0, Process(sig, t1, t2))) {
      assert after.metrics == Bump(s.metrics, MetricKeyFor(sig));
      forall key | Aligned(key) ensures At(after.metrics, key) == At(s.metrics, key) + Hits(sig, key) {
        BumpHits(s.metrics, sig, key);
      }
      if AllAligned(s.metrics) {
        BumpAligned(s.metrics, sig);
      }
    }
  }

  /** The i-th link is that of the i-th kept signal. */
  predicate LinkOfKept(docs: seq<Signal>, l: Link, sig: Signal) {
    && l.signal < |docs| && docs[l.signal] == sig && l.component == sig.component
    && l.severity == sig.severity && l.timestamp == sig.timestamp
  }

  /** Documents are the sent signals, links and metric rows those of the kept ones. */
  ghost predicate RecordsOk(s: Site, sent: seq<Signal>, kept: seq<Signal>) {
    && s.docs == sent && |s.links| == |kept|
    && (forall i :: 0 <= i < |kept| ==> LinkOfKept(sent, s.links[i], kept[i]))
    && (forall i, j :: 0 <= i < j < |kept| ==> s.links[i].signal < s.links[j].signal)
    && AllAligned(s.metrics)
    && (forall key :: Aligned(key) ==> At(s.metrics, key) == SignalsIn(kept, key))
  }

  lemma KeptKeepsRecords(s: Site, e: Stamped, ttl: int, sent: seq<Signal>, kept: seq<Signal>)
    requires RecordsOk(s, sent, kept) && KeysOwn(s) && e.action.Process? && !Raises(s, e)
    ensures RecordsOk(Handled(s, e, ttl), sent + [e.action.sig], kept + [e.action.sig])
  {
    var sig, after := e.action.sig, Handled(s, e, ttl);
    SignalIsRecorded(s, sig, e.at, e.action.look, e.action.refill, ttl);
    forall key | Aligned(key) ensures At(after.metrics, key) == SignalsIn(kept + [sig], key) {
      SignalsInAppend(kept, sig, key);
    }
    forall i | 0 <= i < |kept| ensures after.links[i] == s.links[i] && LinkOfKept(sent, s.links[i], kept[i]) {
    }
  }

  lemma OtherKeepsRecords(s: Site, e: Stamped, ttl: int, sent: seq<Signal>, kept: seq<Signal>)
    requires RecordsOk(s, sent, kept) && !e.action.Process?
    ensures RecordsOk(Handled(s, e, ttl), sent, kept)
  {
    RequestsRecordNothing(s, e, ttl);
  }

  lemma RequestsRecordNothing(s: Site, e: Stamped, ttl: int)
    requires !e.action.Process?
    ensures var after := Handled(s, e, ttl);
      after.docs == s.docs && after.links == s.links && after.metrics == s.metrics
  {
  }

  lemma RaisedKeepsRecords(s: Site, e: Stamped, ttl: int, sent: seq<Signal>, kept: seq<Signal>)
    requires RecordsOk(s, sent, kept) && KeysOwn(s) && e.action.Process? && Raises(s, e)
    ensures RecordsOk(Handled(s, e, ttl), sent + [e.action.sig], kept)
  {
    SignalIsRecorded(s, e.action.sig, e.at, e.action.look, e.action.refill, ttl);
  }

  lemma EventKeepsRecords(s: Site, e: Stamped, ttl: int, sent: seq<Signal>, kept: seq<Signal>)
    requires RecordsOk(s, sent, kept) && KeysOwn(s)
    ensures RecordsOk(Handled(s, e, ttl), sent + SentBy(e), kept + KeptBy(s, e))
  {
    if !e.action.Process? {
      OtherKeepsRecords(s, e, ttl, sent, kept);
      assert sent + SentBy(e) == sent && kept + KeptBy(s, e) == kept;
    } else if Raises(s, e) {
      RaisedKeepsRecords(s, e, ttl, sent, kept);
      assert kept + KeptBy(s, e) == kept;
    } else {
      KeptKeepsRecords(s, e, ttl, sent, kept);
    }
  }

  lemma Reassociate(a: seq<Signal>, b: seq<Signal>, c: seq<Signal>)
    ensures a + (b + c) == a + b + c
  {
  }

  lemma {:induction false} RunKeepsRecords(s: Site, es: seq<Stamped>, ttl: int, sent: seq<Signal>, kept: seq<Signal>)
      returns (last: Site)
    requires RecordsOk(s, sent, kept) && KeysOwn(s)
    ensures last == Run(s, es, ttl) && RecordsOk(last, sent + Sent(es), kept + Kept(s, es, ttl))
    decreases |es|
  {
    if es == [] {
      assert sent + Sent(es) == sent && kept + Kept(s, es, ttl) == kept;
      last := s;
    } else {
      EventKeepsRecords(s, es[0], ttl, sent, kept);
      EventKeepsKeysOwn(s, es[0], ttl);
      Reassociate(sent, SentBy(es[0]), Sent(es[1..]));
      Reassociate(kept, KeptBy(s, es[0]), Kept(Handled(s, es[0], ttl), es[1..], ttl));
      last := RunKeepsRecords(Handled(s, es[0], ttl), es[1..], ttl, sent + SentBy(es[0]), kept + KeptBy(s, es[0]));
    }
  }

  /** In every coarse run: the documents are the signals sent, in order; the links are those
      of the signals whose worker did not raise, in order, each naming its own document and
      repeating its signal's facts; and the metric row of each minute, component and severity
      counts exactly the kept signals that fall under it, in rows for whole minutes only. */
  lemma RecordsAreKept(es: seq<Stamped>, ttl: int) returns (s: Site, kept: seq<Signal>)
    ensures s == Run(EMPTY, es, ttl) && kept == Kept(EMPTY, es, ttl) && RecordsOk(s, Sent(es), kept)
    ensures forall key :: key in s.metrics ==> key.bucket % 60_000_000 == 0
    ensures forall key: MetricKey :: key.bucket % 60_000_000 == 0 ==> At(s.metrics, key) == SignalsIn(kept, key)
  {
    s := RunKeepsRecords(EMPTY, es, ttl, [], []);
    kept := Kept(EMPTY, es, ttl);
    assert [] + Sent(es) == Sent(es) && [] + kept == kept;
    RecordsInMinutes(s, Sent(es), kept);
  }

  lemma RecordsInMinutes(s: Site, sent: seq<Signal>, kept: seq<Signal>)
    requires RecordsOk(s, sent, kept)
    ensures forall key :: key in s.metrics ==> key.bucket % 60_000_000 == 0
    ensures forall key: MetricKey :: key.bucket % 60_000_000 == 0 ==> At(s.metrics, key) == SignalsIn(kept, key)
  {
    forall key: MetricKey | key.bucket % 60_000_000 == 0 ensures At(s.metrics, key) == SignalsIn(kept, key) {
      assert Aligned(key);
    }
    forall key | key in s.metrics ensures key.bucket % 60_000_000 == 0 {
      assert Aligned(key);
    }
  }
}
