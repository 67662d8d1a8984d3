/** The two grains agree: a worker, or request, that nobody interrupts does in the fine
    models exactly what one event of the coarse model does. */
module Granularity {
  import opened Types
  import opened Debouncer
  import opened SoloWorker
  import Site
  import Handlers

  // ---------- Stores and keys ----------

  /** The stores of both models hold the same, dedup keys as far as they are live now. */
  ghost predicate SameStores(s: World, site: Site.Site, now: int) {
    && s.docs == site.docs && s.feed == site.feed && s.items == site.items
    && s.links == site.links && s.metrics == site.metrics
    && SameKeys(s.dedup, site.keys, now)
  }

  ghost predicate SameKeys(dedup: map<ComponentId, Dedup>, keys: map<ComponentId, Site.Key>, now: int) {
    forall c :: Site.Live(keys, c, now) == if c in dedup then Some(dedup[c]) else None
  }

  /** Some keys vanish. */
  lemma {:induction false} RemoveKeys(s: World, gone: set<ComponentId>) returns (last: World, es: seq<Event>)
    requires gone <= s.dedup.Keys
    ensures last == Run(s, es) && last == s.(dedup := s.dedup - gone, claims := last.claims)
    ensures forall k :: 0 <= k < |es| ==> es[k].Remove?
    ensures gone == {} ==> es == []
    decreases |gone|
  {
    if gone == {} {
      last, es := s, [];
      assert s.dedup - gone == s.dedup;
    } else {
      var c :| c in gone;
      var rest;
      last, rest := RemoveKeys(Next(s, Remove(c)), gone - {c});
      es := [Remove(c)] + rest;
      RunOne(s, Remove(c));
      RunAppend(s, [Remove(c)], rest);
      assert s.dedup - {c} - (gone - {c}) == s.dedup - gone;
    }
  }

  /** As time passes, keys expire. */
  lemma Expire(s: World, site: Site.Site, now: int, later: int) returns (last: World, es: seq<Event>)
    requires SameStores(s, site, now) && now <= later
    ensures last == Run(s, es) && last == s.(dedup := last.dedup, claims := last.claims)
    ensures SameStores(last, site, later)
    ensures forall k :: 0 <= k < |es| ==> es[k].Remove?
    ensures now == later ==> es == []
  {
    var gone := set c | c in s.dedup && Site.Live(site.keys, c, later) == None;
    last, es := RemoveKeys(s, gone);
  }

  // ---------- A worker nobody interrupts, while keys may expire ----------

  /** From s to last only worker w has acted, and keys may have vanished. */
  ghost predicate Led(s: World, last: World, es: seq<Event>, w: nat) {
    && last == Run(s, es) && |last.workers| == |s.workers| && last.ingest == s.ingest
    && (forall v :: 0 <= v < |s.workers| && v != w ==> last.workers[v] == s.workers[v])
    && (forall k :: 0 <= k < |es| ==> es[k] == Advance(w) || es[k].Remove?)
  }

  lemma LedThen(s: World, mid: World, last: World, first: seq<Event>, more: seq<Event>, w: nat)
    requires Led(s, mid, first, w) && Led(mid, last, more, w)
    ensures Led(s, last, first + more, w)
    ensures Alone(first, w) && Alone(more, w) ==> Alone(first + more, w)
  {
    RunAppend(s, first, more);
  }

  /** Insert and claim, and create the row. */
  lemma WinUntilCreated(s: World, w: nat, site: Site.Site, at: int, ttl: int) returns (last: World, es: seq<Event>)
    requires w < |s.workers| && s.workers[w].Fetched? && s.workers[w].sig.component !in s.dedup
    requires SameStores(s, site, at) && ttl > 0
    ensures Led(s, last, es, w) && Alone(es, w)
    ensures var sig := s.workers[w].sig;
      && last.workers[w] == Created(sig, |site.docs|, |site.items|)
      && SameStores(last, site.(docs := site.docs + [sig], items := site.items + [NewItem(sig)],
                                keys := site.keys[sig.component := Site.Key(Pending(|site.docs|), at + ttl)]), at)
  {
    var s1, e1 := InsertAndClaim(s, w);
    var e2;
    last, e2 := CreateRow(s1, w);
    es := e1 + e2;
    LedThen(s, s1, last, e1, e2, w);
  }

  function Swapped(keys: map<ComponentId, Site.Key>, c: ComponentId, item: nat, look: int, ttl: int):
      map<ComponentId, Site.Key>
  {
    if Site.Live(keys, c, look).Some? then keys[c := Site.Key(Claimed(item), look + ttl)] else keys
  }

  /** Time passes until `look`; then the id is swapped in, if the claim is still there. */
  lemma SwapOver(s: World, w: nat, site: Site.Site, at: int, look: int, ttl: int)
      returns (last: World, es: seq<Event>)
    requires w < |s.workers| && s.workers[w].Created? && SameStores(s, site, at) && at <= look && ttl > 0
    ensures Led(s, last, es, w) && (look == at ==> Alone(es, w))
    ensures var k := s.workers[w];
      && last.workers[w] == Announcing(k.sig, k.doc, k.item)
      && SameStores(last, site.(keys := Swapped(site.keys, k.sig.component, k.item, look, ttl)), look)
  {
    var s1, e1 := Expire(s, site, at, look);
    var e2;
    last, e2 := Swap(s1, w);
    es := e1 + e2;
    LedThen(s, s1, last, e1, e2, w);
  }

  lemma AnnounceAndRecord(s: World, w: nat, site: Site.Site, now: int) returns (last: World, es: seq<Event>)
    requires w < |s.workers| && s.workers[w].Announcing? && SameStores(s, site, now)
    ensures Led(s, last, es, w) && Alone(es, w) && last.workers[w].Idle?
    ensures var k := s.workers[w];
      var feed := site.feed[FeedEntry(k.item, k.sig.component) := Score(k.sig.severity)];
      SameStores(last, Site.Recorded(site.(feed := feed), k.sig, k.doc, k.item), now)
  {
    var s1, e1 := Announce(s, w);
    var e2;
    last, e2 := LinkAndMeter(s1, w);
    es := e1 + e2;
    LedThen(s, s1, last, e1, e2, w);
  }

  /** The first signal of a window. */
  lemma WinOver(s: World, w: nat, site: Site.Site, at: int, look: int, refill: int, ttl: int)
      returns (last: World, es: seq<Event>)
    requires w < |s.workers| && s.workers[w].Fetched? && s.workers[w].sig.component !in s.dedup
    requires SameStores(s, site, at) && ttl > 0 && at <= look
    ensures Led(s, last, es, w) && last.workers[w].Idle? && (look == at ==> Alone(es, w))
    ensures SameStores(last, Site.ProcessedOver(site, s.workers[w].sig, at, look, refill, ttl), look)
  {
    var sig, c, doc, item := s.workers[w].sig, s.workers[w].sig.component, |site.docs|, |site.items|;
    var claimed := site.keys[c := Site.Key(Pending(doc), at + ttl)];
    var created := site.(docs := site.docs + [sig], items := site.items + [NewItem(sig)], keys := claimed);
    var s2, e2 := WinUntilCreated(s, w, site, at, ttl);
    var s4, e4 := SwapOver(s2, w, created, at, look, ttl);
    LedThen(s, s2, s4, e2, e4, w);
    var swapped := created.(keys := Swapped(claimed, c, item, look, ttl));
    var e6;
    last, e6 := AnnounceAndRecord(s4, w, swapped, look);
    es := e2 + e4 + e6;
    LedThen(s, s4, last, e2 + e4, e6, w);
    WonInOneEvent(site, sig, at, look, refill, ttl);
  }

  /** The coarse step of a won claim, taken apart. */
  lemma WonInOneEvent(site: Site.Site, sig: Signal, at: int, look: int, refill: int, ttl: int)
    requires Site.Live(site.keys, sig.component, at).None? && ttl > 0 && at <= look
    ensures var c, doc, item := sig.component, |site.docs|, |site.items|;
      Site.ProcessedOver(site, sig, at, look, refill, ttl)
      == Site.Recorded(site.(docs := site.docs + [sig], items := site.items + [NewItem(sig)],
                             keys := Swapped(site.keys[c := Site.Key(Pending(doc), at + ttl)], c, item, look, ttl),
                             feed := site.feed[FeedEntry(item, c) := Score(sig.severity)]), sig, doc, item)
  {
  }

  /** A signal that is refused the claim, up to its lookup. */
  lemma LoseUntilLook(s: World, w: nat, site: Site.Site, at: int, look: int)
      returns (last: World, es: seq<Event>)
    requires w < |s.workers| && s.workers[w].Fetched? && s.workers[w].sig.component in s.dedup
    requires SameStores(s, site, at) && at <= look
    ensures Led(s, last, es, w) && (look == at ==> Alone(es, w))
    ensures last.workers[w] == Lost(s.workers[w].sig, |site.docs|)
    ensures SameStores(last, site.(docs := site.docs + [s.workers[w].sig]), look)
  {
    var s1, e1 := InsertAndClaim(s, w);
    var e2;
    last, e2 := Expire(s1, site.(docs := site.docs + [s.workers[w].sig]), at, look);
    es := e1 + e2;
    LedThen(s, s1, last, e1, e2, w);
  }

  /** It finds an id: a later signal of the window. */
  lemma AttachOver(s: World, w: nat, site: Site.Site, doc: nat, look: int)
      returns (last: World, es: seq<Event>)
    requires w < |s.workers| && s.workers[w].Lost? && s.workers[w].sig.component in s.dedup
    requires s.workers[w].doc == doc && s.dedup[s.workers[w].sig.component].Claimed? && SameStores(s, site, look)
    ensures Led(s, last, es, w) && last.workers[w].Idle? && Alone(es, w)
    ensures var sig, item := s.workers[w].sig, s.dedup[s.workers[w].sig.component].item;
      SameStores(last, Site.Recorded(site.(items := Incremented(site.items, item)), sig, doc, item), look)
  {
    var s1, e1 := LookUpAndAttach(s, w);
    var e2;
    last, e2 := LinkAndMeter(s1, w);
    es := e1 + e2;
    LedThen(s, s1, last, e1, e2, w);
  }

  /** It finds nothing: a row by the fallback, and a key for it at `refill`. */
  lemma FallBackOver(s: World, w: nat, site: Site.Site, doc: nat, look: int, refill: int, ttl: int)
      returns (last: World, es: seq<Event>)
    requires w < |s.workers| && s.workers[w].Lost? && s.workers[w].sig.component !in s.dedup
    requires s.workers[w].doc == doc && SameStores(s, site, look) && look <= refill && ttl > 0
    ensures Led(s, last, es, w) && last.workers[w].Idle? && (refill == look ==> Alone(es, w))
    ensures var sig, item := s.workers[w].sig, |site.items|;
      SameStores(last, Site.Recorded(site.(items := site.items + [NewItem(sig)],
        keys := site.keys[sig.component := Site.Key(Claimed(item), refill + ttl)]), sig, doc, item), refill)
  {
    var sig := s.workers[w].sig;
    var s1, e1 := FallBack(s, w);
    var s2, e2 := Expire(s1, site.(items := site.items + [NewItem(sig)]), look, refill);
    LedThen(s, s1, s2, e1, e2, w);
    var s3, e3 := Refill(s2, w);
    LedThen(s, s2, s3, e1 + e2, e3, w);
    var e4;
    last, e4 := LinkAndMeter(s3, w);
    es := e1 + e2 + e3 + e4;
    LedThen(s, s3, last, e1 + e2 + e3, e4, w);
  }

  /** A signal that was refused the claim. */
  lemma LoseOver(s: World, w: nat, site: Site.Site, at: int, look: int, refill: int, ttl: int)
      returns (last: World, es: seq<Event>)
    requires w < |s.workers| && s.workers[w].Fetched? && s.workers[w].sig.component in s.dedup
    requires SameStores(s, site, at) && ttl > 0 && at <= look <= refill
    ensures Led(s, last, es, w) && last.workers[w].Idle? && (refill == at ==> Alone(es, w))
    ensures var done := if Site.Live(site.keys, s.workers[w].sig.component, look).Some? then look else refill;
      SameStores(last, Site.ProcessedOver(site, s.workers[w].sig, at, look, refill, ttl), done)
  {
    var sig, doc := s.workers[w].sig, |site.docs|;
    var s2, e2 := LoseUntilLook(s, w, site, at, look);
    var e3;
    if sig.component !in s2.dedup {
      last, e3 := FallBackOver(s2, w, site.(docs := site.docs + [sig]), doc, look, refill, ttl);
    } else if s2.dedup[sig.component].Claimed? {
      last, e3 := AttachOver(s2, w, site.(docs := site.docs + [sig]), doc, look);
    } else {
      last, e3 := LookUpAndRaise(s2, w);
    }
    es := e2 + e3;
    LedThen(s, s2, last, e2, e3, w);
  }

  /** A worker that fetched a signal and is left alone, while keys expire, ends idle with
      the stores exactly as the coarse `_process_one` leaves them. */
  lemma TimedRunIsOneEvent(s: World, w: nat, site: Site.Site, at: int, look: int, refill: int, ttl: int)
      returns (last: World, es: seq<Event>)
    requires w < |s.workers| && s.workers[w].Fetched? && ttl > 0 && SameStores(s, site, at) && at <= look <= refill
    ensures Led(s, last, es, w) && last.workers[w].Idle? && (refill == at ==> Alone(es, w))
    ensures SameStores(last, Site.ProcessedOver(site, s.workers[w].sig, at, look, refill, ttl), refill)
  {
    var sig := s.workers[w].sig;
    var after := Site.ProcessedOver(site, sig, at, look, refill, ttl);
    var s1, e1, done := s, [], look;
    if sig.component !in s.dedup {
      s1, e1 := WinOver(s, w, site, at, look, refill, ttl);
    } else {
      s1, e1 := LoseOver(s, w, site, at, look, refill, ttl);
      done := if Site.Live(site.keys, sig.component, look).Some? then look else refill;
    }
    var e2;
    last, e2 := Expire(s1, after, done, refill);
    es := e1 + e2;
    LedThen(s, s1, last, e1, e2, w);
  }

  /** If no time passes, that is the atomic `_process_one`, by steps of that worker only. */
  lemma SoloRunIsAtomic(s: World, w: nat, site: Site.Site, now: int, ttl: int) returns (last: World, es: seq<Event>)
    requires w < |s.workers| && s.workers[w].Fetched? && ttl > 0 && SameStores(s, site, now)
    ensures last == Run(s, es) && Alone(es, w) && |last.workers| == |s.workers| && last.workers[w].Idle?
    ensures SameStores(last, Site.Processed(site, s.workers[w].sig, now, ttl), now)
  {
    last, es := TimedRunIsOneEvent(s, w, site, now, now, now, ttl);
    Site.AtomicProcess(site, s.workers[w].sig, now, ttl);
  }

  // ---------- A request nobody interrupts ----------

  /** Begin, decide and write without a pause is the coarse transition, up to its Redis cleanup. */
  lemma SoloRequestIsAtomic(
      b: Handlers.Board, h: nat, i: nat, target: WorkItemState, now: int, site: Site.Site, cleanup: Site.Cleanup)
    requires h < |b.handlers| && b.handlers[h].Free? && |b.history| == |b.items|
    requires b.items == site.items && b.rcas == site.rcas
    ensures var after := Handlers.Next(Handlers.Next(Handlers.Next(b,
              Handlers.Begin(h, i, target)), Handlers.Decide(h, now)), Handlers.Write(h));
      && after.items == Site.Transited(site, i, target, now, cleanup).items && |after.history| == |after.items|
      && after.rcas == site.rcas && after.handlers == b.handlers
  {
    var begun := Handlers.Next(b, Handlers.Begin(h, i, target));
    var decided := Handlers.Next(begun, Handlers.Decide(h, now));
    var after := Handlers.Next(decided, Handlers.Write(h));
    if i < |b.items| {
      assert begun.handlers[h] == Handlers.HasRow(i, target, b.items[i]);
    }
    assert after.handlers == b.handlers;
  }
}
