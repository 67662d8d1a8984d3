/** Every coarse run is a run of the fine model: what the coarse model proves about work
    items is about real interleavings, not about another system. */
module CoarseIsFine {
  import opened Types
  import opened LiveFeed
  import opened Debouncer
  import opened SoloWorker
  import opened Granularity
  import Site
  import Handlers
  import States
  import SiteWindows
  import Windows

  /** Worker 0 is idle and the empty queue takes signals. */
  ghost predicate Ready(s: World) {
    s.workers != [] && s.workers[0].Idle? && s.ingest.queue == [] && s.ingest.threshold > 0.0
  }

  lemma {:induction false} DropEntries(s: World, gone: set<FeedEntry>) returns (last: World, fs: seq<Event>)
    ensures last == Run(s, fs) && last == s.(feed := s.feed - gone, notices := last.notices)
    decreases |gone|
  {
    if gone == {} {
      last, fs := s, [];
      assert s.feed - gone == s.feed;
    } else {
      var e :| e in gone;
      var rest;
      last, rest := DropEntries(Next(s, DropEntry(e)), gone - {e});
      fs := [DropEntry(e)] + rest;
      RunOne(s, DropEntry(e));
      RunAppend(s, [DropEntry(e)], rest);
      assert s.feed - {e} - (gone - {e}) == s.feed - gone;
    }
  }

  /** A signal is offered, fetched, and processed by worker 0 alone. */
  lemma ProcessAlone(s: World, site: Site.Site, e: Site.Stamped, ttl: int) returns (last: World, fs: seq<Event>)
    requires Ready(s) && SameStores(s, site, e.at) && ttl > 0
    requires e.action.Process? && e.at <= e.action.look <= e.action.refill
    ensures last == Run(s, fs) && Ready(last) && SameStores(last, Site.Handled(site, e, ttl), e.action.refill)
  {
    var s2, f2 := Receive(s, 0, e.action.sig);
    var solo;
    last, solo := TimedRunIsOneEvent(s2, 0, site, e.at, e.action.look, e.action.refill, ttl);
    fs := f2 + solo;
    RunAppend(s, f2, solo);
  }

  lemma PruneFeed(s: World, site: Site.Site, i: nat, now: int) returns (last: World, fs: seq<Event>)
    requires Ready(s) && SameStores(s, site, now)
    ensures last == Run(s, fs) && Ready(last)
    ensures SameStores(last, site.(feed := WithoutItem(site.feed, i)), now)
  {
    last, fs := DropEntries(s, set f | f in s.feed && f.item == i);
    assert last.feed == WithoutItem(s.feed, i);
  }

  lemma ClearKey(s: World, site: Site.Site, c: ComponentId, now: int) returns (last: World, fs: seq<Event>)
    requires Ready(s) && SameStores(s, site, now)
    ensures last == Run(s, fs) && Ready(last) && SameStores(last, site.(keys := site.keys - {c}), now)
  {
    last, fs := RemoveKeys(s, {c} * s.dedup.Keys);
    assert last.dedup == s.dedup - {c};
  }

  /** After a close the feed is pruned, and the key of the row's component may be cleared. */
  lemma CleanUp(s: World, site: Site.Site, i: nat, c: ComponentId, cleanup: Site.Cleanup, now: int)
      returns (last: World, fs: seq<Event>)
    requires Ready(s) && SameStores(s, site, now)
    ensures last == Run(s, fs) && Ready(last) && SameStores(last, Site.Cleaned(site, i, c, cleanup), now)
  {
    if cleanup.Skipped? {
      last, fs := s, [];
    } else {
      last, fs := PruneFeed(s, site, i, now);
      if cleanup.Done? {
        var f1, s1 := fs, last;
        var f2;
        last, f2 := ClearKey(s1, site.(feed := WithoutItem(site.feed, i)), c, now);
        RunAppend(s, f1, f2);
        fs := f1 + f2;
      }
    }
  }

  /** An accepted transition updates its row; closing it is followed by the cleanup. */
  lemma TransitAlone(s: World, site: Site.Site, e: Site.Stamped, ttl: int) returns (last: World, fs: seq<Event>)
    requires Ready(s) && SameStores(s, site, e.at) && Site.Accepted(site, e)
    ensures last == Run(s, fs) && Ready(last) && SameStores(last, Site.Handled(site, e, ttl), e.at)
  {
    var i := e.action.item;
    var r := Site.Decision(site, i, e.action.target, e.at).result;
    var moved := site.(items := site.items[i := States.Updated(site.items[i], r)]);
    last, fs := Next(s, Update(i, r)), [Update(i, r)];
    RunOne(s, Update(i, r));
    if r.newState == Closed {
      var s1 := last;
      var f2;
      last, f2 := CleanUp(s1, moved, i, site.items[i].component, e.action.cleanup, e.at);
      RunAppend(s, fs, f2);
      fs := fs + f2;
    }
  }

  lemma HandleAlone(s: World, site: Site.Site, e: Site.Stamped, ttl: int) returns (last: World, fs: seq<Event>)
    requires Ready(s) && SameStores(s, site, e.at) && ttl > 0
    requires e.action.Process? ==> e.at <= e.action.look <= e.action.refill
    ensures last == Run(s, fs) && Ready(last) && SameStores(last, Site.Handled(site, e, ttl), Site.Finished(e))
  {
    last, fs := s, [];
    if e.action.Process? {
      last, fs := ProcessAlone(s, site, e, ttl);
    } else if Site.Accepted(site, e) {
      last, fs := TransitAlone(s, site, e, ttl);
    }
  }

  lemma {:induction false} Simulate(s: World, site: Site.Site, now: int, es: seq<Site.Stamped>, ttl: int, to: int)
      returns (last: World, fs: seq<Event>)
    requires Ready(s) && SameStores(s, site, now) && ttl > 0 && now <= to && SiteWindows.Chronological(es, now, to)
    ensures last == Run(s, fs) && SameStores(last, Site.Run(site, es, ttl), to)
    decreases |es|
  {
    if es == [] {
      last, fs := Expire(s, site, now, to);
    } else {
      var e := es[0];
      SiteWindows.ChronologicalTail(es, now, to);
      var s1, f1 := Expire(s, site, now, e.at);
      var s2, f2 := HandleAlone(s1, site, e, ttl);
      var f3;
      last, f3 := Simulate(s2, Site.Handled(site, e, ttl), Site.Finished(e), es[1..], ttl, to);
      fs := f1 + f2 + f3;
      RunAppend(s, f1, f2);
      RunAppend(s, f1 + f2, f3);
    }
  }

  /** For every coarse run of events one after the other, and for any number of workers and
      any queue that accepts at all, there is a fine run that ends with the same rows,
      links, metrics and feed, and the same live dedup keys. */
  lemma CoarseRunsAreFineRuns(
      es: seq<Site.Stamped>, ttl: int, from: int, to: int, n: nat, maxsize: nat, threshold: real)
    requires ttl > 0 && from <= to && SiteWindows.Chronological(es, from, to) && n > 0 && threshold > 0.0
    ensures exists fs :: SameStores(Run(Init(n, maxsize, threshold), fs), Site.Run(Site.EMPTY, es, ttl), to)
  {
    var start := Init(n, maxsize, threshold);
    var last, fs := Simulate(start, Site.EMPTY, from, es, ttl, to);
    assert SameStores(Run(start, fs), Site.Run(Site.EMPTY, es, ttl), to);
  }

  // ---------- Rows and RCAs, by requests that read, decide and write ----------

  /** Handler 0 is free, and the tables hold the same rows and RCAs. */
  ghost predicate SameTables(b: Handlers.Board, site: Site.Site) {
    && b.handlers != [] && b.handlers[0].Free? && |b.history| == |b.items|
    && b.items == site.items && b.rcas == site.rcas
  }

  /** A signal: a worker inserts a row, or counts it in one, or does neither. */
  lemma ProcessOnBoard(b: Handlers.Board, site: Site.Site, e: Site.Stamped, ttl: int)
      returns (last: Handlers.Board, hs: seq<Handlers.Event>)
    requires SameTables(b, site) && e.action.Process?
    ensures last == Handlers.Run(b, hs) && SameTables(last, Site.Handled(site, e, ttl))
  {
    var sig, look := e.action.sig, e.action.look;
    var c := sig.component;
    Site.ProcessShape(site, sig, e.at, look, e.action.refill, ttl);
    assert Site.Handled(site, e, ttl).rcas == site.rcas;
    if Site.Live(site.keys, c, e.at).None? || Site.Live(site.keys, c, look).None? {
      hs := [Handlers.Insert(sig)];
    } else if site.keys[c].value.Claimed? {
      hs := [Handlers.Count(site.keys[c].value.item)];
    } else {
      hs := [];
    }
    last := if hs == [] then b else Handlers.Next(b, hs[0]);
    if hs != [] {
      Handlers.RunOne(b, hs[0]);
    }
  }

  /** A transition or an RCA: its request goes through all its steps. */
  lemma RequestOnBoard(b: Handlers.Board, site: Site.Site, e: Site.Stamped, ttl: int)
      returns (last: Handlers.Board, hs: seq<Handlers.Event>)
    requires SameTables(b, site) && !e.action.Process?
    ensures last == Handlers.Run(b, hs) && SameTables(last, Site.Handled(site, e, ttl))
  {
    if e.action.Transit? {
      var i, target := e.action.item, e.action.target;
      SoloRequestIsAtomic(b, 0, i, target, e.at, site, e.action.cleanup);
      Handlers.RunThree(b, Handlers.Begin(0, i, target), Handlers.Decide(0, e.at), Handlers.Write(0));
      hs := [Handlers.Begin(0, i, target), Handlers.Decide(0, e.at), Handlers.Write(0)];
    } else {
      var i, body := e.action.item, e.action.body;
      Handlers.RunTwo(b, Handlers.BeginRca(0, i, body), Handlers.Store(0));
      hs := [Handlers.BeginRca(0, i, body), Handlers.Store(0)];
    }
    last := Handlers.Run(b, hs);
  }

  lemma {:induction false} SimulateOnBoard(b: Handlers.Board, site: Site.Site, es: seq<Site.Stamped>, ttl: int)
      returns (last: Handlers.Board, hs: seq<Handlers.Event>)
    requires SameTables(b, site)
    ensures last == Handlers.Run(b, hs) && SameTables(last, Site.Run(site, es, ttl))
    decreases |es|
  {
    if es == [] {
      last, hs := b, [];
    } else {
      var b1, h1;
      if es[0].action.Process? {
        b1, h1 := ProcessOnBoard(b, site, es[0], ttl);
      } else {
        b1, h1 := RequestOnBoard(b, site, es[0], ttl);
      }
      var h2;
      last, h2 := SimulateOnBoard(b1, Site.Handled(site, es[0], ttl), es[1..], ttl);
      hs := h1 + h2;
      Handlers.RunAppend(b, h1, h2);
    }
  }

  /** For every coarse run, and any number of request handlers, there is a run of the fine
      request machine that ends with the same rows and RCAs. */
  lemma CoarseRunsAreRequestRuns(es: seq<Site.Stamped>, ttl: int, n: nat)
    requires n > 0
    ensures exists hs ::
      var b := Handlers.Run(Handlers.Init(n), hs);
      b.items == Site.Run(Site.EMPTY, es, ttl).items && b.rcas == Site.Run(Site.EMPTY, es, ttl).rcas
  {
    var last, hs := SimulateOnBoard(Handlers.Init(n), Site.EMPTY, es, ttl);
    assert last == Handlers.Run(Handlers.Init(n), hs);
  }

  // ---------- Windows counted as rows ----------

  function Sizes(gs: seq<Windows.Group>): nat {
    if gs == [] then 0 else Sizes(gs[..|gs| - 1]) + gs[|gs| - 1].size
  }

  lemma SizesAppend(gs: seq<Windows.Group>, g: Windows.Group)
    ensures Sizes(gs + [g]) == Sizes(gs) + g.size
  {
    assert (gs + [g])[..|gs|] == gs;
  }

  /** The windows of a component are its rows, and their sizes are the signals these count. */
  lemma {:induction false} WindowsAreRows(items: seq<WorkItem>, c: ComponentId)
    ensures |SiteWindows.Summaries(items, c)| == Debouncer.Rows(items, c)
    ensures Sizes(SiteWindows.Summaries(items, c)) == Counted(items, c)
  {
    if items != [] {
      var n := |items| - 1;
      WindowsAreRows(items[..n], c);
      if items[n].component == c {
        SizesAppend(SiteWindows.Summaries(items[..n], c), SiteWindows.SummaryOf(items[n]));
      } else {
        assert SiteWindows.Summaries(items, c) == SiteWindows.Summaries(items[..n], c);
      }
    }
  }
}
