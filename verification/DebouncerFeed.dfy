/** What the live feed contains in every interleaving: exactly the work items that were
    announced and not pruned, and never one that the fallback created. */
module DebouncerFeed {
  import opened Types
  import opened Debouncer
  import opened DebouncerInvariants
  import opened DebouncerGuarantees

  /** Every row was pushed once, or came from the fallback, or is about to be pushed, or
      its run died before the push. */
  ghost predicate AnnouncedOk(s: World, i: nat) {
    At(s.notices.pushes, i) + At(s.notices.fallbacks, i) + Count(s.workers, IsOpening(i)) + At(s.notices.unannounced, i)
    == if i < |s.items| then 1 else 0
  }

  /** The member is the entry of a row that was pushed, and was not pruned. */
  predicate Shown(s: World, e: FeedEntry) {
    IsItemOf(s.items, e.item, e.component) && At(s.notices.pushes, e.item) > 0 && At(s.notices.prunes, e) == 0
  }

  /** The feed's members are those; only what was pushed was ever pruned. */
  ghost predicate MemberOk(s: World, e: FeedEntry) {
    && (e in s.feed <==> Shown(s, e))
    && (At(s.notices.prunes, e) > 0 ==> At(s.notices.pushes, e.item) > 0)
  }

  /** A row that was not announced had a failure or a missing key behind it. */
  ghost predicate CauseOk(s: World, i: nat) {
    && (At(s.notices.unannounced, i) > 0 ==> i < |s.items| && At(s.failures.all, s.items[i].component) > 0)
    && (At(s.notices.fallbacks, i) > 0 ==> i < |s.items| && At(s.claims.misses, s.items[i].component) > 0)
  }

  ghost predicate MissersOk(s: World) {
    forall w :: 0 <= w < |s.workers| && s.workers[w].Missed? ==> At(s.claims.misses, s.workers[w].sig.component) > 0
  }

  /** What one step does to the notices of row i. */
  lemma StepNotices(s: World, k: Worker, i: nat)
    ensures var after := NoticesAfter(s, k);
      && At(after.pushes, i) == At(s.notices.pushes, i) + (if k.Announcing? then Ask(IsOpening(i), k) else 0)
      && At(after.fallbacks, i) == At(s.notices.fallbacks, i) + (if k.Missed? && i == |s.items| then 1 else 0)
      && after.unannounced == s.notices.unannounced && after.prunes == s.notices.prunes
    ensures Ask(IsOpening(i), Resumed(s, k))
      == (if k.Created? then Ask(IsOpening(i), k) else 0) + (if k.Won? && i == |s.items| then 1 else 0)
    ensures |ItemsAfter(s.items, CallOf(k))| == |s.items| + (if k.Won? || k.Missed? then 1 else 0)
  {
  }

  lemma AdvanceKeepsAnnounced(s: World, w: nat, i: nat)
    requires AnnouncedOk(s, i) && w < |s.workers|
    ensures AnnouncedOk(Advanced(s, w), i)
  {
    var k := s.workers[w];
    CountMove(s.workers, w, Resumed(s, k), IsOpening(i));
    StepNotices(s, k, i);
  }

  lemma FailKeepsAnnounced(s: World, w: nat, i: nat)
    requires AnnouncedOk(s, i) && w < |s.workers| && CanFail(s.workers[w])
    ensures AnnouncedOk(Failed(s, w), i)
  {
    CountMove(s.workers, w, Idle, IsOpening(i));
  }

  lemma EventKeepsAnnounced(s: World, e: Event, i: nat)
    requires AnnouncedOk(s, i)
    ensures AnnouncedOk(Next(s, e), i)
  {
    match e {
      case Advance(w) => if w < |s.workers| { AdvanceKeepsAnnounced(s, w, i); }
      case Fail(w) => if w < |s.workers| && CanFail(s.workers[w]) { FailKeepsAnnounced(s, w, i); }
      case _ =>
    }
  }

  /** A push finds its row unpushed, so its member was never pruned before. */
  lemma PushKeepsMember(s: World, w: nat, e: FeedEntry)
    requires RefsOk(s) && AnnouncedOk(s, e.item) && MemberOk(s, e) && w < |s.workers| && s.workers[w].Announcing?
    ensures MemberOk(Advanced(s, w), e)
  {
    var k := s.workers[w];
    assert WorkerOk(s.items, k);
    StepNotices(s, k, e.item);
    CountBounds(s.workers, IsOpening(e.item));
    assert Advanced(s, w).feed == s.feed[FeedEntry(k.item, k.sig.component) := Score(k.sig.severity)];
  }

  lemma StepKeepsMember(s: World, w: nat, e: FeedEntry)
    requires RefsOk(s) && AnnouncedOk(s, e.item) && MemberOk(s, e) && w < |s.workers| && !s.workers[w].Announcing?
    ensures MemberOk(Advanced(s, w), e)
  {
    var k := s.workers[w];
    AdvanceKeepsRefs(s, w);
    StepNotices(s, k, e.item);
    assert Advanced(s, w).feed == s.feed;
  }

  lemma FailKeepsMember(s: World, w: nat, e: FeedEntry)
    requires MemberOk(s, e) && w < |s.workers| && CanFail(s.workers[w])
    ensures MemberOk(Failed(s, w), e)
  {
    var after := Failed(s, w);
    assert after.notices.pushes == s.notices.pushes && after.notices.prunes == s.notices.prunes;
  }

  lemma PruneKeepsMember(s: World, gone: FeedEntry, e: FeedEntry)
    requires MemberOk(s, e) && gone in s.feed
    ensures MemberOk(Pruned(s, gone), e)
  {
  }

  lemma EventKeepsMember(s: World, ev: Event, e: FeedEntry)
    requires RefsOk(s) && AnnouncedOk(s, e.item) && MemberOk(s, e)
    ensures MemberOk(Next(s, ev), e)
  {
    match ev {
      case Advance(w) =>
        if w < |s.workers| {
          if s.workers[w].Announcing? {
            PushKeepsMember(s, w, e);
          } else {
            StepKeepsMember(s, w, e);
          }
        }
      case Fail(w) => if w < |s.workers| && CanFail(s.workers[w]) { FailKeepsMember(s, w, e); }
      case DropEntry(gone) => if gone in s.feed { PruneKeepsMember(s, gone, e); }
      case _ =>
    }
  }

  lemma StepMissers(s: World, k: Worker)
    ensures Resumed(s, k).Missed? ==> At(ClaimsAfter(s, k).misses, Resumed(s, k).sig.component) > 0
    ensures forall c :: At(s.claims.misses, c) <= At(ClaimsAfter(s, k).misses, c)
  {
  }

  lemma EventKeepsMissers(s: World, e: Event)
    requires MissersOk(s)
    ensures MissersOk(Next(s, e))
  {
    if e.Advance? && e.w < |s.workers| {
      StepMissers(s, s.workers[e.w]);
    }
  }

  lemma AdvanceKeepsCause(s: World, w: nat, i: nat)
    requires RefsOk(s) && MissersOk(s) && CauseOk(s, i) && w < |s.workers|
    ensures CauseOk(Advanced(s, w), i)
  {
    var k := s.workers[w];
    AdvanceKeepsRefs(s, w);
    StepNotices(s, k, i);
    StepMissers(s, k);
    if k.Missed? {
      assert ItemsAfter(s.items, CallOf(k))[|s.items|].component == k.sig.component;
    }
  }

  lemma FailKeepsCause(s: World, w: nat, i: nat)
    requires RefsOk(s) && CauseOk(s, i) && w < |s.workers| && CanFail(s.workers[w])
    ensures CauseOk(Failed(s, w), i)
  {
    assert WorkerOk(s.items, s.workers[w]);
  }

  lemma EventKeepsCause(s: World, e: Event, i: nat)
    requires RefsOk(s) && MissersOk(s) && CauseOk(s, i)
    ensures CauseOk(Next(s, e), i)
  {
    match e {
      case Advance(w) => if w < |s.workers| { AdvanceKeepsCause(s, w, i); }
      case Fail(w) => if w < |s.workers| && CanFail(s.workers[w]) { FailKeepsCause(s, w, i); }
      case _ =>
    }
  }

  ghost predicate FeedKnown(s: World) {
    && MissersOk(s)
    && (forall i: nat :: AnnouncedOk(s, i) && CauseOk(s, i))
    && (forall e :: MemberOk(s, e))
  }

  lemma EventKeepsFeedKnown(s: World, ev: Event)
    requires RefsOk(s) && FeedKnown(s)
    ensures FeedKnown(Next(s, ev))
  {
    EventKeepsMissers(s, ev);
    forall i: nat ensures AnnouncedOk(Next(s, ev), i) && CauseOk(Next(s, ev), i) {
      assert AnnouncedOk(s, i) && CauseOk(s, i);
      EventKeepsAnnounced(s, ev, i);
      EventKeepsCause(s, ev, i);
    }
    forall e ensures MemberOk(Next(s, ev), e) {
      assert MemberOk(s, e) && AnnouncedOk(s, e.item);
      EventKeepsMember(s, ev, e);
    }
  }

  lemma {:induction false} RunKeepsFeedKnown(s: World, es: seq<Event>)
    requires Inv(s) && FeedKnown(s)
    ensures Inv(Run(s, es)) && FeedKnown(Run(s, es))
    decreases |es|
  {
    if es != [] {
      EventKeepsFeedKnown(s, es[0]);
      EventKeepsInv(s, es[0]);
      RunKeepsFeedKnown(Next(s, es[0]), es[1..]);
    }
  }

  lemma InitFeedKnown(n: nat, maxsize: nat, threshold: real)
    ensures FeedKnown(Init(n, maxsize, threshold))
  {
    var s := Init(n, maxsize, threshold);
    forall i: nat ensures AnnouncedOk(s, i) && CauseOk(s, i) {
      CountBounds(s.workers, IsOpening(i));
    }
    assert forall e :: MemberOk(s, e);
  }

  /** In every run: each row was announced once, or came from the fallback, or its claimer
      is about to announce it, or its claimer's run died before that; and the feed lists
      exactly the announced rows whose member was not pruned, each with its row's score. */
  lemma FeedIsAnnouncedRows(n: nat, maxsize: nat, threshold: real, es: seq<Event>)
    ensures var s := Run(Init(n, maxsize, threshold), es);
      && (forall i: nat :: i < |s.items| ==>
           At(s.notices.pushes, i) + At(s.notices.fallbacks, i) + Count(s.workers, IsOpening(i))
             + At(s.notices.unannounced, i) == 1)
      && (forall e :: e in s.feed <==> Shown(s, e))
      && (forall e :: e in s.feed ==> s.feed[e] == Score(s.items[e.item].severity))
  {
    InitInv(n, maxsize, threshold);
    InitFeedKnown(n, maxsize, threshold);
    RunKeepsFeedKnown(Init(n, maxsize, threshold), es);
    var s := Run(Init(n, maxsize, threshold), es);
    forall i: nat | i < |s.items|
      ensures At(s.notices.pushes, i) + At(s.notices.fallbacks, i) + Count(s.workers, IsOpening(i))
        + At(s.notices.unannounced, i) == 1
    {
      assert AnnouncedOk(s, i);
    }
    forall e ensures e in s.feed <==> Shown(s, e) {
      assert MemberOk(s, e);
    }
  }

  /** A complete run without failures for c: a row of c that was never pruned is missing in
      the feed exactly if the fallback created it; and if c's key was never removed, no row
      of c is missing. */
  lemma OnlyFallbacksAreMissing(n: nat, maxsize: nat, threshold: real, es: seq<Event>, c: ComponentId, i: nat)
    ensures var s := Run(Init(n, maxsize, threshold), es);
      Complete(s) && At(s.failures.all, c) == 0 && IsItemOf(s.items, i, c)
      && At(s.notices.prunes, FeedEntry(i, c)) == 0 ==>
        && (FeedEntry(i, c) !in s.feed <==> At(s.notices.fallbacks, i) > 0)
        && (At(s.claims.removals, c) == 0 ==> FeedEntry(i, c) in s.feed)
  {
    InitInv(n, maxsize, threshold);
    InitFeedKnown(n, maxsize, threshold);
    RunKeepsFeedKnown(Init(n, maxsize, threshold), es);
    var s := Run(Init(n, maxsize, threshold), es);
    assert AnnouncedOk(s, i) && CauseOk(s, i) && MemberOk(s, FeedEntry(i, c)) && ClaimsOk(s, c);
    if Complete(s) {
      CompleteCounts(s, IsOpening(i));
    }
  }
}
