/** When a signal is lost to a placeholder: a loser that looks the key up while the winner
    has not swapped its work item's id in, or never will because its run died, raises; and
    the signal is counted nowhere. */
module DebouncerPlaceholders {
  import opened Types
  import opened Debouncer
  import opened DebouncerInvariants

  // ---------- Who stands behind a placeholder ----------

  /** Worker w holds c's claim and its placeholder is still in the key. */
  predicate Holds(s: World, w: nat, c: ComponentId) {
    w < |s.workers| && Claiming(s.workers[w], c) && c in s.dedup && s.dedup[c] == Pending(s.workers[w].doc)
  }

  predicate HasPlaceholder(s: World, c: ComponentId) {
    c in s.dedup && s.dedup[c].Pending?
  }

  /** Behind a placeholder stands its claimer, or a claim was abandoned. */
  ghost predicate PendingOk(s: World, c: ComponentId) {
    HasPlaceholder(s, c) ==> At(s.failures.abandoned, c) > 0 || exists w: nat :: Holds(s, w, c)
  }

  /** Claims held and claims abandoned were won, and only a miss falls back. */
  ghost predicate ClaimersOk(s: World, c: ComponentId) {
    && Count(s.workers, IsClaiming(c)) + At(s.failures.abandoned, c) <= At(s.claims.wins, c)
    && Count(s.workers, IsFalling(c)) <= At(s.claims.misses, c)
    && At(s.failures.abandoned, c) <= At(s.failures.all, c)
  }

  /** While the key was never removed, the placeholder of a claim stays in it until the
      claimer swaps it, and the one of an abandoned claim stays for good. */
  ghost predicate HoldersOk(s: World, c: ComponentId) {
    At(s.claims.removals, c) == 0 ==>
      && (forall w: nat :: w < |s.workers| && Claiming(s.workers[w], c) ==> Holds(s, w, c))
      && (At(s.failures.abandoned, c) > 0 ==> HasPlaceholder(s, c))
  }

  lemma AdvanceKeepsPending(s: World, w: nat, c: ComponentId)
    requires PendingOk(s, c) && w < |s.workers|
    ensures PendingOk(Advanced(s, w), c)
  {
    var after, k := Advanced(s, w), s.workers[w];
    if HasPlaceholder(after, c) && At(s.failures.abandoned, c) == 0 {
      if k.Stored? && k.sig.component == c && c !in s.dedup {
        assert Holds(after, w, c);
      } else {
        assert c in s.dedup && s.dedup[c] == after.dedup[c];
        var v: nat :| Holds(s, v, c);
        assert Holds(after, v, c);
      }
    }
  }

  lemma FailKeepsPending(s: World, w: nat, c: ComponentId)
    requires PendingOk(s, c) && w < |s.workers| && CanFail(s.workers[w])
    ensures PendingOk(Failed(s, w), c)
  {
    var after := Failed(s, w);
    if HasPlaceholder(after, c) && At(after.failures.abandoned, c) == 0 {
      var v: nat :| Holds(s, v, c);
      assert v != w;
      assert Holds(after, v, c);
    }
  }

  lemma EventKeepsPending(s: World, e: Event, c: ComponentId)
    requires PendingOk(s, c)
    ensures PendingOk(Next(s, e), c)
  {
    match e {
      case Advance(w) => if w < |s.workers| { AdvanceKeepsPending(s, w, c); }
      case Fail(w) => if w < |s.workers| && CanFail(s.workers[w]) { FailKeepsPending(s, w, c); }
      case _ =>
        var after := Next(s, e);
        if HasPlaceholder(after, c) && At(after.failures.abandoned, c) == 0 {
          var v: nat :| Holds(s, v, c);
          assert Holds(after, v, c);
        }
    }
  }

  lemma StepHolders(s: World, k: Worker, c: ComponentId)
    ensures Ask(IsClaiming(c), Resumed(s, k)) <= Ask(IsClaiming(c), k) + StepWins(s, k, c)
    ensures Ask(IsFalling(c), Resumed(s, k)) <= Ask(IsFalling(c), k) + StepMisses(s, k, c)
  {
  }

  lemma AdvanceKeepsClaimers(s: World, w: nat, c: ComponentId)
    requires ClaimersOk(s, c) && w < |s.workers|
    ensures ClaimersOk(Advanced(s, w), c)
  {
    var k := s.workers[w];
    CountMove(s.workers, w, Resumed(s, k), IsClaiming(c));
    CountMove(s.workers, w, Resumed(s, k), IsFalling(c));
    StepHolders(s, k, c);
    StepClaims(s, k, c);
  }

  lemma FailKeepsClaimers(s: World, w: nat, c: ComponentId)
    requires ClaimersOk(s, c) && w < |s.workers| && CanFail(s.workers[w])
    ensures ClaimersOk(Failed(s, w), c)
  {
    CountMove(s.workers, w, Idle, IsClaiming(c));
    CountMove(s.workers, w, Idle, IsFalling(c));
  }

  lemma EventKeepsClaimers(s: World, e: Event, c: ComponentId)
    requires ClaimersOk(s, c)
    ensures ClaimersOk(Next(s, e), c)
  {
    match e {
      case Advance(w) => if w < |s.workers| { AdvanceKeepsClaimers(s, w, c); }
      case Fail(w) => if w < |s.workers| && CanFail(s.workers[w]) { FailKeepsClaimers(s, w, c); }
      case _ =>
    }
  }

  /** Without removals there is one claim at most, held or abandoned, and no fallback. */
  lemma OneClaim(s: World, v: nat, w: nat, c: ComponentId)
    requires ClaimersOk(s, c) && BoundOk(s, c) && At(s.claims.removals, c) == 0
    requires v < |s.workers| && w < |s.workers|
    ensures Claiming(s.workers[v], c) ==> At(s.failures.abandoned, c) == 0 && c in s.dedup
    ensures Claiming(s.workers[v], c) && Claiming(s.workers[w], c) ==> v == w
    ensures !(s.workers[w].Refilling? && s.workers[w].sig.component == c)
    ensures At(s.failures.abandoned, c) > 0 ==> c in s.dedup
  {
    CountBounds(s.workers, IsClaiming(c));
    CountBounds(s.workers, IsFalling(c));
    assert Claiming(s.workers[v], c) ==> Answers(IsClaiming(c), s.workers[v]);
    assert !Answers(IsFalling(c), s.workers[w]);
    if Claiming(s.workers[v], c) && Claiming(s.workers[w], c) && v != w {
      CountTwo(s.workers, IsClaiming(c), if v < w then v else w, if v < w then w else v);
    }
  }

  lemma AdvanceKeepsHolders(s: World, w: nat, c: ComponentId)
    requires HoldersOk(s, c) && ClaimersOk(s, c) && BoundOk(s, c) && w < |s.workers|
    ensures HoldersOk(Advanced(s, w), c)
  {
    var after, k := Advanced(s, w), s.workers[w];
    if At(after.claims.removals, c) == 0 {
      OneClaim(s, w, w, c);
      forall v: nat | v < |s.workers| && Claiming(after.workers[v], c) ensures Holds(after, v, c) {
        if v != w || !k.Stored? {
          assert Claiming(s.workers[v], c) && Holds(s, v, c);
          OneClaim(s, v, w, c);
        }
      }
    }
  }

  lemma FailKeepsHolders(s: World, w: nat, c: ComponentId)
    requires HoldersOk(s, c) && w < |s.workers| && CanFail(s.workers[w])
    ensures HoldersOk(Failed(s, w), c)
  {
    var after := Failed(s, w);
    if At(s.claims.removals, c) == 0 {
      assert Claiming(s.workers[w], c) ==> Holds(s, w, c);
      forall v: nat | v < |s.workers| && Claiming(after.workers[v], c) ensures Holds(after, v, c) {
        assert Holds(s, v, c);
      }
    }
  }

  /** Events that are no worker's step leave the claimers alone, or remove a key. */
  lemma OutsideKeepsHolders(s: World, e: Event, c: ComponentId)
    requires HoldersOk(s, c) && !e.Advance? && !e.Fail?
    ensures HoldersOk(Next(s, e), c)
  {
    var after := Next(s, e);
    assert after.workers == s.workers;
    if At(after.claims.removals, c) == 0 {
      assert c in s.dedup ==> c in after.dedup && after.dedup[c] == s.dedup[c];
      forall v: nat | v < |s.workers| && Claiming(after.workers[v], c) ensures Holds(after, v, c) {
        assert Holds(s, v, c);
      }
    }
  }

  lemma EventKeepsHolders(s: World, e: Event, c: ComponentId)
    requires HoldersOk(s, c) && ClaimersOk(s, c) && BoundOk(s, c)
    ensures HoldersOk(Next(s, e), c)
  {
    match e {
      case Advance(w) => if w < |s.workers| { AdvanceKeepsHolders(s, w, c); }
      case Fail(w) => if w < |s.workers| && CanFail(s.workers[w]) { FailKeepsHolders(s, w, c); }
      case _ => OutsideKeepsHolders(s, e, c);
    }
  }

  // ---------- Where keys come from, and what is counted before the first swap ----------

  /** Each removal, a key that is there, and each pending refill has its own claim. */
  ghost predicate SourceOk(s: World, c: ComponentId) {
    At(s.claims.removals, c) + (if c in s.dedup then 1 else 0) + Count(s.workers, IsFalling(c))
    <= At(s.claims.wins, c) + At(s.claims.misses, c)
  }

  lemma AdvanceKeepsSource(s: World, w: nat, c: ComponentId)
    requires SourceOk(s, c) && w < |s.workers|
    ensures SourceOk(Advanced(s, w), c)
  {
    var k := s.workers[w];
    CountMove(s.workers, w, Resumed(s, k), IsFalling(c));
    StepFalling(s, k, c);
    StepClaims(s, k, c);
    StepDedup(s, k, c);
  }

  lemma EventKeepsSource(s: World, e: Event, c: ComponentId)
    requires SourceOk(s, c)
    ensures SourceOk(Next(s, e), c)
  {
    match e {
      case Advance(w) => if w < |s.workers| { AdvanceKeepsSource(s, w, c); }
      case Fail(w) => if w < |s.workers| { CountMove(s.workers, w, Idle, IsFalling(c)); }
      case _ =>
    }
  }

  predicate AttachesTo(k: Worker, c: ComponentId) {
    k.Attaching? && k.sig.component == c
  }

  /** While the key was never removed and no id was swapped in, nobody has attached. */
  ghost predicate UnswappedOk(s: World, c: ComponentId) {
    At(s.claims.removals, c) == 0 && !(c in s.dedup && s.dedup[c].Claimed?) ==>
      && Counted(s.items, c) == Rows(s.items, c)
      && forall w :: 0 <= w < |s.workers| ==> !AttachesTo(s.workers[w], c)
  }

  lemma AdvanceKeepsUnswapped(s: World, w: nat, c: ComponentId)
    requires RefsOk(s) && UnswappedOk(s, c) && w < |s.workers|
    ensures UnswappedOk(Advanced(s, w), c)
  {
    var after, k := Advanced(s, w), s.workers[w];
    if At(s.claims.removals, c) == 0 && !(c in after.dedup && after.dedup[c].Claimed?) {
      assert !(c in s.dedup && s.dedup[c].Claimed?);
      assert !AttachesTo(k, c) && !AttachesTo(Resumed(s, k), c);
      assert WorkerOk(s.items, k);
      StepRows(s.items, k, c);
    }
  }

  lemma EventKeepsUnswapped(s: World, e: Event, c: ComponentId)
    requires RefsOk(s) && UnswappedOk(s, c)
    ensures UnswappedOk(Next(s, e), c)
  {
    match e {
      case Advance(w) => if w < |s.workers| { AdvanceKeepsUnswapped(s, w, c); }
      case Update(i, r) => if i < |s.items| { UpdateKeepsRows(s.items, i, r, c); }
      case _ =>
    }
  }

  /** Without another worker only an abandoned claim can leave a placeholder to read;
      without workers nothing is fetched, and without a fetched signal nothing fails. */
  ghost predicate FewOk(s: World, c: ComponentId) {
    && (|s.workers| <= 1 && At(s.claims.placeholderReads, c) > 0 ==> At(s.failures.abandoned, c) > 0)
    && (|s.workers| == 0 ==> s.flow.fetched == [])
    && (At(s.failures.all, c) > 0 ==> s.flow.fetched != [])
  }

  lemma AdvanceKeepsFew(s: World, w: nat, c: ComponentId)
    requires FewOk(s, c) && PendingOk(s, c) && w < |s.workers|
    ensures FewOk(Advanced(s, w), c)
  {
    var k := s.workers[w];
    if ReadsPlaceholder(s, k) && k.sig.component == c && At(s.failures.abandoned, c) == 0 {
      var v: nat :| Holds(s, v, c);
      assert v != w;
    }
    StepClaims(s, k, c);
  }

  lemma EventKeepsFew(s: World, e: Event, c: ComponentId)
    requires FewOk(s, c) && PendingOk(s, c) && FlowOk(s)
    ensures FewOk(Next(s, e), c)
  {
    match e {
      case Advance(w) => if w < |s.workers| { AdvanceKeepsFew(s, w, c); }
      case Fail(w) =>
        if w < |s.workers| && CanFail(s.workers[w]) {
          CountBounds(s.workers, IsBusy);
          assert Answers(IsBusy, s.workers[w]);
        }
      case _ =>
    }
  }

  // ---------- Over every run ----------

  ghost predicate PlaceholdersOk(s: World, c: ComponentId) {
    PendingOk(s, c) && ClaimersOk(s, c) && HoldersOk(s, c) && SourceOk(s, c) && UnswappedOk(s, c) && FewOk(s, c)
  }

  lemma EventKeepsPlaceholders(s: World, e: Event, c: ComponentId)
    requires Inv(s) && PlaceholdersOk(s, c)
    ensures PlaceholdersOk(Next(s, e), c)
  {
    assert BoundOk(s, c) by { assert ClaimsOk(s, c); }
    EventKeepsPending(s, e, c);
    EventKeepsClaimers(s, e, c);
    EventKeepsHolders(s, e, c);
    EventKeepsSource(s, e, c);
    EventKeepsUnswapped(s, e, c);
    EventKeepsFew(s, e, c);
  }

  lemma {:induction false} RunKeepsPlaceholders(s: World, es: seq<Event>, c: ComponentId)
    requires Inv(s) && PlaceholdersOk(s, c)
    ensures Inv(Run(s, es)) && PlaceholdersOk(Run(s, es), c) && |Run(s, es).workers| == |s.workers|
    decreases |es|
  {
    if es != [] {
      EventKeepsPlaceholders(s, es[0], c);
      EventKeepsInv(s, es[0]);
      RunKeepsPlaceholders(Next(s, es[0]), es[1..], c);
    }
  }

  lemma ReachableHolds(n: nat, maxsize: nat, threshold: real, es: seq<Event>, c: ComponentId)
    ensures var s := Run(Init(n, maxsize, threshold), es);
      Inv(s) && PlaceholdersOk(s, c) && |s.workers| == n
  {
    var start := Init(n, maxsize, threshold);
    InitInv(n, maxsize, threshold);
    CountBounds(start.workers, IsClaiming(c));
    CountBounds(start.workers, IsFalling(c));
    RunKeepsPlaceholders(start, es, c);
  }

  /** Some worker is between its SET NX and its SET XX, or some run died there. */
  ghost predicate Unswapped(s: World, c: ComponentId) {
    At(s.failures.abandoned, c) > 0 || exists v: nat :: v < |s.workers| && Claiming(s.workers[v], c)
  }

  /** In every run, a loser's lookup finds a placeholder only if some worker is between its
      SET NX and its SET XX, or some run died there. If the key was never removed it finds
      one exactly then, and otherwise the id of a work item of c, and attaches. */
  lemma LookupIsDecided(n: nat, maxsize: nat, threshold: real, es: seq<Event>, c: ComponentId, w: nat)
    ensures var s := Run(Init(n, maxsize, threshold), es);
      w < |s.workers| && s.workers[w].Lost? && s.workers[w].sig.component == c ==>
        var raises, next := ReadsPlaceholder(s, s.workers[w]), Resumed(s, s.workers[w]);
        && (raises ==> Unswapped(s, c) && next.Idle?)
        && (At(s.claims.removals, c) == 0 ==>
             && (raises <==> Unswapped(s, c))
             && (!raises ==> next.Attaching? && IsItemOf(s.items, next.item, c)))
  {
    ReachableHolds(n, maxsize, threshold, es, c);
    var s := Run(Init(n, maxsize, threshold), es);
    assert BoundOk(s, c) by { assert ClaimsOk(s, c); }
    CountBounds(s.workers, IsLost(c));
    if w < |s.workers| && s.workers[w].Lost? && s.workers[w].sig.component == c {
      assert Answers(IsLost(c), s.workers[w]);
      if v: nat :| v < |s.workers| && Claiming(s.workers[v], c) {
        assert At(s.claims.removals, c) == 0 ==> Holds(s, v, c);
      }
    }
  }
}
