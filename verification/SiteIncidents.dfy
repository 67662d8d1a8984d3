/** Incidents at the coarse grain: what the live feed and the dedup keys say about them,
    and the lifecycle of every row when requests do not overlap. */
module SiteIncidents {
  import opened Types
  import opened RcaValidator
  import opened States
  import opened Site
  import opened LiveFeed

  // ---------- The index agrees with the table ----------

  /** Work items whose close left their feed member, or their key, behind; and work items
      that the fallback created, which were never announced. */
  datatype Leftovers = Leftovers(feed: set<nat>, keys: set<nat>, silent: set<nat>)

  /** The signal was refused the claim and then found the key gone. */
  predicate FallsBack(s: Site, e: Stamped) {
    && e.action.Process?
    && Live(s.keys, e.action.sig.component, e.at).Some?
    && Live(s.keys, e.action.sig.component, e.action.look).None?
  }

  function LeftoversAfter(s: Site, left: Leftovers, e: Stamped): Leftovers {
    if FallsBack(s, e) then left.(silent := left.silent + {|s.items|})
    else if !Closing(s, e) || e.action.cleanup.Done? then left
    else
      var kept := e.action.cleanup.Skipped? && e.action.item !in left.silent;
      left.(feed := if kept then left.feed + {e.action.item} else left.feed,
            keys := left.keys + {e.action.item})
  }

  function LeftoversOf(s: Site, left: Leftovers, es: seq<Stamped>, ttl: int): Leftovers
    decreases |es|
  {
    if es == [] then left
    else LeftoversOf(Handled(s, es[0], ttl), LeftoversAfter(s, left, es[0]), es[1..], ttl)
  }

  predicate IsClosed(s: Site, i: nat) {
    i < |s.items| && s.items[i].state == Closed
  }

  /** The row is in the feed: announced, and open or left behind. */
  predicate Listed(s: Site, left: Leftovers, i: nat) {
    i !in left.silent && (!IsClosed(s, i) || i in left.feed)
  }

  /** The feed lists exactly those rows, under their component and with their severity's score. */
  ghost predicate FeedAgrees(s: Site, left: Leftovers) {
    && (forall e :: e in s.feed <==> IsItemOf(s.items, e.item, e.component) && Listed(s, left, e.item))
    && (forall e :: e in s.feed ==> s.feed[e] == Score(s.items[e.item].severity))
    && (forall i :: i in left.feed ==> IsClosed(s, i) && i !in left.silent)
    && (forall i :: i in left.silent ==> i < |s.items|)
  }

  /** A claimed key names a row of its component, and a closed one only if it was left behind. */
  ghost predicate KeysAgree(s: Site, left: Leftovers) {
    && (forall c :: c in s.keys && s.keys[c].value.Claimed? ==>
         && IsItemOf(s.items, s.keys[c].value.item, c)
         && (IsClosed(s, s.keys[c].value.item) ==> s.keys[c].value.item in left.keys))
    && (forall i :: i in left.keys ==> IsClosed(s, i))
  }

  /** A row's facts: everything but its signal count. */
  function Settled(row: WorkItem): WorkItem {
    row.(signalCount := 0)
  }

  /** Rows keep their facts. */
  predicate SameFacts(before: seq<WorkItem>, after: seq<WorkItem>) {
    && |after| == |before|
    && forall i :: 0 <= i < |before| ==> Settled(after[i]) == Settled(before[i])
  }

  lemma FactsKeepIndex(s: Site, after: Site, left: Leftovers)
    requires FeedAgrees(s, left) && KeysAgree(s, left)
    requires SameFacts(s.items, after.items) && after.feed == s.feed && after.keys == s.keys
    ensures FeedAgrees(after, left) && KeysAgree(after, left)
  {
    assert forall i: nat ::
      (IsClosed(after, i) <==> IsClosed(s, i)) && (Listed(after, left, i) <==> Listed(s, left, i));
  }

  /** A signal that makes no row changes neither the index nor any row's facts. */
  lemma JoinKeepsIndex(s: Site, left: Leftovers, e: Stamped, ttl: int)
    requires FeedAgrees(s, left) && KeysAgree(s, left) && e.action.Process?
    requires Live(s.keys, e.action.sig.component, e.at).Some?
    requires Live(s.keys, e.action.sig.component, e.action.look).Some?
    ensures FeedAgrees(Handled(s, e, ttl), left) && KeysAgree(Handled(s, e, ttl), left)
  {
    var after := Handled(s, e, ttl);
    ProcessShape(s, e.action.sig, e.at, e.action.look, e.action.refill, ttl);
    assert SameFacts(s.items, after.items) && after.feed == s.feed;
    FactsKeepIndex(s, after, left);
  }

  /** A row from a won claim is announced; one from the fallback is not. */
  lemma OpenKeepsFeed(s: Site, left: Leftovers, e: Stamped, ttl: int)
    requires FeedAgrees(s, left) && e.action.Process?
    requires Live(s.keys, e.action.sig.component, e.at).None? || FallsBack(s, e)
    ensures FeedAgrees(Handled(s, e, ttl), LeftoversAfter(s, left, e))
  {
    var sig, after := e.action.sig, Handled(s, e, ttl);
    assert after.items == s.items + [NewItem(sig)];
    assert after.feed == if FallsBack(s, e) then s.feed
                         else s.feed[FeedEntry(|s.items|, sig.component) := Score(sig.severity)];
  }

  lemma OpenKeepsKeys(s: Site, left: Leftovers, e: Stamped, ttl: int)
    requires KeysAgree(s, left) && e.action.Process?
    requires Live(s.keys, e.action.sig.component, e.at).None? || FallsBack(s, e)
    ensures KeysAgree(Handled(s, e, ttl), LeftoversAfter(s, left, e))
  {
    var c, after := e.action.sig.component, Handled(s, e, ttl);
    ProcessShape(s, e.action.sig, e.at, e.action.look, e.action.refill, ttl);
    forall d | d in after.keys && d != c ensures d in s.keys && after.keys[d] == s.keys[d] {
      assert d in after.keys - {c} && (after.keys - {c})[d] == (s.keys - {c})[d];
    }
  }

  /** An accepted transition closes its row or leaves the set of closed rows alone. */
  lemma TransitCloses(s: Site, e: Stamped, ttl: int)
    requires Accepted(s, e)
    ensures var after, i := Handled(s, e, ttl), e.action.item;
      && |after.items| == |s.items| && !IsClosed(s, i)
      && (forall j: nat :: IsClosed(after, j) <==> IsClosed(s, j) || (j == i && e.action.target == Closed))
      && (forall j :: 0 <= j < |s.items| ==>
           after.items[j].component == s.items[j].component && after.items[j].severity == s.items[j].severity)
      && after.feed == (if e.action.target == Closed && !e.action.cleanup.Skipped? then WithoutItem(s.feed, i)
                        else s.feed)
      && after.keys == (if e.action.target == Closed && e.action.cleanup.Done? then s.keys - {s.items[i].component}
                        else s.keys)
  {
    TransitionIsExact(s.items[e.action.item], e.action.target, RcaOf(s.rcas, e.action.item), e.at);
  }

  lemma TransitKeepsFeed(s: Site, left: Leftovers, e: Stamped, ttl: int)
    requires FeedAgrees(s, left) && Accepted(s, e)
    ensures FeedAgrees(Handled(s, e, ttl), LeftoversAfter(s, left, e))
  {
    TransitCloses(s, e, ttl);
  }

  lemma TransitKeepsKeys(s: Site, left: Leftovers, e: Stamped, ttl: int)
    requires KeysAgree(s, left) && Accepted(s, e)
    ensures KeysAgree(Handled(s, e, ttl), LeftoversAfter(s, left, e))
  {
    TransitCloses(s, e, ttl);
  }

  lemma EventKeepsIndex(s: Site, left: Leftovers, e: Stamped, ttl: int)
    requires FeedAgrees(s, left) && KeysAgree(s, left)
    ensures FeedAgrees(Handled(s, e, ttl), LeftoversAfter(s, left, e))
    ensures KeysAgree(Handled(s, e, ttl), LeftoversAfter(s, left, e))
  {
    match e.action {
      case Process(sig, look, _) =>
        if Live(s.keys, sig.component, e.at).Some? && Live(s.keys, sig.component, look).Some? {
          JoinKeepsIndex(s, left, e, ttl);
        } else {
          OpenKeepsFeed(s, left, e, ttl);
          OpenKeepsKeys(s, left, e, ttl);
        }
      case Transit(_, _, _) =>
        if Accepted(s, e) {
          TransitKeepsFeed(s, left, e, ttl);
          TransitKeepsKeys(s, left, e, ttl);
        }
      case Submit(_, _) =>
    }
  }

  lemma {:induction false} RunKeepsIndex(s: Site, left: Leftovers, es: seq<Stamped>, ttl: int)
    requires FeedAgrees(s, left) && KeysAgree(s, left)
    ensures FeedAgrees(Run(s, es, ttl), LeftoversOf(s, left, es, ttl))
    ensures KeysAgree(Run(s, es, ttl), LeftoversOf(s, left, es, ttl))
    decreases |es|
  {
    if es != [] {
      EventKeepsIndex(s, left, es[0], ttl);
      RunKeepsIndex(Handled(s, es[0], ttl), LeftoversAfter(s, left, es[0]), es[1..], ttl);
    }
  }

  /** The live feed holds exactly the incidents that are not closed, each with its score. */
  ghost predicate FeedIsOpenIncidents(s: Site) {
    && (forall e :: e in s.feed <==> IsItemOf(s.items, e.item, e.component) && !IsClosed(s, e.item))
    && (forall e :: e in s.feed ==> s.feed[e] == Score(s.items[e.item].severity))
  }

  ghost predicate NoKeyOfClosed(s: Site) {
    forall c :: c in s.keys && s.keys[c].value.Claimed? ==> !IsClosed(s, s.keys[c].value.item)
  }

  const NOTHING: Leftovers := Leftovers({}, {}, {})

  lemma OpenFeedLeavesNothing(s: Site, left: Leftovers)
    requires FeedAgrees(s, left) && FeedIsOpenIncidents(s)
    ensures left.feed == {} && forall i :: i in left.silent ==> IsClosed(s, i)
  {
    forall i: nat | i < |s.items| ensures Listed(s, left, i) <==> !IsClosed(s, i) {
      var e := FeedEntry(i, s.items[i].component);
      assert e in s.feed <==> Listed(s, left, i);
    }
  }

  /** The feed is the set of open incidents exactly if no close left its feed member behind
      and every incident that the fallback created is closed; and a dedup key names a
      closed incident exactly if that incident's close lost its key removal. */
  lemma IndexAgreement(es: seq<Stamped>, ttl: int)
    ensures var s, left := Run(EMPTY, es, ttl), LeftoversOf(EMPTY, NOTHING, es, ttl);
      && (FeedIsOpenIncidents(s) <==> left.feed == {} && forall i :: i in left.silent ==> IsClosed(s, i))
      && (forall c :: c in s.keys && s.keys[c].value.Claimed? ==>
           (IsClosed(s, s.keys[c].value.item) <==> s.keys[c].value.item in left.keys))
      && (left.keys == {} ==> NoKeyOfClosed(s))
  {
    RunKeepsIndex(EMPTY, NOTHING, es, ttl);
    var s, left := Run(EMPTY, es, ttl), LeftoversOf(EMPTY, NOTHING, es, ttl);
    if FeedIsOpenIncidents(s) {
      OpenFeedLeavesNothing(s, left);
    }
  }

  /** Events that lose no cleanup leave neither feed members nor keys behind, and signals
      that look the moment they were refused never fall back. */
  lemma {:induction false} CleanRunsLeaveNothing(s: Site, left: Leftovers, es: seq<Stamped>, ttl: int)
    requires forall k :: 0 <= k < |es| && es[k].action.Transit? ==> es[k].action.cleanup.Done?
    ensures LeftoversOf(s, left, es, ttl).feed == left.feed && LeftoversOf(s, left, es, ttl).keys == left.keys
    ensures (forall k :: 0 <= k < |es| && es[k].action.Process? ==> es[k].action.look <= es[k].at) ==>
      LeftoversOf(s, left, es, ttl) == left
    decreases |es|
  {
    if es != [] {
      CleanRunsLeaveNothing(Handled(s, es[0], ttl), LeftoversAfter(s, left, es[0]), es[1..], ttl);
    }
  }

  // ---------- The lifecycle when requests do not overlap ----------

  /** An end and an MTTR are there exactly on closed rows, and fit the start; a closed
      row has an RCA, and every stored RCA passes the gate. */
  ghost predicate RowsSettled(s: Site) {
    && (forall i :: 0 <= i < |s.items| ==>
         && Timed(s.items[i])
         && (s.items[i].endTime.Some? <==> s.items[i].state == Closed)
         && (s.items[i].state == Closed ==> i in s.rcas))
    && (forall i :: i in s.rcas ==> Complete(s.rcas[i]))
  }

  lemma CleanupTouchesNoTable(s: Site, item: nat, c: ComponentId, cleanup: Cleanup)
    ensures var after := Cleaned(s, item, c, cleanup);
      after.items == s.items && after.rcas == s.rcas && after.links == s.links && after.metrics == s.metrics
  {
  }

  lemma TransitKeepsRowsSettled(s: Site, i: nat, target: WorkItemState, now: int, cleanup: Cleanup)
    requires RowsSettled(s)
    ensures RowsSettled(Transited(s, i, target, now, cleanup))
  {
    if i < |s.items| {
      var o := Decision(s, i, target, now);
      TransitionIsExact(s.items[i], target, RcaOf(s.rcas, i), now);
      if o.Moved? {
        var row := Updated(s.items[i], o.result);
        CleanupTouchesNoTable(s.(items := s.items[i := row]), i, row.component, cleanup);
        assert Timed(row) && (row.endTime.Some? <==> row.state == Closed);
        assert row.state == Closed ==> i in s.rcas;
      }
    }
  }

  lemma ProcessKeepsRowsSettled(s: Site, sig: Signal, t0: int, t1: int, t2: int, ttl: int)
    requires RowsSettled(s)
    ensures RowsSettled(ProcessedOver(s, sig, t0, t1, t2, ttl))
  {
    ProcessShape(s, sig, t0, t1, t2, ttl);
    assert ProcessedOver(s, sig, t0, t1, t2, ttl).rcas == s.rcas;
  }

  lemma EventKeepsRowsSettled(s: Site, e: Stamped, ttl: int)
    requires RowsSettled(s)
    ensures RowsSettled(Handled(s, e, ttl))
  {
    match e.action {
      case Process(sig, look, refill) => ProcessKeepsRowsSettled(s, sig, e.at, look, refill, ttl);
      case Transit(i, target, cleanup) => TransitKeepsRowsSettled(s, i, target, e.at, cleanup);
      case Submit(_, body) => AcceptedRcaPasses(body);
    }
  }

  lemma {:induction false} RunKeepsRowsSettled(s: Site, es: seq<Stamped>, ttl: int)
    requires RowsSettled(s)
    ensures RowsSettled(Run(s, es, ttl))
    decreases |es|
  {
    if es != [] {
      EventKeepsRowsSettled(s, es[0], ttl);
      RunKeepsRowsSettled(Handled(s, es[0], ttl), es[1..], ttl);
    }
  }

  /** In every run, end and MTTR are set exactly on closed incidents, and every closed
      incident has an RCA that passes the gate. */
  lemma ClosedIncidentsAreSettled(es: seq<Stamped>, ttl: int)
    ensures RowsSettled(Run(EMPTY, es, ttl))
  {
    RunKeepsRowsSettled(EMPTY, es, ttl);
  }

  lemma EventKeepsClosed(s: Site, e: Stamped, ttl: int, i: nat)
    requires IsClosed(s, i)
    ensures i < |Handled(s, e, ttl).items| && Settled(Handled(s, e, ttl).items[i]) == Settled(s.items[i])
  {
    match e.action {
      case Process(sig, look, refill) => ProcessShape(s, sig, e.at, look, refill, ttl);
      case Transit(item, target, _) =>
        if item < |s.items| {
          TransitionIsExact(s.items[item], target, RcaOf(s.rcas, item), e.at);
        }
      case Submit(_, _) =>
    }
  }

  /** CLOSED is terminal. */
  lemma {:induction false} ClosedIsTerminal(s: Site, es: seq<Stamped>, ttl: int, i: nat)
    requires IsClosed(s, i)
    ensures i < |Run(s, es, ttl).items| && Settled(Run(s, es, ttl).items[i]) == Settled(s.items[i])
    decreases |es|
  {
    if es != [] {
      EventKeepsClosed(s, es[0], ttl, i);
      ClosedIsTerminal(Handled(s, es[0], ttl), es[1..], ttl, i);
    }
  }

  // ---------- Counting moves ----------

  function PositionOf(s: Site, i: nat): int {
    if i < |s.items| then Position(s.items[i].state) else 0
  }

  predicate MovesItem(s: Site, e: Stamped, i: nat) {
    Accepted(s, e) && e.action.item == i
  }

  /** Accepted transitions of row i, forward and backward along the lifecycle. */
  function Forward(s: Site, es: seq<Stamped>, ttl: int, i: nat): nat
    decreases |es|
  {
    if es == [] then 0
    else
      var forward := MovesItem(s, es[0], i) && Position(es[0].action.target) > PositionOf(s, i);
      (if forward then 1 else 0) + Forward(Handled(s, es[0], ttl), es[1..], ttl, i)
  }

  function Backward(s: Site, es: seq<Stamped>, ttl: int, i: nat): nat
    decreases |es|
  {
    if es == [] then 0
    else
      var backward := MovesItem(s, es[0], i) && Position(es[0].action.target) < PositionOf(s, i);
      (if backward then 1 else 0) + Backward(Handled(s, es[0], ttl), es[1..], ttl, i)
  }

  function Transitions(s: Site, es: seq<Stamped>, ttl: int, i: nat): nat
    decreases |es|
  {
    if es == [] then 0
    else (if MovesItem(s, es[0], i) then 1 else 0) + Transitions(Handled(s, es[0], ttl), es[1..], ttl, i)
  }

  lemma EventMovesOnePlace(s: Site, e: Stamped, ttl: int, i: nat)
    ensures PositionOf(Handled(s, e, ttl), i)
      == if MovesItem(s, e, i) then Position(e.action.target) else PositionOf(s, i)
    ensures MovesItem(s, e, i) ==>
      Position(e.action.target) == PositionOf(s, i) + 1 || Position(e.action.target) == PositionOf(s, i) - 1
  {
    if e.action.Transit? && e.action.item < |s.items| {
      TransitionIsExact(s.items[e.action.item], e.action.target, RcaOf(s.rcas, e.action.item), e.at);
    }
  }

  lemma {:induction false} MovesAddUp(s: Site, es: seq<Stamped>, ttl: int, i: nat)
    ensures PositionOf(Run(s, es, ttl), i)
      == PositionOf(s, i) + Forward(s, es, ttl, i) - Backward(s, es, ttl, i)
    ensures Transitions(s, es, ttl, i) == Forward(s, es, ttl, i) + Backward(s, es, ttl, i)
    decreases |es|
  {
    if es != [] {
      EventMovesOnePlace(s, es[0], ttl, i);
      MovesAddUp(Handled(s, es[0], ttl), es[1..], ttl, i);
    }
  }

  /** An incident's place in the lifecycle is its forward minus its backward moves, so one
      that got closed took exactly three moves and two more for each step back. */
  lemma ClosingTakesThreeMoves(es: seq<Stamped>, ttl: int, i: nat)
    ensures PositionOf(Run(EMPTY, es, ttl), i) == Forward(EMPTY, es, ttl, i) - Backward(EMPTY, es, ttl, i)
    ensures IsClosed(Run(EMPTY, es, ttl), i) ==> Transitions(EMPTY, es, ttl, i) == 3 + 2 * Backward(EMPTY, es, ttl, i)
  {
    MovesAddUp(EMPTY, es, ttl, i);
  }
}
