/** What overlapping requests, late lookups and lost cleanups can really do, on concrete inputs. */
module Races {
  import opened Types
  import opened Text
  import opened RcaValidator
  import opened States
  import opened Handlers
  import opened SiteIncidents
  import Site

  const SIGNAL := Signal("db", Rdbms, Error, 0)
  const BODY := RcaBody(Network, "x", "y", 0, 1)

  lemma BodyIsAccepted()
    ensures AcceptedRca(BODY).Some? && Judge(AcceptedRca(BODY)).Passed?
  {
    assert !IsSpace("x"[0]) && !IsSpace("y"[0]);
    AcceptedRcaPasses(BODY);
  }

  /** One uninterrupted request of handler 0 moves row 0. */
  lemma Request(b: Board, target: WorkItemState, now: int) returns (after: Board, es: seq<Event>)
    requires |b.handlers| == 2 && b.handlers[0].Free? && |b.items| == 1 && |b.history| == 1
    requires Transition(b.items[0], target, RcaOf(b.rcas, 0), now).Moved?
    ensures es == [Begin(0, 0, target), Decide(0, now), Write(0)] && after == Run(b, es)
    ensures after == b.(items := after.items, history := [b.history[0] + [target]])
    ensures after.items == [Updated(b.items[0], Transition(b.items[0], target, RcaOf(b.rcas, 0), now).result)]
    ensures after.items[0].state == target
  {
    es := [Begin(0, 0, target), Decide(0, now), Write(0)];
    var b1 := Next(b, es[0]);
    var b2 := Next(b1, es[1]);
    after := Next(b2, es[2]);
    RunThree(b, es[0], es[1], es[2]);
    assert b1.handlers[0] == HasRow(0, target, b.items[0]);
    TransitionIsExact(b.items[0], target, RcaOf(b.rcas, 0), now);
    assert after.handlers == b.handlers;
  }

  /** An OPEN row that has an RCA. */
  lemma RowWithRca() returns (b: Board, es: seq<Event>)
    ensures b == Run(Init(2), es) && b.items == [NewItem(SIGNAL)] && b.history == [[Open]]
    ensures b.handlers == [Free, Free] && RcaOf(b.rcas, 0) == AcceptedRca(BODY) && AcceptedRca(BODY).Some?
  {
    BodyIsAccepted();
    es := [Insert(SIGNAL), BeginRca(0, 0, BODY), Store(0)];
    RunThree(Init(2), Insert(SIGNAL), BeginRca(0, 0, BODY), Store(0));
    var open := Next(Init(2), Insert(SIGNAL));
    var begun := Next(open, BeginRca(0, 0, BODY));
    assert begun.handlers == [Storing(0, AcceptedRca(BODY).value), Free];
    b := Next(begun, Store(0));
    assert b.handlers == [Free, Free];
  }

  /** A row that is RESOLVED and has an RCA that passes the gate. */
  lemma ResolvedRow() returns (b: Board, es: seq<Event>)
    ensures b == Run(Init(2), es) && |b.items| == 1 && |b.history| == 1 && b.handlers == [Free, Free]
    ensures b.items[0].state == Resolved && RcaOf(b.rcas, 0).Some? && Judge(RcaOf(b.rcas, 0)).Passed?
  {
    BodyIsAccepted();
    var b0, e0 := RowWithRca();
    var b1, e1 := Request(b0, Investigating, 0);
    var e2;
    b, e2 := Request(b1, Resolved, 0);
    es := e0 + (e1 + e2);
    RunAppend(b0, e1, e2);
    RunAppend(Init(2), e0, e1 + e2);
  }

  /** CLOSED is not terminal under overlap: two requests read RESOLVED, one closes, and
      the other then moves the closed row back, leaving its end time behind. */
  lemma ClosedRowReopens() returns (es: seq<Event>)
    ensures var b := Run(Init(2), es);
      && |b.items| == 1 && |b.history| == 1 && Closed in b.history[0]
      && b.items[0].state == Investigating && b.items[0].endTime.Some?
  {
    var b0, e0 := ResolvedRow();
    var b1 := Next(b0, Begin(1, 0, Investigating));
    assert b1.handlers == [Free, HasRow(0, Investigating, b0.items[0])];
    var b2, e2 := Request(b1, Closed, 7);
    var b3 := Next(b2, Decide(1, 8));
    var b4 := Next(b3, Write(1));
    var tail := [Decide(1, 8), Write(1)];
    RunTwo(b2, Decide(1, 8), Write(1));
    var head := [Begin(1, 0, Investigating)];
    RunOne(b0, Begin(1, 0, Investigating));
    es := e0 + (head + (e2 + tail));
    RunAppend(b1, e2, tail);
    RunAppend(b0, head, e2 + tail);
    RunAppend(Init(2), e0, head + (e2 + tail));
    var history := b2.history[0];
    assert history[|history| - 1] == Closed && b4.history[0] == history + [Investigating];
    assert (history + [Investigating])[|history| - 1] == Closed;
  }

  // ---------- What the live feed can miss, and what it can keep ----------

  const TTL := 10

  /** Events in a row, from the empty site: where they end, and what they leave behind. */
  ghost predicate Leads(es: seq<Site.Stamped>, s: Site.Site, left: Leftovers) {
    Site.Run(Site.EMPTY, es, TTL) == s && LeftoversOf(Site.EMPTY, NOTHING, es, TTL) == left
  }

  lemma {:induction false} LeftoversAppend(s: Site.Site, left: Leftovers, es: seq<Site.Stamped>, e: Site.Stamped)
    ensures LeftoversOf(s, left, es + [e], TTL)
      == LeftoversAfter(Site.Run(s, es, TTL), LeftoversOf(s, left, es, TTL), e)
    decreases |es|
  {
    if es == [] {
      assert [e][1..] == [];
    } else {
      assert (es + [e])[1..] == es[1..] + [e];
      LeftoversAppend(Site.Handled(s, es[0], TTL), LeftoversAfter(s, left, es[0]), es[1..], e);
    }
  }

  lemma OneMoreEvent(es: seq<Site.Stamped>, s: Site.Site, left: Leftovers, e: Site.Stamped)
    requires Leads(es, s, left)
    ensures Leads(es + [e], Site.Handled(s, e, TTL), LeftoversAfter(s, left, e))
  {
    Site.RunAppend(Site.EMPTY, es, e, TTL);
    LeftoversAppend(Site.EMPTY, NOTHING, es, e);
  }

  /** One signal, processed at once: an OPEN row, announced, its key live until 10. */
  lemma FirstSignal() returns (es: seq<Site.Stamped>, s: Site.Site)
    ensures es == [Site.Stamped(0, Site.Process(SIGNAL, 0, 0))] && Leads(es, s, NOTHING)
    ensures s.items == [NewItem(SIGNAL)] && s.keys == map["db" := Site.Key(Claimed(0), 10)]
    ensures s.feed.Keys == {FeedEntry(0, "db")} && s.rcas == map[]
  {
    var e := Site.Stamped(0, Site.Process(SIGNAL, 0, 0));
    OneMoreEvent([], Site.EMPTY, NOTHING, e);
    assert [] + [e] == [e];
    es, s := [e], Site.Handled(Site.EMPTY, e, TTL);
  }

  /** A second signal is refused the claim at 5 and looks at 12, when the key has expired:
      the row of its fallback is open and missing in the feed, without any close. */
  lemma OpenRowIsMissing() returns (es: seq<Site.Stamped>, s: Site.Site, left: Leftovers)
    ensures es == [Site.Stamped(0, Site.Process(SIGNAL, 0, 0)), Site.Stamped(5, Site.Process(SIGNAL, 12, 13))]
    ensures Leads(es, s, left) && left == Leftovers({}, {}, {1})
    ensures |s.items| == 2 && s.items[1].state == Open && FeedEntry(1, "db") !in s.feed && !FeedIsOpenIncidents(s)
  {
    var e1, s1 := FirstSignal();
    var e := Site.Stamped(5, Site.Process(SIGNAL, 12, 13));
    OneMoreEvent(e1, s1, NOTHING, e);
    es, s, left := e1 + [e], Site.Handled(s1, e, TTL), LeftoversAfter(s1, NOTHING, e);
    assert IsItemOf(s.items, FeedEntry(1, "db").item, "db");
  }

  /** A row moves to a state that is not CLOSED. */
  lemma MoveAhead(es: seq<Site.Stamped>, s: Site.Site, target: WorkItemState)
      returns (es': seq<Site.Stamped>, s': Site.Site)
    requires Leads(es, s, NOTHING) && |s.items| == 1 && Edge(s.items[0].state, target) && target != Closed
    ensures Leads(es', s', NOTHING) && s' == s.(items := s'.items)
    ensures |s'.items| == 1 && s'.items[0] == s.items[0].(state := target)
  {
    var e := Site.Stamped(1, Site.Transit(0, target, Site.Done));
    OneMoreEvent(es, s, NOTHING, e);
    TransitionIsExact(s.items[0], target, RcaOf(s.rcas, 0), 1);
    es', s' := es + [e], Site.Handled(s, e, TTL);
  }

  /** A resolved row with an RCA that passes the gate, in the feed and named by its key. */
  lemma ResolvedIncident() returns (es: seq<Site.Stamped>, s: Site.Site)
    ensures Leads(es, s, NOTHING) && |s.items| == 1
    ensures s.items[0].state == Resolved && s.items[0].component == "db"
    ensures RcaOf(s.rcas, 0).Some? && Judge(RcaOf(s.rcas, 0)).Passed?
    ensures s.feed.Keys == {FeedEntry(0, "db")} && s.keys == map["db" := Site.Key(Claimed(0), 10)]
  {
    BodyIsAccepted();
    var e1, s1 := FirstSignal();
    var e2, s2 := MoveAhead(e1, s1, Investigating);
    var e3, s3 := MoveAhead(e2, s2, Resolved);
    var rca := Site.Stamped(2, Site.Submit(0, BODY));
    OneMoreEvent(e3, s3, NOTHING, rca);
    es, s := e3 + [rca], Site.Handled(s3, rca, TTL);
  }

  /** It is closed, and the cleanup of the close is lost: the closed row stays in the feed,
      and its key stays too. */
  lemma ClosedRowIsListed() returns (es: seq<Site.Stamped>, s: Site.Site, left: Leftovers)
    ensures Leads(es, s, left) && left == Leftovers({0}, {0}, {})
    ensures |s.items| == 1 && s.items[0].state == Closed && FeedEntry(0, "db") in s.feed
    ensures !FeedIsOpenIncidents(s) && !NoKeyOfClosed(s)
  {
    var e1, s1 := ResolvedIncident();
    var close := Site.Stamped(3, Site.Transit(0, Closed, Site.Skipped));
    OneMoreEvent(e1, s1, NOTHING, close);
    es, s, left := e1 + [close], Site.Handled(s1, close, TTL), LeftoversAfter(s1, NOTHING, close);
    TransitionIsExact(s1.items[0], Closed, RcaOf(s1.rcas, 0), 3);
    JudgeIsTheGate(RcaOf(s1.rcas, 0));
    assert s.feed == s1.feed && s.keys == s1.keys;
    assert IsClosed(s, FeedEntry(0, "db").item);
    assert "db" in s.keys && s.keys["db"].value == Claimed(0);
  }
}
