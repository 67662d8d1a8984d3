/** The bound on work items over time is exact: for every stretch of time, every window
    length and every number of closes some run reaches it. */
module OverTime {
  import opened Types
  import opened States
  import opened Site
  import opened Windows
  import opened SiteWindows
  import opened SoloWorker
  import Races

  /** After events one after the other between `from` and t, c has so many work items, of
      which so many were closed and had its key cleared. */
  ghost predicate Made(
      es: seq<Stamped>, s: Site, c: ComponentId, ttl: int, from: int, t: int, rows: nat, closes: nat)
  {
    && from <= t && Chronological(es, from, t) && s == Run(EMPTY, es, ttl)
    && |Summaries(s.items, c)| == rows && Closes(Stimuli(EMPTY, es, c, ttl)) == closes
  }

  lemma {:induction false} StimuliAppend(s: Site, es: seq<Stamped>, e: Stamped, c: ComponentId, ttl: int)
    ensures Stimuli(s, es + [e], c, ttl) == Stimuli(s, es, c, ttl) + StimulusOf(Run(s, es, ttl), e, c)
    decreases |es|
  {
    if es == [] {
      assert (es + [e])[1..] == [];
    } else {
      assert (es + [e])[1..] == es[1..] + [e];
      StimuliAppend(Handled(s, es[0], ttl), es[1..], e, c, ttl);
    }
  }

  lemma {:induction false} ClosesAppend(ss: seq<Stimulus>, more: seq<Stimulus>)
    ensures Closes(ss + more) == Closes(ss) + Closes(more)
  {
    if ss == [] {
      assert ss + more == more;
    } else {
      assert (ss + more)[1..] == ss[1..] + more;
      ClosesAppend(ss[1..], more);
    }
  }

  lemma ClosesOfOne(x: Stimulus)
    ensures Closes([x]) == if x.Close? then 1 else 0
  {
    assert [x][1..] == [];
  }

  lemma ChronologicalAppend(es: seq<Stamped>, from: int, t: int, e: Stamped)
    requires Chronological(es, from, t) && from <= t <= e.at
    requires e.action.Process? ==> e.at <= e.action.look <= e.action.refill
    ensures Chronological(es + [e], from, Finished(e))
  {
  }

  lemma OneMore(
      es: seq<Stamped>, s: Site, c: ComponentId, ttl: int, from: int, t: int, rows: nat, closes: nat,
      e: Stamped, rows': nat)
    requires Made(es, s, c, ttl, from, t, rows, closes) && t <= e.at
    requires e.action.Process? ==> e.at <= e.action.look <= e.action.refill
    requires |Summaries(Handled(s, e, ttl).items, c)| == rows'
    ensures Made(es + [e], Handled(s, e, ttl), c, ttl, from, Finished(e), rows', closes + Closes(StimulusOf(s, e, c)))
  {
    ChronologicalAppend(es, from, t, e);
    RunAppend(EMPTY, es, e, ttl);
    StimuliAppend(EMPTY, es, e, c, ttl);
    ClosesAppend(Stimuli(EMPTY, es, c, ttl), StimulusOf(s, e, c));
  }

  /** A signal that finds no live key makes a work item, and a key that lives until t + ttl. */
  lemma Arrival(es: seq<Stamped>, s: Site, c: ComponentId, ttl: int, from: int, t0: int, t: int, rows: nat, closes: nat)
      returns (es': seq<Stamped>, s': Site)
    requires Made(es, s, c, ttl, from, t0, rows, closes) && t0 <= t && ttl > 0 && Live(s.keys, c, t).None?
    ensures Made(es', s', c, ttl, from, t, rows + 1, closes)
    ensures s'.items == s.items + [NewItem(SignalFor(c))] && c in s'.keys && s'.keys[c].expires == t + ttl
  {
    var sig := SignalFor(c);
    var e := Stamped(t, Process(sig, t, t));
    AtomicProcess(s, sig, t, ttl);
    SummariesAppend(s.items, NewItem(sig), c);
    ClosesOfOne(Arrive(sig, t, t, t));
    OneMore(es, s, c, ttl, from, t0, rows, closes, e, rows + 1);
    es', s' := es + [e], Handled(s, e, ttl);
  }

  /** A request moves row i of c along, short of CLOSED. */
  lemma MoveOn(
      es: seq<Stamped>, s: Site, c: ComponentId, ttl: int, from: int, t: int, rows: nat, closes: nat,
      i: nat, target: WorkItemState)
      returns (es': seq<Stamped>, s': Site)
    requires Made(es, s, c, ttl, from, t, rows, closes) && IsItemOf(s.items, i, c)
    requires Edge(s.items[i].state, target) && target != Closed
    ensures Made(es', s', c, ttl, from, t, rows, closes)
    ensures |s'.items| == |s.items| && IsItemOf(s'.items, i, c) && s'.items[i].state == target
  {
    var e := Stamped(t, Transit(i, target, Done));
    TransitionIsExact(s.items[i], target, RcaOf(s.rcas, i), t);
    var row := Updated(s.items[i], Decision(s, i, target, t).result);
    SummariesKeep(s.items, i, row, c);
    assert Handled(s, e, ttl).items == s.items[i := row];
    OneMore(es, s, c, ttl, from, t, rows, closes, e, rows);
    es', s' := es + [e], Handled(s, e, ttl);
    assert StimulusOf(s, e, c) == [];
  }

  /** An accepted RCA for row i. */
  lemma WithRca(
      es: seq<Stamped>, s: Site, c: ComponentId, ttl: int, from: int, t: int, rows: nat, closes: nat, i: nat)
      returns (es': seq<Stamped>, s': Site)
    requires Made(es, s, c, ttl, from, t, rows, closes) && IsItemOf(s.items, i, c)
    ensures Made(es', s', c, ttl, from, t, rows, closes) && s'.items == s.items
    ensures RcaOf(s'.rcas, i).Some? && RcaValidator.Judge(RcaOf(s'.rcas, i)).Passed?
  {
    Races.BodyIsAccepted();
    var e := Stamped(t, Submit(i, Races.BODY));
    OneMore(es, s, c, ttl, from, t, rows, closes, e, rows);
    es', s' := es + [e], Handled(s, e, ttl);
    assert StimulusOf(s, e, c) == [];
  }

  /** A resolved row with its RCA is closed, and the key is cleared. */
  lemma CloseRow(
      es: seq<Stamped>, s: Site, c: ComponentId, ttl: int, from: int, t: int, rows: nat, closes: nat, i: nat)
      returns (es': seq<Stamped>, s': Site)
    requires Made(es, s, c, ttl, from, t, rows, closes) && IsItemOf(s.items, i, c) && s.items[i].state == Resolved
    requires RcaOf(s.rcas, i).Some? && RcaValidator.Judge(RcaOf(s.rcas, i)).Passed?
    ensures Made(es', s', c, ttl, from, t, rows, closes + 1) && c !in s'.keys
  {
    var e := Stamped(t, Transit(i, Closed, Done));
    RcaValidator.JudgeIsTheGate(RcaOf(s.rcas, i));
    TransitionIsExact(s.items[i], Closed, RcaOf(s.rcas, i), t);
    var row := Updated(s.items[i], Decision(s, i, Closed, t).result);
    SummariesKeep(s.items, i, row, c);
    assert Handled(s, e, ttl).items == s.items[i := row];
    OneMore(es, s, c, ttl, from, t, rows, closes, e, rows);
    es', s' := es + [e], Handled(s, e, ttl);
    ClosesOfOne(Close);
    assert StimulusOf(s, e, c) == [Close];
  }

  /** Within one instant, so many work items come, are resolved, and are closed. */
  lemma {:induction false} Closings(c: ComponentId, ttl: int, from: int, closes: nat)
      returns (es: seq<Stamped>, s: Site)
    requires ttl > 0
    ensures Made(es, s, c, ttl, from, from, closes, closes) && c !in s.keys
  {
    if closes == 0 {
      es, s := [], EMPTY;
    } else {
      es, s := Closings(c, ttl, from, closes - 1);
      var i := |s.items|;
      es, s := Arrival(es, s, c, ttl, from, from, from, closes - 1, closes - 1);
      es, s := MoveOn(es, s, c, ttl, from, from, closes, closes - 1, i, Investigating);
      es, s := MoveOn(es, s, c, ttl, from, from, closes, closes - 1, i, Resolved);
      es, s := WithRca(es, s, c, ttl, from, from, closes, closes - 1, i);
      es, s := CloseRow(es, s, c, ttl, from, from, closes, closes - 1, i);
    }
  }

  lemma MadeLater(
      es: seq<Stamped>, s: Site, c: ComponentId, ttl: int, from: int, t: int, to: int, rows: nat, closes: nat)
    requires Made(es, s, c, ttl, from, t, rows, closes) && t <= to
    ensures Made(es, s, c, ttl, from, to, rows, closes)
  {
  }

  /** One signal, and the room is one smaller when its key expires. */
  lemma Tick(
      es: seq<Stamped>, s: Site, c: ComponentId, ttl: int, from: int, t0: int, t: int, to: int, rows: nat, closes: nat)
      returns (es': seq<Stamped>, s': Site)
    requires Made(es, s, c, ttl, from, t0, rows, closes) && t0 <= t <= to && ttl > 0 && Live(s.keys, c, t).None?
    ensures Made(es', s', c, ttl, from, t, rows + 1, closes) && Live(s'.keys, c, t + ttl).None?
    ensures Room(t, to, ttl) == 1 + Room(t + ttl, to, ttl)
  {
    es', s' := Arrival(es, s, c, ttl, from, t0, t, rows, closes);
  }

  /** A signal each time the key has just expired. */
  lemma {:induction false} Ticks(
      es: seq<Stamped>, s: Site, c: ComponentId, ttl: int, from: int, t0: int, t: int, to: int,
      rows: nat, closes: nat, total: nat)
      returns (es': seq<Stamped>, s': Site)
    requires Made(es, s, c, ttl, from, t0, rows, closes) && t0 <= to && t0 <= t && ttl > 0
    requires Live(s.keys, c, t).None? && total == rows + Room(t, to, ttl)
    ensures Made(es', s', c, ttl, from, to, total, closes)
    decreases (to - t)
  {
    if t > to {
      MadeLater(es, s, c, ttl, from, t0, to, rows, closes);
      es', s' := es, s;
    } else {
      var e1, s1 := Tick(es, s, c, ttl, from, t0, t, to, rows, closes);
      es', s' := Ticks(e1, s1, c, ttl, from, t, t + ttl, to, rows + 1, closes, total);
    }
  }

  /** Some run of events one after the other between `from` and `to` has so many closes that
      clear c's key, and ends with so many work items of c. */
  ghost predicate CanHave(c: ComponentId, ttl: int, from: int, to: int, closes: nat, rows: nat) {
    exists es ::
      && Chronological(es, from, to) && Closes(Stimuli(EMPTY, es, c, ttl)) == closes
      && |Summaries(Run(EMPTY, es, ttl).items, c)| == rows
  }

  /** Over a time T the most work items c can have is exactly floor(T / ttl) + 1 + closes. */
  lemma OverTimeIsExact(c: ComponentId, ttl: int, from: int, to: int, closes: nat, rows: nat)
    requires ttl > 0 && from <= to
    ensures CanHave(c, ttl, from, to, closes, rows) ==> rows <= (to - from) / ttl + 1 + closes
    ensures (to - from) / ttl >= 0 && CanHave(c, ttl, from, to, closes, (to - from) / ttl + 1 + closes)
  {
    RoomIsQuotient(from, to, ttl);
    forall es | Chronological(es, from, to) && Closes(Stimuli(EMPTY, es, c, ttl)) == closes
      ensures |Summaries(Run(EMPTY, es, ttl).items, c)| <= (to - from) / ttl + 1 + closes
    {
      WorkItemsOverTime(es, c, ttl, from, to);
    }
    var es, s := Closings(c, ttl, from, closes);
    es, s := Ticks(es, s, c, ttl, from, from, from, to, closes, closes, closes + Room(from, to, ttl));
    assert Made(es, s, c, ttl, from, to, closes + Room(from, to, ttl), closes);
  }
}
