/** The reference for debouncing: group one component's signals into tumbling windows.
    A worker looks at the key twice, to claim it and, if it is taken, to read it; a
    signal joins the open window if both looks come before the window's deadline. */
module Windows {
  import opened Types

  /** What component c experiences, in order: a signal with the times of its claim, of its
      second Redis call and of the fallback's SET; or a close. */
  datatype Stimulus = Arrive(sig: Signal, claim: int, look: int, refill: int) | Close

  /** One window: facts of its first signal, and how many signals it counts. */
  datatype Group = Group(startTime: int, kind: ComponentType, severity: Severity, size: nat)

  /** An open window. If the claim expired before the id was swapped in, the key holds a
      placeholder until the deadline, and signals that join are lost. */
  datatype Window = Window(deadline: int, swapped: bool)

  /** The window a signal opens: behind a window it could not claim but found gone, by the
      fallback; otherwise by its claim, renewed by the swap if that still finds it. */
  function Opened(s: Stimulus, prev: Option<Window>, ttl: int): Window
    requires s.Arrive?
  {
    if prev.Some? && s.claim < prev.value.deadline then Window(s.refill + ttl, true)
    else if s.look < s.claim + ttl then Window(s.look + ttl, true)
    else Window(s.claim + ttl, false)
  }

  predicate Joins(s: Stimulus, deadline: int) {
    s.Arrive? && s.claim < deadline && s.look < deadline
  }

  /** How many of the leading stimuli join a window with this deadline. */
  function Extent(ss: seq<Stimulus>, deadline: int): (n: nat)
    ensures n <= |ss|
  {
    if ss == [] || !Joins(ss[0], deadline) then 0 else 1 + Extent(ss[1..], deadline)
  }

  function FirstOf(s: Stimulus, size: nat): Group
    requires s.Arrive?
  {
    Group(s.sig.timestamp, s.sig.kind, s.sig.severity, size)
  }

  /** The windows of ss, when the window before them is `prev`. */
  function GroupBy(ss: seq<Stimulus>, prev: Option<Window>, ttl: int): seq<Group>
    decreases |ss|
  {
    if ss == [] then []
    else if ss[0].Close? then GroupBy(ss[1..], None, ttl)
    else
      var w := Opened(ss[0], prev, ttl);
      var n := 1 + Extent(ss[1..], w.deadline);
      [FirstOf(ss[0], if w.swapped then n else 1)] + GroupBy(ss[n..], Some(w), ttl)
  }

  /** The last window, unless a close has ended it. */
  function LastWindow(ss: seq<Stimulus>, prev: Option<Window>, ttl: int): Option<Window>
    decreases |ss|
  {
    if ss == [] then prev
    else if ss[0].Close? then LastWindow(ss[1..], None, ttl)
    else
      var w := Opened(ss[0], prev, ttl);
      LastWindow(ss[1 + Extent(ss[1..], w.deadline)..], Some(w), ttl)
  }

  function Widened(gs: seq<Group>): seq<Group>
    requires gs != []
  {
    gs[|gs| - 1 := gs[|gs| - 1].(size := gs[|gs| - 1].size + 1)]
  }

  // ---------- One more stimulus ----------

  /** One more stimulus at the end: a close ends the last window; a signal that joins it
      widens it, or is lost to its placeholder; any other signal opens a new one. */
  ghost predicate Appends(ss: seq<Stimulus>, s: Stimulus, prev: Option<Window>, ttl: int) {
    var w, before, after := LastWindow(ss, prev, ttl), GroupBy(ss, prev, ttl), GroupBy(ss + [s], prev, ttl);
    var next := LastWindow(ss + [s], prev, ttl);
    && (w.Some? ==> before != [])
    && if s.Close? then
         after == before && next == None
       else if w.Some? && Joins(s, w.value.deadline) then
         before != [] && next == w && after == (if w.value.swapped then Widened(before) else before)
       else
         next == Some(Opened(s, w, ttl)) && after == before + [FirstOf(s, 1)]
  }

  lemma {:induction false} ExtentAppend(ss: seq<Stimulus>, s: Stimulus, deadline: int)
    ensures Extent(ss + [s], deadline)
      == if Extent(ss, deadline) == |ss| && Joins(s, deadline) then |ss| + 1 else Extent(ss, deadline)
  {
    if ss == [] {
      assert ss + [s] == [s];
    } else {
      assert (ss + [s])[1..] == ss[1..] + [s];
      ExtentAppend(ss[1..], s, deadline);
    }
  }

  lemma SingleStimulus(s: Stimulus, prev: Option<Window>, ttl: int)
    ensures s.Close? ==> GroupBy([s], prev, ttl) == [] && LastWindow([s], prev, ttl) == None
    ensures s.Arrive? ==>
      GroupBy([s], prev, ttl) == [FirstOf(s, 1)] && LastWindow([s], prev, ttl) == Some(Opened(s, prev, ttl))
  {
    assert [s][1..] == [];
  }

  /** The first window of a list that starts with a signal, and what is behind it. */
  lemma FirstWindow(ss: seq<Stimulus>, prev: Option<Window>, ttl: int, w: Window, n: nat)
    requires ss != [] && ss[0].Arrive? && w == Opened(ss[0], prev, ttl) && n == 1 + Extent(ss[1..], w.deadline)
    ensures GroupBy(ss, prev, ttl) == [FirstOf(ss[0], if w.swapped then n else 1)] + GroupBy(ss[n..], Some(w), ttl)
    ensures LastWindow(ss, prev, ttl) == LastWindow(ss[n..], Some(w), ttl)
  {
  }

  lemma WidenBehind(g: Group, gs: seq<Group>)
    requires gs != []
    ensures Widened([g] + gs) == [g] + Widened(gs)
  {
  }

  lemma WidenLast(gs: seq<Group>, g: Group)
    ensures Widened(gs + [g]) == gs + [g.(size := g.size + 1)]
  {
  }

  /** The first window is not the last: appending happens behind it. */
  lemma AppendBehindFirst(ss: seq<Stimulus>, s: Stimulus, prev: Option<Window>, ttl: int, w: Window, n: nat)
    requires ss != [] && ss[0].Arrive? && w == Opened(ss[0], prev, ttl)
    requires n == 1 + Extent(ss[1..], w.deadline) < |ss| && Appends(ss[n..], s, Some(w), ttl)
    ensures Appends(ss, s, prev, ttl)
  {
    var all, rest := ss + [s], ss[n..];
    assert all[1..] == ss[1..] + [s];
    assert all[n..] == rest + [s];
    ExtentAppend(ss[1..], s, w.deadline);
    FirstWindow(ss, prev, ttl, w, n);
    FirstWindow(all, prev, ttl, w, n);
    var g := FirstOf(ss[0], if w.swapped then n else 1);
    if GroupBy(rest, Some(w), ttl) != [] {
      WidenBehind(g, GroupBy(rest, Some(w), ttl));
    }
  }

  /** The first window is the last: the stimulus joins it, or stands behind it. */
  lemma AppendToFirst(ss: seq<Stimulus>, s: Stimulus, prev: Option<Window>, ttl: int, w: Window)
    requires ss != [] && ss[0].Arrive? && w == Opened(ss[0], prev, ttl) && 1 + Extent(ss[1..], w.deadline) == |ss|
    ensures Appends(ss, s, prev, ttl)
  {
    var all, n := ss + [s], |ss|;
    assert all[1..] == ss[1..] + [s];
    assert ss[n..] == [];
    ExtentAppend(ss[1..], s, w.deadline);
    FirstWindow(ss, prev, ttl, w, n);
    if Joins(s, w.deadline) {
      assert all[n + 1..] == [];
      FirstWindow(all, prev, ttl, w, n + 1);
    } else {
      assert all[n..] == [s];
      FirstWindow(all, prev, ttl, w, n);
      SingleStimulus(s, Some(w), ttl);
    }
  }

  lemma {:induction false} GroupByAppend(ss: seq<Stimulus>, s: Stimulus, prev: Option<Window>, ttl: int)
    requires ss != [] || prev.None?
    ensures Appends(ss, s, prev, ttl)
    decreases |ss|
  {
    if ss == [] {
      SingleStimulus(s, prev, ttl);
      assert ss + [s] == [s];
    } else if ss[0].Close? {
      GroupByAppend(ss[1..], s, None, ttl);
      assert (ss + [s])[1..] == ss[1..] + [s];
    } else {
      var w := Opened(ss[0], prev, ttl);
      var n := 1 + Extent(ss[1..], w.deadline);
      if n < |ss| {
        GroupByAppend(ss[n..], s, Some(w), ttl);
        AppendBehindFirst(ss, s, prev, ttl, w, n);
      } else {
        AppendToFirst(ss, s, prev, ttl, w);
      }
    }
  }

  // ---------- How many windows there can be ----------

  function Closes(ss: seq<Stimulus>): nat {
    if ss == [] then 0 else (if ss[0].Close? then 1 else 0) + Closes(ss[1..])
  }

  /** Signals are processed one after the other, between `from` and `to`. */
  ghost predicate Within(ss: seq<Stimulus>, from: int, to: int) {
    && (forall i :: 0 <= i < |ss| && ss[i].Arrive? ==> from <= ss[i].claim <= ss[i].look <= ss[i].refill <= to)
    && (forall i, j :: 0 <= i < j < |ss| && ss[i].Arrive? && ss[j].Arrive? ==> ss[i].refill <= ss[j].claim)
  }

  lemma {:induction false} ClosesDrop(ss: seq<Stimulus>, n: nat)
    requires n <= |ss|
    ensures Closes(ss[n..]) <= Closes(ss)
  {
    if n > 0 {
      assert ss[1..][n - 1..] == ss[n..];
      ClosesDrop(ss[1..], n - 1);
    }
  }

  lemma WithinDrop(ss: seq<Stimulus>, n: nat, from: int, to: int)
    requires Within(ss, from, to) && 0 < n <= |ss|
    ensures Within(ss[n..], from, to)
    ensures ss[0].Arrive? ==> Within(ss[n..], ss[0].refill, to)
  {
    assert forall i :: 0 <= i < |ss[n..]| ==> ss[n..][i] == ss[n + i];
  }

  lemma {:induction false} ExtentStops(ss: seq<Stimulus>, deadline: int)
    ensures var n := Extent(ss, deadline); n < |ss| ==> !Joins(ss[n], deadline)
  {
    if ss != [] && Joins(ss[0], deadline) {
      ExtentStops(ss[1..], deadline);
    }
  }

  /** How many windows fit when the next cannot open before `start`. */
  function Room(start: int, to: int, ttl: int): nat
    requires ttl > 0
    decreases (to - start)
  {
    if start > to then 0 else 1 + Room(start + ttl, to, ttl)
  }

  lemma {:induction false} RoomShrinks(start: int, later: int, to: int, ttl: int)
    requires ttl > 0 && start <= later
    ensures Room(later, to, ttl) <= Room(start, to, ttl)
    decreases (to - later)
  {
    if later <= to {
      RoomShrinks(start + ttl, later + ttl, to, ttl);
    }
  }

  lemma QuotientAtLeast(x: int, d: int, q: int)
    requires d > 0 && d * q <= x
    ensures q <= x / d
  {
    var p := x / d;
    assert x == d * p + x % d;
    assert d * q == d * p + d + d * (q - p - 1);
    assert q - p - 1 >= 0 ==> d * (q - p - 1) >= 0;
  }

  lemma OneMoreQuotient(x: int, d: int)
    requires d > 0
    ensures x / d == (x - d) / d + 1
  {
    var p, q := x / d, (x - d) / d;
    assert x == d * p + x % d;
    assert x - d == d * q + (x - d) % d;
    assert d * (q + 1) == d * q + d;
    assert d * (p - 1) == d * p - d;
    QuotientAtLeast(x, d, q + 1);
    QuotientAtLeast(x - d, d, p - 1);
  }

  /** The room of a stretch of time is its length over `ttl`, rounded down, plus one. */
  lemma {:induction false} RoomIsQuotient(start: int, to: int, ttl: int)
    requires ttl > 0 && start <= to
    ensures Room(start, to, ttl) == (to - start) / ttl + 1
    decreases (to - start)
  {
    if start + ttl <= to {
      RoomIsQuotient(start + ttl, to, ttl);
      OneMoreQuotient(to - start, ttl);
    } else {
      SmallQuotient(to - start, ttl);
    }
  }

  lemma SmallQuotient(x: int, d: int)
    requires 0 <= x < d
    ensures x / d == 0
  {
  }

  /** Where the next window can open at the earliest. */
  function Earliest(prev: Option<Window>, from: int): int {
    if prev.Some? && prev.value.deadline > from then prev.value.deadline else from
  }

  /** A window opens no earlier than the last one's deadline, and then lasts at least `ttl`. */
  lemma OpensLate(s: Stimulus, prev: Option<Window>, ttl: int, from: int, to: int) returns (opening: int)
    requires ttl > 0 && s.Arrive? && from <= s.claim <= s.look <= s.refill <= to
    requires prev.Some? ==> !Joins(s, prev.value.deadline)
    ensures Earliest(prev, from) <= opening <= to
    ensures opening + ttl <= Opened(s, prev, ttl).deadline <= s.refill + ttl
  {
    opening := if prev.Some? && s.claim < prev.value.deadline then s.look else s.claim;
  }

  /** Windows opened in a row are a full `ttl` apart or separated by a close. */
  lemma {:induction false} WindowsBounded(ss: seq<Stimulus>, prev: Option<Window>, ttl: int, from: int, to: int)
    requires ttl > 0 && Within(ss, from, to)
    requires prev.Some? ==> prev.value.deadline <= from + ttl && (ss != [] ==> !Joins(ss[0], prev.value.deadline))
    ensures |GroupBy(ss, prev, ttl)| <= Room(Earliest(prev, from), to, ttl) + Closes(ss)
    decreases |ss|
  {
    if ss == [] {
    } else if ss[0].Close? {
      WithinDrop(ss, 1, from, to);
      WindowsBounded(ss[1..], None, ttl, from, to);
      RoomShrinks(Earliest(prev, from), from + ttl, to, ttl);
    } else {
      var w := Opened(ss[0], prev, ttl);
      var n := 1 + Extent(ss[1..], w.deadline);
      var opening := OpensLate(ss[0], prev, ttl, from, to);
      ExtentStops(ss[1..], w.deadline);
      ClosesDrop(ss, n);
      WithinDrop(ss, n, from, to);
      FirstWindow(ss, prev, ttl, w, n);
      WindowsBounded(ss[n..], Some(w), ttl, ss[0].refill, to);
      RoomShrinks(opening + ttl, Earliest(Some(w), ss[0].refill), to, ttl);
      RoomShrinks(Earliest(prev, from), opening, to, ttl);
    }
  }
}
