/** How many work items a component can get is known exactly: for every number of workers,
    of removals of its key and of failed calls some run reaches the bound. */
module Tightness {
  import opened Types
  import opened Debouncer
  import opened DebouncerInvariants
  import opened SoloWorker
  import DebouncerGuarantees

  // ---------- What failures add ----------

  /** Behind a missing key, each worker that has not fallen back since the removal is a
      claim in reserve; and each failure may buy one more. */
  ghost predicate ReserveOk(s: World, c: ComponentId) {
    var claims := At(s.claims.wins, c) + At(s.claims.misses, c);
    var most := 1 + PerRemoval(|s.workers|, At(s.claims.removals, c)) + At(s.failures.all, c);
    if c in s.dedup then claims <= most
    else claims == 0 || claims + |s.workers| <= most + Count(s.workers, IsFalling(c))
  }

  lemma AdvanceKeepsReserve(s: World, w: nat, c: ComponentId)
    requires ReserveOk(s, c) && FirstWinOk(s, c) && w < |s.workers|
    ensures ReserveOk(Advanced(s, w), c)
  {
    var k := s.workers[w];
    CountMove(s.workers, w, Resumed(s, k), IsFalling(c));
    CountBounds(s.workers, IsFalling(c));
    CountBounds(s.workers, IsLost(c));
    StepFalling(s, k, c);
    StepClaims(s, k, c);
    StepDedup(s, k, c);
    if k.Stored? {
      CountShort(s.workers, IsFalling(c), w);
    }
  }

  lemma VanishKeepsReserve(s: World, d: ComponentId, c: ComponentId)
    requires ReserveOk(s, c) && d in s.dedup
    ensures ReserveOk(Vanished(s, d), c)
  {
  }

  lemma FailKeepsReserve(s: World, w: nat, c: ComponentId)
    requires ReserveOk(s, c) && w < |s.workers| && CanFail(s.workers[w])
    ensures ReserveOk(Failed(s, w), c)
  {
    CountMove(s.workers, w, Idle, IsFalling(c));
  }

  lemma EventKeepsReserve(s: World, e: Event, c: ComponentId)
    requires ReserveOk(s, c) && FirstWinOk(s, c)
    ensures ReserveOk(Next(s, e), c)
  {
    match e {
      case Advance(w) => if w < |s.workers| { AdvanceKeepsReserve(s, w, c); }
      case Fail(w) => if w < |s.workers| && CanFail(s.workers[w]) { FailKeepsReserve(s, w, c); }
      case Remove(d) => if d in s.dedup { VanishKeepsReserve(s, d, c); }
      case _ =>
    }
  }

  lemma {:induction false} RunKeepsReserve(s: World, es: seq<Event>, c: ComponentId)
    requires Inv(s) && ReserveOk(s, c)
    ensures Inv(Run(s, es)) && ReserveOk(Run(s, es), c) && |Run(s, es).workers| == |s.workers|
    decreases |es|
  {
    if es != [] {
      assert ClaimsOk(s, c);
      EventKeepsReserve(s, es[0], c);
      EventKeepsInv(s, es[0]);
      RunKeepsReserve(Next(s, es[0]), es[1..], c);
    }
  }

  /** Component c has at most one work item, n more for each removal of its key, and one
      more for each failed call. */
  lemma FailuresBuyRows(n: nat, maxsize: nat, threshold: real, es: seq<Event>, c: ComponentId)
    ensures var s := Run(Init(n, maxsize, threshold), es);
      Rows(s.items, c) <= 1 + n * At(s.claims.removals, c) + At(s.failures.all, c)
  {
    InitInv(n, maxsize, threshold);
    RunKeepsReserve(Init(n, maxsize, threshold), es, c);
    var s := Run(Init(n, maxsize, threshold), es);
    assert RowsOk(s, c) by { assert ClaimsOk(s, c); }
    CountBounds(s.workers, IsFalling(c));
    PerRemovalIsProduct(n, At(s.claims.removals, c));
  }

  // ---------- Stages of the runs that reach the bounds ----------

  /** Between two events of a staged run a worker rests, is about to look c's key up, or is
      about to set it to its fallback row. */
  datatype Pose = AtRest | AtLookup | AtRefill

  predicate InPose(k: Worker, c: ComponentId, pose: Pose) {
    match pose
    case AtRest => k.Idle?
    case AtLookup => k.Lost? && k.sig.component == c
    case AtRefill => k.Refilling? && k.sig.component == c
  }

  /** The first m of n workers are in one pose, the others in another, and nothing is queued. */
  ghost predicate Stage(s: World, n: nat, c: ComponentId, m: nat, front: Pose, back: Pose, present: bool) {
    && |s.workers| == n && m <= n && s.ingest.threshold > 0.0 && s.ingest.queue == []
    && (c in s.dedup <==> present)
    && (forall w :: 0 <= w < m ==> InPose(s.workers[w], c, front))
    && (forall w :: m <= w < n ==> InPose(s.workers[w], c, back))
  }

  /** How far s' is from s: so many more rows of c, removals of its key, and failures. */
  ghost predicate Gained(s: World, s': World, c: ComponentId, rows: nat, removals: nat, failures: nat) {
    && Rows(s'.items, c) == Rows(s.items, c) + rows
    && At(s'.claims.removals, c) == At(s.claims.removals, c) + removals
    && At(s'.failures.all, c) == At(s.failures.all, c) + failures
  }

  /** While the key is there, the next resting worker gets a signal and is refused the claim. */
  lemma LoseOne(s: World, n: nat, c: ComponentId, m: nat) returns (last: World, es: seq<Event>)
    requires Stage(s, n, c, m, AtLookup, AtRest, true) && m < n
    ensures last == Run(s, es) && Stage(last, n, c, m + 1, AtLookup, AtRest, true) && Gained(s, last, c, 0, 0, 0)
  {
    var s1, e1 := Receive(s, m, SignalFor(c));
    var e2;
    last, e2 := InsertAndClaim(s1, m);
    es := e1 + e2;
    RunAppend(s, e1, e2);
  }

  lemma {:induction false} LoseAll(s: World, n: nat, c: ComponentId, m: nat) returns (last: World, es: seq<Event>)
    requires Stage(s, n, c, m, AtLookup, AtRest, true)
    ensures last == Run(s, es) && Stage(last, n, c, n, AtLookup, AtRest, true) && Gained(s, last, c, 0, 0, 0)
    decreases n - m
  {
    if m == n {
      last, es := s, [];
    } else {
      var s1, e1 := LoseOne(s, n, c, m);
      var e2;
      last, e2 := LoseAll(s1, n, c, m + 1);
      es := e1 + e2;
      RunAppend(s, e1, e2);
    }
  }

  /** Without the key, the last of the losers falls back and inserts a row. */
  lemma InsertOne(s: World, n: nat, c: ComponentId, m: nat) returns (last: World, es: seq<Event>)
    requires Stage(s, n, c, m, AtLookup, AtRefill, false) && m > 0
    ensures last == Run(s, es) && Stage(last, n, c, m - 1, AtLookup, AtRefill, false) && Gained(s, last, c, 1, 0, 0)
  {
    last, es := FallBack(s, m - 1);
    RowsAppend(s.items, NewItem(s.workers[m - 1].sig), c);
  }

  /** All of them do. */
  lemma {:induction false} InsertAll(s: World, n: nat, c: ComponentId, m: nat) returns (last: World, es: seq<Event>)
    requires Stage(s, n, c, m, AtLookup, AtRefill, false)
    ensures last == Run(s, es) && Stage(last, n, c, n, AtRefill, AtRest, false) && Gained(s, last, c, m, 0, 0)
    decreases m
  {
    if m == 0 {
      last, es := s, [];
    } else {
      var s1, e1 := InsertOne(s, n, c, m);
      var e2;
      last, e2 := InsertAll(s1, n, c, m - 1);
      es := e1 + e2;
      RunAppend(s, e1, e2);
    }
  }

  /** The last of the workers that fell back sets the key and finishes. */
  lemma FinishOne(s: World, n: nat, c: ComponentId, m: nat, present: bool) returns (last: World, es: seq<Event>)
    requires Stage(s, n, c, m, AtRefill, AtRest, present) && m > 0
    ensures last == Run(s, es) && Stage(last, n, c, m - 1, AtRefill, AtRest, true) && Gained(s, last, c, 0, 0, 0)
  {
    var s1, e1 := Refill(s, m - 1);
    var e2;
    last, e2 := LinkAndMeter(s1, m - 1);
    es := e1 + e2;
    RunAppend(s, e1, e2);
  }

  lemma {:induction false} FinishAll(s: World, n: nat, c: ComponentId, m: nat, present: bool)
      returns (last: World, es: seq<Event>)
    requires Stage(s, n, c, m, AtRefill, AtRest, present) && (m > 0 || present)
    ensures last == Run(s, es) && Stage(last, n, c, 0, AtLookup, AtRest, true) && Gained(s, last, c, 0, 0, 0)
    decreases m
  {
    if m == 0 {
      last, es := s, [];
    } else {
      var s1, e1 := FinishOne(s, n, c, m, present);
      var e2;
      last, e2 := FinishAll(s1, n, c, m - 1, true);
      es := e1 + e2;
      RunAppend(s, e1, e2);
    }
  }

  /** Without the key, a resting worker gets a signal, wins the claim and inserts a row. */
  lemma WinAndInsert(s: World, n: nat, c: ComponentId, m: nat, front: Pose) returns (last: World, es: seq<Event>)
    requires Stage(s, n, c, m, front, AtRest, false) && m < n
    ensures last == Run(s, es) && Gained(s, last, c, 1, 0, 0)
    ensures last.ingest.queue == [] && last.ingest.threshold > 0.0 && c in last.dedup
    ensures |last.workers| == n && forall w :: 0 <= w < n && w != m ==> last.workers[w] == s.workers[w]
    ensures last.workers[m].Created? && last.workers[m].sig.component == c
  {
    var s1, e1 := Receive(s, m, SignalFor(c));
    var s2, e2 := InsertAndClaim(s1, m);
    RunAppend(s, e1, e2);
    var e3;
    last, e3 := CreateRow(s2, m);
    es := e1 + e2 + e3;
    RunAppend(s, e1 + e2, e3);
    RowsAppend(s.items, NewItem(SignalFor(c)), c);
  }

  /** ... and finishes. */
  lemma WinAndFinish(s: World, n: nat, c: ComponentId, m: nat, front: Pose) returns (last: World, es: seq<Event>)
    requires Stage(s, n, c, m, front, AtRest, false) && m < n
    ensures last == Run(s, es) && Stage(last, n, c, m, front, AtRest, true) && Gained(s, last, c, 1, 0, 0)
  {
    var s1, e1 := WinAndInsert(s, n, c, m, front);
    var s2, e2 := Swap(s1, m);
    RunAppend(s, e1, e2);
    var s3, e3 := Announce(s2, m);
    RunAppend(s, e1 + e2, e3);
    var e4;
    last, e4 := LinkAndMeter(s3, m);
    es := e1 + e2 + e3 + e4;
    RunAppend(s, e1 + e2 + e3, e4);
  }

  /** All n workers are refused the claim, the key goes, and all of them insert a row. */
  lemma LoseRemoveInsert(s: World, n: nat, c: ComponentId) returns (last: World, es: seq<Event>)
    requires Stage(s, n, c, 0, AtLookup, AtRest, true)
    ensures last == Run(s, es) && Stage(last, n, c, n, AtRefill, AtRest, false) && Gained(s, last, c, n, 1, 0)
  {
    var s1, e1 := LoseAll(s, n, c, 0);
    var s2, e2 := Next(s1, Remove(c)), [Remove(c)];
    RunOne(s1, Remove(c));
    RunAppend(s, e1, e2);
    var e3;
    last, e3 := InsertAll(s2, n, c, n);
    es := e1 + e2 + e3;
    RunAppend(s, e1 + e2, e3);
  }

  /** One removal and no failure: n more rows. */
  lemma CleanRemoval(s: World, n: nat, c: ComponentId) returns (last: World, es: seq<Event>)
    requires Stage(s, n, c, 0, AtLookup, AtRest, true) && n > 0
    ensures last == Run(s, es) && Stage(last, n, c, 0, AtLookup, AtRest, true) && Gained(s, last, c, n, 1, 0)
  {
    var s1, e1 := LoseRemoveInsert(s, n, c);
    var e2;
    last, e2 := FinishAll(s1, n, c, n, false);
    es := e1 + e2;
    RunAppend(s, e1, e2);
  }

  /** One removal and one failed SET: the worker it sets free wins the claim, n + 1 more rows. */
  lemma FailedRemoval(s: World, n: nat, c: ComponentId) returns (last: World, es: seq<Event>)
    requires Stage(s, n, c, 0, AtLookup, AtRest, true) && n > 0
    ensures last == Run(s, es) && Stage(last, n, c, 0, AtLookup, AtRest, true) && Gained(s, last, c, n + 1, 1, 1)
  {
    var s1, e1 := LoseRemoveInsert(s, n, c);
    var s2, e2 := FailOne(s1, n - 1);
    RunAppend(s, e1, e2);
    var s3, e3 := WinAndFinish(s2, n, c, n - 1, AtRefill);
    RunAppend(s, e1 + e2, e3);
    var e4;
    last, e4 := FinishAll(s3, n, c, n - 1, true);
    es := e1 + e2 + e3 + e4;
    RunAppend(s, e1 + e2 + e3, e4);
  }

  /** One failure that changes nothing else: the document of a new signal is not inserted. */
  lemma IdleFailure(s: World, n: nat, c: ComponentId) returns (last: World, es: seq<Event>)
    requires Stage(s, n, c, 0, AtLookup, AtRest, true) && n > 0
    ensures last == Run(s, es) && Stage(last, n, c, 0, AtLookup, AtRest, true) && Gained(s, last, c, 0, 0, 1)
  {
    var s1, e1 := Receive(s, 0, SignalFor(c));
    var e2;
    last, e2 := FailOne(s1, 0);
    es := e1 + e2;
    RunAppend(s, e1, e2);
  }

  function Min(a: nat, b: nat): nat {
    if a < b then a else b
  }

  /** All workers rest, the key is there, and so many rows, removals and failures of c are behind. */
  ghost predicate Reached(s: World, n: nat, c: ComponentId, r: nat, f: nat) {
    && Stage(s, n, c, 0, AtLookup, AtRest, true)
    && At(s.claims.removals, c) == r && At(s.failures.all, c) == f
    && Rows(s.items, c) == 1 + PerRemoval(n, r) + Min(r, f)
  }

  lemma FirstRow(n: nat, maxsize: nat, threshold: real, c: ComponentId) returns (last: World, es: seq<Event>)
    requires n > 0 && threshold > 0.0
    ensures last == Run(Init(n, maxsize, threshold), es) && Reached(last, n, c, 0, 0)
  {
    var start := Init(n, maxsize, threshold);
    last, es := WinAndFinish(start, n, c, 0, AtLookup);
    assert Gained(start, last, c, 1, 0, 0);
  }

  /** One removal more, or one failure more that changes nothing, or both together. */
  lemma OneMore(s: World, n: nat, c: ComponentId, r: nat, f: nat, r': nat, f': nat)
      returns (last: World, es: seq<Event>)
    requires Reached(s, n, c, r, f) && n > 0
    requires (r < r' <==> f' <= r') && (f < f' <==> f' >= r') && r <= r' <= r + 1 && f <= f' <= f + 1
    ensures last == Run(s, es) && Reached(last, n, c, r', f')
  {
    if r == r' {
      last, es := IdleFailure(s, n, c);
    } else if f < f' {
      last, es := FailedRemoval(s, n, c);
    } else {
      last, es := CleanRemoval(s, n, c);
    }
  }

  /** The run with r removals and f failures. */
  lemma {:induction false} LongRun(s: World, n: nat, c: ComponentId, r: nat, f: nat)
      returns (last: World, es: seq<Event>)
    requires n > 0 && Reached(s, n, c, 0, 0)
    ensures last == Run(s, es) && Reached(last, n, c, r, f)
    decreases r + f
  {
    if r == 0 && f == 0 {
      last, es := s, [];
    } else {
      var r0: nat, f0: nat := if f > r then r else r - 1, if f >= r then f - 1 else f;
      var s1, e1 := LongRun(s, n, c, r0, f0);
      var s2, e2 := OneMore(s1, n, c, r0, f0, r, f);
      RunAppend(s, e1, e2);
      last, es := s2, e1 + e2;
    }
  }

  /** Some run of n workers has r removals of c's key and f failed calls for c, and ends
      with this many work items of c. */
  ghost predicate CanReach(n: nat, maxsize: nat, threshold: real, c: ComponentId, r: nat, f: nat, rows: nat) {
    exists es ::
      var s := Run(Init(n, maxsize, threshold), es);
      At(s.claims.removals, c) == r && At(s.failures.all, c) == f && Rows(s.items, c) == rows
  }

  /** With n > 0 workers, r removals of c's key and f failed calls, the most work items c can
      get is exactly 1 + n * r + min(r, f): no run exceeds it, and one reaches it. */
  lemma BoundIsExact(n: nat, maxsize: nat, threshold: real, c: ComponentId, r: nat, f: nat, rows: nat)
    requires n > 0 && threshold > 0.0
    ensures CanReach(n, maxsize, threshold, c, r, f, rows) ==> rows <= 1 + n * r + Min(r, f)
    ensures CanReach(n, maxsize, threshold, c, r, f, 1 + n * r + Min(r, f))
  {
    forall es ensures var s := Run(Init(n, maxsize, threshold), es);
      At(s.claims.removals, c) == r && At(s.failures.all, c) == f ==> Rows(s.items, c) <= 1 + n * r + Min(r, f)
    {
      DebouncerGuarantees.WorkItemsBounded(n, maxsize, threshold, es, c);
      FailuresBuyRows(n, maxsize, threshold, es, c);
      DebouncerGuarantees.OneFactorMore(n, r);
    }
    PerRemovalIsProduct(n, r);
    var s1, e1 := FirstRow(n, maxsize, threshold, c);
    var s2, e2 := LongRun(s1, n, c, r, f);
    RunAppend(Init(n, maxsize, threshold), e1, e2);
    assert Run(Init(n, maxsize, threshold), e1 + e2) == s2;
  }
}
