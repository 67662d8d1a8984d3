/** Everything a complete run can have done to one component: which numbers of key
    removals, failed calls, counted signals and lost signals can occur together. */
module DebouncerEndings {
  import opened Types
  import opened Ingestion
  import opened Debouncer
  import opened DebouncerInvariants
  import opened DebouncerGuarantees
  import opened DebouncerPlaceholders
  import opened SoloWorker

  /** How often c's key was removed and calls for c failed, and how many signals its work
      items count and placeholder reads lost. */
  datatype Ending = Ending(removed: nat, failed: nat, counted: nat, lost: nat)

  const NOTHING: Ending := Ending(0, 0, 0, 0)

  function EndingOf(s: World, c: ComponentId): Ending {
    Ending(At(s.claims.removals, c), At(s.failures.all, c), Counted(s.items, c), At(s.claims.placeholderReads, c))
  }

  /** Some complete run of n workers ends like this. */
  ghost predicate CanEnd(n: nat, maxsize: nat, threshold: real, c: ComponentId, o: Ending) {
    exists es ::
      Complete(Run(Init(n, maxsize, threshold), es)) && EndingOf(Run(Init(n, maxsize, threshold), es), c) == o
  }

  /** Nothing happened; or some worker got signals, each removal is paid for by a counted
      signal or a failure, and a loss needs a failed call or a second worker beside one
      that counts. A lone worker behind an unremoved placeholder counts one at most. */
  predicate Possible(n: nat, threshold: real, o: Ending) {
    || o == NOTHING
    || (&& n > 0 && threshold > 0.0 && o.removed <= o.counted + o.failed
        && (o.lost > 0 ==> o.failed > 0 || (n >= 2 && o.counted > 0))
        && (o.lost > 0 && o.removed == 0 && o.counted >= 2 ==> n >= 2))
  }

  // ---------- No run ends otherwise ----------

  lemma {:induction false} NothingGetsIn(s: World, es: seq<Event>)
    requires s.ingest.threshold <= 0.0 && s.flow.arrivals == []
    ensures Run(s, es).flow.arrivals == []
    decreases |es|
  {
    if es != [] {
      NothingAccepted(s.ingest);
      NothingGetsIn(Next(s, es[0]), es[1..]);
    }
  }

  lemma {:induction false} CountedCoversRows(items: seq<WorkItem>, c: ComponentId)
    requires forall i :: 0 <= i < |items| ==> items[i].signalCount > 0
    ensures Rows(items, c) <= Counted(items, c)
  {
    if items != [] {
      CountedCoversRows(items[..|items| - 1], c);
    }
  }

  lemma {:induction false} RowsStartAtOne(s: World, es: seq<Event>)
    requires forall i :: 0 <= i < |s.items| ==> s.items[i].signalCount > 0
    ensures forall i :: 0 <= i < |Run(s, es).items| ==> Run(s, es).items[i].signalCount > 0
    decreases |es|
  {
    if es != [] {
      RowsStartAtOne(Next(s, es[0]), es[1..]);
    }
  }

  /** Whatever happened to c, a signal was fetched for it, by some worker from a queue that accepts. */
  lemma SomethingWasFetched(n: nat, maxsize: nat, threshold: real, c: ComponentId, es: seq<Event>)
    ensures var s := Run(Init(n, maxsize, threshold), es); var o := EndingOf(s, c);
      o.failed > 0 || o.counted > 0 || o.lost > 0 ==> n > 0 && threshold > 0.0
  {
    var start, s := Init(n, maxsize, threshold), Run(Init(n, maxsize, threshold), es);
    ReachableHolds(n, maxsize, threshold, es, c);
    assert ReceivedOk(s, c);
    if threshold <= 0.0 {
      NothingGetsIn(start, es);
    }
  }

  /** A complete run made a row for each claim that no failure took. */
  lemma ClaimsAreAccountedFor(s: World, c: ComponentId)
    requires Complete(s) && ClaimsOk(s, c) && SourceOk(s, c)
    ensures At(s.claims.wins, c) + At(s.claims.misses, c) <= Rows(s.items, c) + At(s.failures.all, c)
    ensures At(s.claims.removals, c) <= Rows(s.items, c) + At(s.failures.all, c)
    ensures At(s.claims.placeholderReads, c) > 0 ==> Rows(s.items, c) + At(s.failures.all, c) > 0
  {
    CompleteCounts(s, IsCreating(c));
  }

  lemma LoneWorkerCountsOne(s: World, c: ComponentId)
    requires ClaimsOk(s, c) && PlaceholdersOk(s, c) && |s.workers| <= 1
    requires At(s.claims.placeholderReads, c) > 0 && At(s.claims.removals, c) == 0
    ensures Counted(s.items, c) <= 1
  {
  }

  lemma EndingIsPossible(n: nat, maxsize: nat, threshold: real, c: ComponentId, es: seq<Event>)
    ensures var s := Run(Init(n, maxsize, threshold), es);
      Complete(s) ==> Possible(n, threshold, EndingOf(s, c))
  {
    var start, s := Init(n, maxsize, threshold), Run(Init(n, maxsize, threshold), es);
    ReachableHolds(n, maxsize, threshold, es, c);
    if Complete(s) {
      var o := EndingOf(s, c);
      assert ClaimsOk(s, c);
      RowsStartAtOne(start, es);
      CountedCoversRows(s.items, c);
      SomethingWasFetched(n, maxsize, threshold, c, es);
      ClaimsAreAccountedFor(s, c);
      if n <= 1 && o.lost > 0 {
        assert o.failed > 0;
        if o.removed == 0 {
          LoneWorkerCountsOne(s, c);
        }
      }
    }
  }

  // ---------- Moves that runs are made of ----------

  /** Between two moves c's key is free, names a work item of c, or holds the placeholder of
      an abandoned claim, and all workers are idle; or worker 0 holds the claim. */
  datatype Situation = Free | Named | Stuck | Held

  /** So much has happened to c; nothing is queued, and only worker 0 may be busy. */
  ghost predicate Tally(s: World, n: nat, c: ComponentId, o: Ending) {
    && |s.workers| == n && n > 0 && s.ingest.queue == [] && s.ingest.threshold > 0.0
    && (forall w :: 0 < w < n ==> s.workers[w].Idle?)
    && EndingOf(s, c) == o
  }

  predicate NamesItem(s: World, c: ComponentId) {
    c in s.dedup && s.dedup[c].Claimed? && IsItemOf(s.items, s.dedup[c].item, c)
  }

  ghost predicate In(s: World, n: nat, c: ComponentId, o: Ending, k: Situation) {
    && Tally(s, n, c, o)
    && match k
       case Free => s.workers[0].Idle? && c !in s.dedup
       case Named => s.workers[0].Idle? && NamesItem(s, c)
       case Stuck => s.workers[0].Idle? && HasPlaceholder(s, c)
       case Held => HoldsClaim(s, c)
  }

  datatype Move =
    | Claim            // a signal wins the free key
    | Read             // a signal loses the claim and reads the placeholder
    | Finish           // the claimer goes on to the end
    | Abandon          // its row is not created for good
    | AbandonWithRow   // its id is not swapped in for good
    | Attach           // a signal is counted in the item the key names
    | Refuse           // a signal's document is not inserted for good
    | Clear            // the key goes

  predicate Allowed(n: nat, k: Situation, m: Move) {
    match m
    case Claim => k == Free
    case Read => k == Stuck || (k == Held && n >= 2)
    case Finish => k == Held
    case Abandon => k == Held
    case AbandonWithRow => k == Held
    case Attach => k == Named
    case Refuse => k != Held
    case Clear => k == Named || k == Stuck
  }

  function Becomes(k: Situation, m: Move): Situation {
    match m
    case Claim => Held
    case Finish => Named
    case Abandon => Stuck
    case AbandonWithRow => Stuck
    case Clear => Free
    case _ => k
  }

  /** What `times` moves of the same kind add. */
  function Adds(o: Ending, m: Move, times: nat): Ending {
    match m
    case Claim => o
    case Read => o.(lost := o.lost + times)
    case Finish => o.(counted := o.counted + times)
    case Abandon => o.(failed := o.failed + times)
    case AbandonWithRow => o.(failed := o.failed + times, counted := o.counted + times)
    case Attach => o.(counted := o.counted + times)
    case Refuse => o.(failed := o.failed + times)
    case Clear => o.(removed := o.removed + times)
  }

  /** Worker 0 has won the claim and not inserted its row. */
  ghost predicate HoldsClaim(s: World, c: ComponentId)
    requires s.workers != []
  {
    s.workers[0].Won? && s.workers[0].sig.component == c && HasPlaceholder(s, c)
  }

  lemma PlayClaim(s: World, n: nat, c: ComponentId, o: Ending) returns (last: World, es: seq<Event>)
    requires Tally(s, n, c, o) && s.workers[0].Idle? && c !in s.dedup
    ensures last == Run(s, es) && Tally(last, n, c, o) && HoldsClaim(last, c)
  {
    var s1, e1 := Receive(s, 0, SignalFor(c));
    var e2;
    last, e2 := InsertAndClaim(s1, 0);
    es := e1 + e2;
    RunAppend(s, e1, e2);
  }

  /** Worker w gets a signal, loses the claim, and reads the placeholder. */
  lemma PlayRead(s: World, n: nat, c: ComponentId, o: Ending, w: nat) returns (last: World, es: seq<Event>)
    requires Tally(s, n, c, o) && w < n && s.workers[w].Idle? && HasPlaceholder(s, c)
    ensures last == Run(s, es) && Tally(last, n, c, o.(lost := o.lost + 1)) && HasPlaceholder(last, c)
    ensures last.workers[w].Idle? && (w != 0 ==> last.workers[0] == s.workers[0])
  {
    var s1, e1 := Receive(s, w, SignalFor(c));
    var s2, e2 := InsertAndClaim(s1, w);
    RunAppend(s, e1, e2);
    var e3;
    last, e3 := LookUpAndRaise(s2, w);
    es := e1 + e2 + e3;
    RunAppend(s, e1 + e2, e3);
  }

  /** Row, swap, announcement, link, metric. */
  lemma PlayFinish(s: World, n: nat, c: ComponentId, o: Ending) returns (last: World, es: seq<Event>)
    requires Tally(s, n, c, o) && HoldsClaim(s, c)
    ensures last == Run(s, es) && Tally(last, n, c, o.(counted := o.counted + 1))
    ensures last.workers[0].Idle? && NamesItem(last, c)
  {
    var s1, e1 := CreateRow(s, 0);
    RowsAppend(s.items, NewItem(s.workers[0].sig), c);
    var s2, e2 := Swap(s1, 0);
    RunAppend(s, e1, e2);
    var s3, e3 := Announce(s2, 0);
    RunAppend(s, e1 + e2, e3);
    var e4;
    last, e4 := LinkAndMeter(s3, 0);
    es := e1 + e2 + e3 + e4;
    RunAppend(s, e1 + e2 + e3, e4);
  }

  lemma PlayAbandonWithRow(s: World, n: nat, c: ComponentId, o: Ending) returns (last: World, es: seq<Event>)
    requires Tally(s, n, c, o) && HoldsClaim(s, c)
    ensures last == Run(s, es) && Tally(last, n, c, o.(failed := o.failed + 1, counted := o.counted + 1))
    ensures last.workers[0].Idle? && HasPlaceholder(last, c)
  {
    var s1, e1 := CreateRow(s, 0);
    RowsAppend(s.items, NewItem(s.workers[0].sig), c);
    var e2;
    last, e2 := FailOne(s1, 0);
    es := e1 + e2;
    RunAppend(s, e1, e2);
  }

  lemma PlayRefuse(s: World, n: nat, c: ComponentId, o: Ending) returns (last: World, es: seq<Event>)
    requires Tally(s, n, c, o) && s.workers[0].Idle?
    ensures last == Run(s, es) && Tally(last, n, c, o.(failed := o.failed + 1))
    ensures last.workers[0].Idle? && last.dedup == s.dedup && last.items == s.items
  {
    var s1, e1 := Receive(s, 0, SignalFor(c));
    var e2;
    last, e2 := FailOne(s1, 0);
    es := e1 + e2;
    RunAppend(s, e1, e2);
  }

  /** Worker 0 has lost the claim; it counts its signal in the key's work item. */
  lemma AttachAndFinish(s: World, n: nat, c: ComponentId, o: Ending) returns (last: World, es: seq<Event>)
    requires Tally(s, n, c, o) && NamesItem(s, c) && s.workers[0].Lost? && s.workers[0].sig.component == c
    ensures last == Run(s, es) && Tally(last, n, c, o.(counted := o.counted + 1))
    ensures last.workers[0].Idle? && NamesItem(last, c)
  {
    var i := s.dedup[c].item;
    RowsReplace(s.items, i, s.items[i].(signalCount := s.items[i].signalCount + 1), c);
    var s1, e1 := LookUpAndAttach(s, 0);
    assert s1.items == s.items[i := s.items[i].(signalCount := s.items[i].signalCount + 1)];
    assert EndingOf(s1, c) == o.(counted := o.counted + 1) && NamesItem(s1, c);
    var e2;
    last, e2 := LinkAndMeter(s1, 0);
    es := e1 + e2;
    RunAppend(s, e1, e2);
  }

  lemma PlayAttach(s: World, n: nat, c: ComponentId, o: Ending) returns (last: World, es: seq<Event>)
    requires Tally(s, n, c, o) && s.workers[0].Idle? && NamesItem(s, c)
    ensures last == Run(s, es) && Tally(last, n, c, o.(counted := o.counted + 1))
    ensures last.workers[0].Idle? && NamesItem(last, c)
  {
    var s1, e1 := Receive(s, 0, SignalFor(c));
    var s2, e2 := InsertAndClaim(s1, 0);
    RunAppend(s, e1, e2);
    var e3;
    last, e3 := AttachAndFinish(s2, n, c, o);
    es := e1 + e2 + e3;
    RunAppend(s, e1 + e2, e3);
  }

  /** Every allowed move can be played. */
  lemma Play(s: World, n: nat, c: ComponentId, o: Ending, k: Situation, m: Move) returns (last: World, es: seq<Event>)
    requires In(s, n, c, o, k) && Allowed(n, k, m)
    ensures last == Run(s, es) && In(last, n, c, Adds(o, m, 1), Becomes(k, m))
  {
    match m {
      case Claim => last, es := PlayClaim(s, n, c, o);
      case Read => last, es := PlayRead(s, n, c, o, if k == Held then 1 else 0);
      case Finish => last, es := PlayFinish(s, n, c, o);
      case Abandon => last, es := FailOne(s, 0);
      case AbandonWithRow => last, es := PlayAbandonWithRow(s, n, c, o);
      case Attach => last, es := PlayAttach(s, n, c, o);
      case Refuse => last, es := PlayRefuse(s, n, c, o);
      case Clear =>
        last, es := Next(s, Remove(c)), [Remove(c)];
        RunOne(s, Remove(c));
    }
  }

  // ---------- Every possible ending is reached ----------

  /** Where a list of moves leads from the start, and what it adds up to. */
  function Place(ms: seq<Move>): Situation {
    if ms == [] then Free else Becomes(Place(ms[..|ms| - 1]), ms[|ms| - 1])
  }

  function Sum(ms: seq<Move>): Ending {
    if ms == [] then NOTHING else Adds(Sum(ms[..|ms| - 1]), ms[|ms| - 1], 1)
  }

  predicate Legal(n: nat, ms: seq<Move>) {
    ms == [] || (Legal(n, ms[..|ms| - 1]) && Allowed(n, Place(ms[..|ms| - 1]), ms[|ms| - 1]))
  }

  ghost predicate Leads(n: nat, ms: seq<Move>, o: Ending, k: Situation) {
    Legal(n, ms) && Sum(ms) == o && Place(ms) == k
  }

  /** Every legal list of moves is a run. */
  lemma {:induction false} PlayAll(s: World, n: nat, c: ComponentId, ms: seq<Move>)
      returns (last: World, es: seq<Event>)
    requires In(s, n, c, NOTHING, Free) && Legal(n, ms)
    ensures last == Run(s, es) && In(last, n, c, Sum(ms), Place(ms))
  {
    if ms == [] {
      last, es := s, [];
    } else {
      var front := ms[..|ms| - 1];
      var s1, e1 := PlayAll(s, n, c, front);
      var s2, e2 := Play(s1, n, c, Sum(front), Place(front), ms[|ms| - 1]);
      RunAppend(s, e1, e2);
      last, es := s2, e1 + e2;
    }
  }

  lemma OneMove(n: nat, ms: seq<Move>, o: Ending, k: Situation, m: Move) returns (all: seq<Move>)
    requires Leads(n, ms, o, k) && Allowed(n, k, m)
    ensures Leads(n, all, Adds(o, m, 1), Becomes(k, m))
  {
    all := ms + [m];
    assert all[..|all| - 1] == ms;
  }

  /** A move that stays in its situation can be made any number of times. */
  lemma {:induction false} ManyMoves(n: nat, ms: seq<Move>, o: Ending, k: Situation, m: Move, times: nat)
      returns (all: seq<Move>)
    requires Leads(n, ms, o, k) && Allowed(n, k, m) && Becomes(k, m) == k
    ensures Leads(n, all, Adds(o, m, times), k)
  {
    if times == 0 {
      all := ms;
    } else {
      var most := ManyMoves(n, ms, o, k, m, times - 1);
      all := OneMove(n, most, Adds(o, m, times - 1), k, m);
    }
  }

  /** Without a removal to come: signals are counted, and failures do no harm. */
  lemma FromNamed(n: nat, ms: seq<Move>, o: Ending, goal: Ending) returns (all: seq<Move>)
    requires Leads(n, ms, o, Named) && o.lost == goal.lost
    requires o.removed == goal.removed && o.failed <= goal.failed && o.counted <= goal.counted
    ensures Leads(n, all, goal, Named)
  {
    all := ManyMoves(n, ms, o, Named, Attach, goal.counted - o.counted);
    all := ManyMoves(n, all, o.(counted := goal.counted), Named, Refuse, goal.failed - o.failed);
  }

  /** From a free key everything without further losses is reached, by a claim that ends
      well or badly for each removal. */
  lemma {:induction false} FromFree(n: nat, ms: seq<Move>, o: Ending, goal: Ending)
      returns (all: seq<Move>, k: Situation)
    requires Leads(n, ms, o, Free) && o.lost == goal.lost
    requires o.removed <= goal.removed && o.failed <= goal.failed && o.counted <= goal.counted
    requires goal.removed - o.removed <= goal.counted - o.counted + goal.failed - o.failed
    ensures Leads(n, all, goal, k) && k != Held
    decreases goal.removed - o.removed
  {
    if o.removed == goal.removed && o.counted == goal.counted {
      k := Free;
      all := ManyMoves(n, ms, o, Free, Refuse, goal.failed - o.failed);
    } else {
      all := OneMove(n, ms, o, Free, Claim);
      var well := o.counted < goal.counted;
      var ended := Adds(o, if well then Finish else Abandon, 1);
      all := OneMove(n, all, o, Held, if well then Finish else Abandon);
      if o.removed == goal.removed {
        k := Named;
        all := FromNamed(n, all, ended, goal);
      } else {
        all := OneMove(n, all, ended, if well then Named else Stuck, Clear);
        all, k := FromFree(n, all, Adds(ended, Clear, 1), goal);
      }
    }
  }

  /** Losses behind a live claim, which then goes on to count. */
  lemma LoseBehindClaim(n: nat, goal: Ending) returns (all: seq<Move>, k: Situation)
    requires n >= 2 && goal.counted > 0 && goal.removed <= goal.counted + goal.failed
    ensures Leads(n, all, goal, k) && k != Held
  {
    all := OneMove(n, [], NOTHING, Free, Claim);
    all := ManyMoves(n, all, NOTHING, Held, Read, goal.lost);
    all := OneMove(n, all, Ending(0, 0, 0, goal.lost), Held, Finish);
    if goal.removed == 0 {
      k := Named;
      all := FromNamed(n, all, Ending(0, 0, 1, goal.lost), goal);
    } else {
      all := OneMove(n, all, Ending(0, 0, 1, goal.lost), Named, Clear);
      all, k := FromFree(n, all, Ending(1, 0, 1, goal.lost), goal);
    }
  }

  /** A claim is abandoned, with or without its row. */
  lemma Abandoned(n: nat, m: Move) returns (all: seq<Move>)
    requires m == Abandon || m == AbandonWithRow
    ensures Leads(n, all, Adds(NOTHING, m, 1), Stuck)
  {
    var claimed := OneMove(n, [], NOTHING, Free, Claim);
    all := OneMove(n, claimed, NOTHING, Held, m);
  }

  /** Losses behind an abandoned claim; no other worker is needed. */
  lemma LoseBehindFailure(n: nat, goal: Ending) returns (all: seq<Move>, k: Situation)
    requires goal.failed > 0 && goal.removed <= goal.counted + goal.failed
    requires goal.removed == 0 ==> goal.counted <= 1
    ensures Leads(n, all, goal, k) && k != Held
  {
    var m := if goal.removed == 0 && goal.counted == 1 then AbandonWithRow else Abandon;
    var o := Adds(NOTHING, m, 1);
    all := Abandoned(n, m);
    all := ManyMoves(n, all, o, Stuck, Read, goal.lost);
    o := o.(lost := goal.lost);
    if goal.removed == 0 {
      k := Stuck;
      all := ManyMoves(n, all, o, Stuck, Refuse, goal.failed - 1);
    } else {
      all := OneMove(n, all, o, Stuck, Clear);
      all, k := FromFree(n, all, Adds(o, Clear, 1), goal);
    }
  }

  lemma PossibleIsLegal(n: nat, threshold: real, o: Ending) returns (ms: seq<Move>, k: Situation)
    requires Possible(n, threshold, o)
    ensures Leads(n, ms, o, k) && k != Held
  {
    if o.lost == 0 {
      ms, k := FromFree(n, [], NOTHING, o);
    } else if n >= 2 && o.counted > 0 {
      ms, k := LoseBehindClaim(n, o);
    } else {
      ms, k := LoseBehindFailure(n, o);
    }
  }

  lemma EndingIsReached(n: nat, maxsize: nat, threshold: real, c: ComponentId, o: Ending)
    requires Possible(n, threshold, o)
    ensures CanEnd(n, maxsize, threshold, c, o)
  {
    var start := Init(n, maxsize, threshold);
    var last, es := start, [];
    if o != NOTHING {
      var ms, k := PossibleIsLegal(n, threshold, o);
      last, es := PlayAll(start, n, c, ms);
      InIsComplete(last, n, c, o, k);
    }
    assert Complete(Run(start, es)) && EndingOf(Run(start, es), c) == o;
  }

  lemma InIsComplete(s: World, n: nat, c: ComponentId, o: Ending, k: Situation)
    requires In(s, n, c, o, k) && k != Held
    ensures Complete(s) && EndingOf(s, c) == o
  {
  }

  /** Which endings complete runs have, exactly, for any number of workers, any queue, and
      any expiries, clears, failures and interleavings. */
  lemma EndingsAreExact(n: nat, maxsize: nat, threshold: real, c: ComponentId, o: Ending)
    ensures CanEnd(n, maxsize, threshold, c, o) <==> Possible(n, threshold, o)
  {
    forall es ensures Complete(Run(Init(n, maxsize, threshold), es)) ==>
      Possible(n, threshold, EndingOf(Run(Init(n, maxsize, threshold), es), c))
    {
      EndingIsPossible(n, maxsize, threshold, c, es);
    }
    if Possible(n, threshold, o) {
      EndingIsReached(n, maxsize, threshold, c, o);
    }
  }

  /** Some run, complete or not, has so many failed calls for c and lost signals of c. */
  ghost predicate CanLose(n: nat, maxsize: nat, threshold: real, c: ComponentId, failed: nat, lost: nat) {
    exists es ::
      var o := EndingOf(Run(Init(n, maxsize, threshold), es), c);
      o.failed == failed && o.lost == lost
  }

  lemma LossNeedsAnother(n: nat, maxsize: nat, threshold: real, c: ComponentId, es: seq<Event>)
    ensures var o := EndingOf(Run(Init(n, maxsize, threshold), es), c);
      (o.failed == 0 && o.lost == 0) || (n > 0 && threshold > 0.0 && (o.lost == 0 || n >= 2 || o.failed > 0))
  {
    ReachableHolds(n, maxsize, threshold, es, c);
    SomethingWasFetched(n, maxsize, threshold, c, es);
  }

  /** "Everyone else attaches" is false of the code: over all runs with f failed calls, k
      signals of c can be lost to placeholders exactly if there are two workers or more, or
      a call failed. */
  lemma LossIsExact(n: nat, maxsize: nat, threshold: real, c: ComponentId, failed: nat, lost: nat)
    ensures CanLose(n, maxsize, threshold, c, failed, lost)
      <==> (failed == 0 && lost == 0) || (n > 0 && threshold > 0.0 && (lost == 0 || n >= 2 || failed > 0))
  {
    forall es ensures var o := EndingOf(Run(Init(n, maxsize, threshold), es), c);
      (o.failed == 0 && o.lost == 0) || (n > 0 && threshold > 0.0 && (o.lost == 0 || n >= 2 || o.failed > 0))
    {
      LossNeedsAnother(n, maxsize, threshold, c, es);
    }
    var o := Ending(0, failed, if failed == 0 && lost > 0 then 1 else 0, lost);
    EndingsAreExact(n, maxsize, threshold, c, o);
    if Possible(n, threshold, o) {
      var es :| EndingOf(Run(Init(n, maxsize, threshold), es), c) == o;
    }
  }
}
