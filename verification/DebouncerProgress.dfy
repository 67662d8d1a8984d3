/** The debouncer makes progress: no signal costs more than nine steps, and every schedule
    that keeps giving each worker its turn ends with nothing left to do. */
module DebouncerProgress {
  import opened Debouncer
  import opened DebouncerGuarantees

  /** The most steps a worker may still take for the signal it holds: its awaited queue and
      storage calls, and the counter bump at the end. */
  function Rank(k: Worker): nat {
    match k
    case Idle => 0
    case Fetched(_) => 8
    case Stored(_, _) => 7
    case Won(_, _) => 6
    case Created(_, _, _) => 5
    case Announcing(_, _, _) => 4
    case Lost(_, _) => 6
    case Missed(_, _) => 5
    case Refilling(_, _, _) => 4
    case Attaching(_, _, _) => 4
    case Linking(_, _, _) => 3
    case Metering(_) => 2
    case Metered(_) => 1
  }

  function RankSum(ws: seq<Worker>): nat {
    if ws == [] then 0 else RankSum(ws[..|ws| - 1]) + Rank(ws[|ws| - 1])
  }

  function Potential(s: World): nat {
    9 * |s.ingest.queue| + RankSum(s.workers)
  }

  /** The event is a step of a worker: its pending call takes effect or raises. */
  predicate Acts(s: World, e: Event) {
    match e
    case Advance(w) => w < |s.workers| && (s.workers[w].Idle? ==> s.ingest.queue != [])
    case Fail(w) => w < |s.workers| && CanFail(s.workers[w])
    case _ => false
  }

  function ActsIn(s: World, es: seq<Event>): nat
    decreases |es|
  {
    if es == [] then 0 else (if Acts(s, es[0]) then 1 else 0) + ActsIn(Next(s, es[0]), es[1..])
  }

  lemma {:induction false} RankMove(ws: seq<Worker>, w: nat, next: Worker)
    requires w < |ws|
    ensures RankSum(ws[w := next]) + Rank(ws[w]) == RankSum(ws) + Rank(next)
  {
    var n := |ws| - 1;
    if w == n {
      assert ws[w := next][..n] == ws[..n];
    } else {
      RankMove(ws[..n], w, next);
      assert ws[w := next][..n] == ws[..n][w := next];
    }
  }

  lemma StepSpends(s: World, k: Worker)
    requires !k.Idle?
    ensures Rank(Resumed(s, k)) < Rank(k)
  {
  }

  lemma FetchSpends(s: World, w: nat)
    requires w < |s.workers| && s.workers[w].Idle? && s.ingest.queue != []
    ensures Potential(Advanced(s, w)) < Potential(s)
  {
    RankMove(s.workers, w, Resumed(s, s.workers[w]));
  }

  lemma ActSpends(s: World, e: Event)
    requires Acts(s, e)
    ensures Potential(Next(s, e)) < Potential(s)
    ensures Next(s, e).ingest.accepted == s.ingest.accepted && |Next(s, e).workers| == |s.workers|
  {
    var k := s.workers[e.w];
    if k.Idle? {
      FetchSpends(s, e.w);
    } else {
      StepSpends(s, k);
      RankMove(s.workers, e.w, if e.Advance? then Resumed(s, k) else Idle);
    }
  }

  /** An accepted signal brings nine steps; nothing else brings any. */
  lemma EventBalance(s: World, e: Event)
    ensures Potential(Next(s, e)) + (if Acts(s, e) then 1 else 0)
      <= Potential(s) + 9 * (Next(s, e).ingest.accepted - s.ingest.accepted)
    ensures Next(s, e).ingest.accepted >= s.ingest.accepted
  {
    if Acts(s, e) {
      ActSpends(s, e);
    } else if e.Advance? && e.w < |s.workers| {
      RankMove(s.workers, e.w, Resumed(s, s.workers[e.w]));
    }
  }

  lemma {:induction false} RunBalance(s: World, es: seq<Event>)
    ensures Potential(Run(s, es)) + ActsIn(s, es)
      <= Potential(s) + 9 * (Run(s, es).ingest.accepted - s.ingest.accepted)
    decreases |es|
  {
    if es != [] {
      EventBalance(s, es[0]);
      RunBalance(Next(s, es[0]), es[1..]);
    }
  }

  lemma {:induction false} IdleRanks(n: nat)
    ensures RankSum(seq(n, _ => Idle)) == 0
  {
    if n > 0 {
      assert seq(n, _ => Idle)[..n - 1] == seq(n - 1, _ => Idle);
      IdleRanks(n - 1);
    }
  }

  /** In every run the workers take at most nine steps per accepted signal: eight queue and
      storage calls and the final counter bump. */
  lemma NineStepsPerSignal(n: nat, maxsize: nat, threshold: real, es: seq<Event>)
    ensures ActsIn(Init(n, maxsize, threshold), es) <= 9 * Run(Init(n, maxsize, threshold), es).ingest.accepted
  {
    IdleRanks(n);
    RunBalance(Init(n, maxsize, threshold), es);
  }

  // ---------- Every schedule ends ----------

  ghost predicate NoOffer(es: seq<Event>) {
    forall k :: 0 <= k < |es| ==> !es[k].Offer?
  }

  lemma {:induction false} NoOfferNoArrival(s: World, es: seq<Event>)
    requires NoOffer(es)
    ensures Run(s, es).ingest.accepted == s.ingest.accepted && |Run(s, es).workers| == |s.workers|
    decreases |es|
  {
    if es != [] {
      NoOfferNoArrival(Next(s, es[0]), es[1..]);
    }
  }

  /** No livelock: without new signals, whatever is scheduled, the workers take at most
      `Potential(s)` more steps. */
  lemma EveryScheduleIsShort(s: World, es: seq<Event>)
    requires NoOffer(es)
    ensures ActsIn(s, es) + Potential(Run(s, es)) <= Potential(s)
  {
    NoOfferNoArrival(s, es);
    RunBalance(s, es);
  }

  /** No deadlock: a state in which no worker can take a step is complete, and only such a state. */
  lemma StuckIsComplete(s: World)
    requires |s.workers| > 0
    ensures (forall w: nat :: !Acts(s, Advance(w))) <==> Complete(s)
  {
    if !Complete(s) {
      var w: nat :| w < |s.workers| && (s.workers[w].Idle? ==> s.ingest.queue != []);
      assert Acts(s, Advance(w));
    }
  }

  lemma OthersChangeNothing(s: World, e: Event)
    requires !Acts(s, e) && !e.Offer?
    ensures Next(s, e).workers == s.workers && Next(s, e).ingest == s.ingest
  {
  }

  /** A worker that can take a step and gets its turn: somebody acts. */
  lemma {:induction false} TurnMeansAct(s: World, es: seq<Event>, w: nat)
    requires NoOffer(es) && Acts(s, Advance(w)) && Advance(w) in es
    ensures ActsIn(s, es) > 0
    decreases |es|
  {
    if !Acts(s, es[0]) {
      OthersChangeNothing(s, es[0]);
      assert es == [es[0]] + es[1..];
      TurnMeansAct(Next(s, es[0]), es[1..], w);
    }
  }

  lemma {:induction false} CompleteStays(s: World, es: seq<Event>)
    requires NoOffer(es) && Complete(s)
    ensures Complete(Run(s, es))
    decreases |es|
  {
    if es != [] {
      OthersChangeNothing(s, es[0]);
      CompleteStays(Next(s, es[0]), es[1..]);
    }
  }

  /** In one round each of n workers gets at least one turn; calls may fail, keys vanish,
      the API interfere, and no signal arrives. */
  ghost predicate Fair(round: seq<Event>, n: nat) {
    NoOffer(round) && forall w: nat :: w < n ==> Advance(w) in round
  }

  function Concat(rounds: seq<seq<Event>>): seq<Event> {
    if rounds == [] then [] else rounds[0] + Concat(rounds[1..])
  }

  lemma {:induction false} NothingLeft(ws: seq<Worker>)
    requires RankSum(ws) == 0
    ensures forall w :: 0 <= w < |ws| ==> ws[w].Idle?
  {
    if ws != [] {
      NothingLeft(ws[..|ws| - 1]);
    }
  }

  lemma RoundSpends(s: World, round: seq<Event>)
    requires Fair(round, |s.workers|) && |s.workers| > 0
    ensures Complete(Run(s, round)) || Potential(Run(s, round)) < Potential(s)
    ensures Complete(s) ==> Complete(Run(s, round))
    ensures |Run(s, round).workers| == |s.workers|
  {
    NoOfferNoArrival(s, round);
    EveryScheduleIsShort(s, round);
    if Complete(s) {
      CompleteStays(s, round);
    } else {
      StuckIsComplete(s);
      var w: nat :| Acts(s, Advance(w));
      TurnMeansAct(s, round, w);
    }
  }

  /** Every fair schedule completes: after as many rounds as there are steps left, nothing
      is queued and every worker is idle, whatever failed or interfered in between. */
  lemma {:induction false} FairSchedulesComplete(s: World, rounds: seq<seq<Event>>)
    requires |s.workers| > 0 && |rounds| >= Potential(s)
    requires forall k :: 0 <= k < |rounds| ==> Fair(rounds[k], |s.workers|)
    ensures Complete(Run(s, Concat(rounds)))
    decreases |rounds|
  {
    if rounds == [] {
      NothingLeft(s.workers);
    } else {
      RoundSpends(s, rounds[0]);
      RunAppend(s, rounds[0], Concat(rounds[1..]));
      var s1 := Run(s, rounds[0]);
      if Complete(s1) {
        ConcatHasNoOffer(rounds[1..], |s.workers|);
        CompleteStays(s1, Concat(rounds[1..]));
      } else {
        FairSchedulesComplete(s1, rounds[1..]);
      }
    }
  }

  lemma {:induction false} ConcatHasNoOffer(rounds: seq<seq<Event>>, n: nat)
    requires forall k :: 0 <= k < |rounds| ==> Fair(rounds[k], n)
    ensures NoOffer(Concat(rounds))
  {
    if rounds != [] {
      ConcatHasNoOffer(rounds[1..], n);
    }
  }
}
