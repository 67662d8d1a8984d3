/** The backend's own code, statement by statement, over the store objects. */
module Backend {
  import opened Types
  import opened Text
  import opened RcaValidator
  import opened States
  import opened Ingestion
  import opened Site
  import opened DedupKeys
  import opened Stores

  datatype Response =
    | NotFound | Unprocessable | BadRequest | Refused(outcome: Outcome) | Accepted(row: WorkItem) | Stored(rca: Rca)

  /** When one signal's Redis calls come. */
  datatype Instants = Instants(claim: int, look: int, refill: int)

  function EventOf(sig: Signal, at: Instants): Stamped {
    Stamped(at.claim, Process(sig, at.look, at.refill))
  }

  class Backend {
    const redis: Redis
    const db: Postgres
    const queue: IngestQueue
    const ttl: int
    var docs: seq<Signal>
    var processed: nat
    var failed: nat
    var tasksDone: nat

    /** `dedup_window_seconds` is positive: Redis refuses any other expiry. */
    ghost predicate Valid()
      reads this, redis
    {
      redis.Valid() && ttl > 0
    }

    /** What the stores hold. */
    ghost function Snapshot(): Site
      reads this, redis, db
    {
      Site(docs, redis.keys, redis.entries, db.items, db.links, db.metrics, db.rcas)
    }

    constructor (maxsize: nat, threshold: real, ttl: int)
      requires ttl > 0
      ensures Valid() && fresh(redis) && fresh(db) && fresh(queue)
      ensures Snapshot() == EMPTY && queue.Snapshot() == Empty(maxsize, threshold) && this.ttl == ttl
      ensures processed == failed == tasksDone == 0
    {
      redis := new Redis();
      db := new Postgres();
      queue := new IngestQueue(maxsize, threshold);
      this.ttl := ttl;
      docs, processed, failed, tasksDone := [], 0, 0, 0;
    }

    /** Steps 2 and 3 of `_process_one`: claim the window and open a work item, or find the
        one to attach to, or fall back. `None` is where `int` raises on a placeholder. */
    method Debounce(sig: Signal, doc: nat, t0: int, t1: int, t2: int) returns (item: Option<nat>)
      requires Valid()
      modifies redis, db`items
      ensures Valid() && (Snapshot(), item) == Debounced(old(Snapshot()), sig, doc, t0, t1, t2, ttl)
    {
      var c := sig.component;
      var won := redis.SetNx(c, doc, ttl, t0);
      if won {
        var id := db.CreateWorkItem(sig);
        redis.Set(c, id, true, ttl, t1);
        redis.PushLiveFeed(id, sig.severity, c);
        return Some(id);
      }
      var existing := redis.GetOpenWorkItem(c, t1);
      match existing {
        case NoItem =>
          var id := db.CreateWorkItem(sig);
          redis.Set(c, id, false, ttl, t2);
          return Some(id);
        case Found(found) =>
          db.IncrementSignalCount(found);
          return Some(found);
        case BadNumber =>
          return None;
      }
    }

    /** Steps 4 and 5: link the signal, count it in its minute, bump `processed`. */
    method Record(sig: Signal, doc: nat, item: nat)
      requires Valid()
      modifies this`processed, db`links, db`metrics
      ensures Valid() && Snapshot() == Recorded(old(Snapshot()), sig, doc, item)
      ensures processed == old(processed) + 1
    {
      db.AddSignalLink(item, doc, sig);
      db.UpsertMetricBucket(BucketFor(sig.timestamp), sig.component, sig.severity);
      processed := processed + 1;
    }

    /** `_process_one` by one worker alone. */
    method ProcessOne(sig: Signal, at: Instants) returns (ok: bool)
      requires Valid()
      modifies this`docs, this`processed, redis, db
      ensures Valid() && Snapshot() == ProcessedOver(old(Snapshot()), sig, at.claim, at.look, at.refill, ttl)
      ensures processed == old(processed) + if ok then 1 else 0
      ensures !ok <==> Raises(old(Snapshot()), EventOf(sig, at))
    {
      NoItemMeansRaises(Snapshot(), sig, at, ttl);
      var doc := |docs|;
      docs := docs + [sig];
      assert Snapshot() == old(Snapshot()).(docs := docs);
      var item := Debounce(sig, doc, at.claim, at.look, at.refill);
      if item.None? {
        return false;
      }
      Record(sig, doc, item.value);
      return true;
    }

    /** One round of `_worker_loop`: a timeout on an empty queue, or one signal taken,
        processed, and marked done whether or not it raised. */
    method WorkRound(at: Instants)
      requires Valid()
      modifies this`docs, this`processed, this`failed, this`tasksDone, redis, db, queue
      ensures Valid()
      ensures old(queue.queue) == [] ==>
        && queue.queue == [] && Snapshot() == old(Snapshot()) && tasksDone == old(tasksDone)
        && processed == old(processed) && failed == old(failed)
      ensures old(queue.queue) != [] ==>
        var e := EventOf(old(queue.queue)[0], at);
        && queue.queue == old(queue.queue)[1..] && tasksDone == old(tasksDone) + 1
        && Snapshot() == Handled(old(Snapshot()), e, ttl)
        && processed == old(processed) + (if Raises(old(Snapshot()), e) then 0 else 1)
        && failed == old(failed) + (if Raises(old(Snapshot()), e) then 1 else 0)
    {
      if queue.queue != [] {
        var sig := queue.Get();
        var ok := ProcessOne(sig, at);
        if !ok {
          failed := failed + 1;
        }
        tasksDone := tasksDone + 1;
      }
    }

    /** `_worker_loop` of a lone worker until shutdown, one round per entry of `clock`:
        signals are processed in queue order, every get has its task_done, and the ones
        that raise are the failed ones. */
    method WorkerLoop(clock: seq<Instants>)
      requires Valid()
      modifies this`docs, this`processed, this`failed, this`tasksDone, redis, db, queue
      ensures Valid()
      ensures var taken := TakenIn(clock, old(queue.queue));
        var es := Rounds(clock, old(queue.queue), taken);
        && queue.queue == old(queue.queue)[taken..]
        && Snapshot() == Run(old(Snapshot()), es, ttl)
        && tasksDone == old(tasksDone) + taken
        && failed == old(failed) + RaisesIn(old(Snapshot()), es, ttl)
        && processed + failed == old(processed) + old(failed) + taken
    {
      var i := 0;
      ghost var sigs, s0 := queue.queue, Snapshot();
      while i < |clock|
        invariant 0 <= i <= |clock| && Valid()
        invariant var taken := TakenIn(clock[..i], sigs); var es := Rounds(clock, sigs, taken);
          && queue.queue == sigs[taken..]
          && Snapshot() == Run(s0, es, ttl)
          && tasksDone == old(tasksDone) + taken
          && failed == old(failed) + RaisesIn(s0, es, ttl)
          && processed + failed == old(processed) + old(failed) + taken
      {
        if i < |sigs| {
          OneMoreRound(s0, clock, sigs, i, ttl);
        }
        WorkRound(clock[i]);
        i := i + 1;
      }
      assert clock[..i] == clock;
    }

    /** POST /incidents/{id}/transition. `cleanup` says how far the best-effort Redis
        cleanup gets before a call of it raises. */
    method TransitionIncident(item: nat, target: WorkItemState, now: int, cleanup: Cleanup) returns (r: Response)
      requires Valid()
      modifies redis, db`items
      ensures Valid() && Snapshot() == Transited(old(Snapshot()), item, target, now, cleanup)
      ensures r.NotFound? <==> item >= |old(db.items)|
      ensures item < |old(db.items)| ==>
        var decision := Decision(old(Snapshot()), item, target, now);
        if decision.Moved? then r == Accepted(db.items[item]) else r == Refused(decision)
    {
      var row := db.GetWorkItem(item);
      if row.None? {
        return NotFound;
      }
      var rca := db.GetRca(item);
      var outcome := Transition(row.value, target, rca, now);
      if !outcome.Moved? {
        return Refused(outcome);
      }
      db.UpdateState(item, outcome.result);
      if outcome.result.newState == Closed {
        if !cleanup.Skipped? {
          redis.RemoveFromLiveFeed(item);
          if cleanup.Done? {
            redis.ClearDedup(row.value.component);
          }
        }
      }
      var current := db.GetWorkItem(item);
      return Accepted(current.value);
    }

    /** POST /incidents/{id}/close */
    method CloseIncident(item: nat, now: int, cleanup: Cleanup) returns (r: Response)
      requires Valid()
      modifies redis, db`items
      ensures Valid() && Snapshot() == Transited(old(Snapshot()), item, Closed, now, cleanup)
      ensures r.Accepted? ==>
        && item < |db.items| && r.row == db.items[item] && r.row.state == Closed && r.row.endTime == Some(now)
        && RcaOf(db.rcas, item).Some? && Complete(RcaOf(db.rcas, item).value)
    {
      r := TransitionIncident(item, Closed, now, cleanup);
      if r.Accepted? {
        TransitionIsExact(old(db.items)[item], Closed, RcaOf(db.rcas, item), now);
      }
    }

    /** POST /incidents/{id}/rca: blank texts are refused before the handler runs, then a
        missing item, then a reversed time range; otherwise the stripped RCA is stored. */
    method SubmitRca(item: nat, body: RcaBody) returns (r: Response)
      requires Valid()
      modifies db`rcas
      ensures Valid() && Snapshot() == Submitted(old(Snapshot()), item, body)
      ensures r.Stored? <==> item < |db.items| && AcceptedRca(body).Some?
      ensures r.Stored? ==> AcceptedRca(body) == Some(r.rca) && RcaOf(db.rcas, item) == Some(r.rca)
      ensures r.Stored? ==> StoredFrom(r.rca, body)
      ensures r.Unprocessable? <==> Blank(body.fixApplied) || Blank(body.prevention)
      ensures r.NotFound? <==> !Blank(body.fixApplied) && !Blank(body.prevention) && item >= |db.items|
      ensures r.BadRequest? <==>
        !Blank(body.fixApplied) && !Blank(body.prevention) && item < |db.items| && body.endTime < body.startTime
    {
      BlankIsRefused(body.fixApplied);
      BlankIsRefused(body.prevention);
      var fix, prevention := NotBlank(body.fixApplied), NotBlank(body.prevention);
      if fix.None? || prevention.None? {
        return Unprocessable;
      }
      var row := db.GetWorkItem(item);
      if row.None? {
        return NotFound;
      }
      if body.endTime < body.startTime {
        return BadRequest;
      }
      var rca := Rca(Some(CategoryName(body.category)), fix, prevention, Some(body.startTime), Some(body.endTime));
      db.UpsertRca(item, rca);
      AcceptedRcaIsTheBody(body);
      return Stored(rca);
    }
  }

  lemma NoItemMeansRaises(s: Site, sig: Signal, at: Instants, ttl: int)
    ensures Debounced(s.(docs := s.docs + [sig]), sig, |s.docs|, at.claim, at.look, at.refill, ttl).1.None?
      <==> Raises(s, EventOf(sig, at))
  {
  }

  lemma BlankIsRefused(v: string)
    ensures NotBlank(v).None? <==> Blank(v)
  {
    var a, b := StripCuts(v);
  }

  /** How many signals a lone worker takes in so many rounds. */
  function TakenIn(clock: seq<Instants>, sigs: seq<Signal>): (n: nat)
    ensures n <= |sigs| && n <= |clock|
  {
    if |clock| < |sigs| then |clock| else |sigs|
  }

  /** The first `n` rounds as events: the k-th signal at the k-th instants. */
  function Rounds(clock: seq<Instants>, sigs: seq<Signal>, n: nat): seq<Stamped>
    requires n <= |sigs| && n <= |clock|
  {
    seq(n, k requires 0 <= k < n => EventOf(sigs[k], clock[k]))
  }

  lemma OneMoreRound(s: Site, clock: seq<Instants>, sigs: seq<Signal>, n: nat, ttl: int)
    requires n < |sigs| && n < |clock|
    ensures var es, e := Rounds(clock, sigs, n), EventOf(sigs[n], clock[n]);
      && Run(s, Rounds(clock, sigs, n + 1), ttl) == Handled(Run(s, es, ttl), e, ttl)
      && RaisesIn(s, Rounds(clock, sigs, n + 1), ttl)
         == RaisesIn(s, es, ttl) + (if Raises(Run(s, es, ttl), e) then 1 else 0)
  {
    var es, e := Rounds(clock, sigs, n), EventOf(sigs[n], clock[n]);
    assert Rounds(clock, sigs, n + 1) == es + [e];
    RunAppend(s, es, e, ttl);
    RaisesInAppend(s, es, e, ttl);
  }
}
