/** Incident handlers that overlap: any number of transition and RCA requests, each
    reading the row, then the RCA, then deciding, then writing, with no check at the
    write that the row is still what was read. */
module Handlers {
  import opened Types
  import opened RcaValidator
  import opened States

  /** A request between two of its awaits. */
  datatype Handler =
    | Free
    | HasRow(item: nat, target: WorkItemState, row: WorkItem)  // before get_rca and the decision
    | Writing(item: nat, result: TransitionResult)             // before update_state
    | Storing(item: nat, rca: Rca)                             // before upsert_rca

  /** `history[i]` is every state row i was ever written with, oldest first. */
  datatype Board = Board(
    items: seq<WorkItem>, rcas: map<nat, Rca>, handlers: seq<Handler>, history: seq<seq<WorkItemState>>)

  datatype Event =
    | Insert(sig: Signal)                                // a worker creates a row
    | Count(item: nat)                                   // a worker counts a signal
    | Begin(h: nat, item: nat, target: WorkItemState)    // POST /transition, or /close
    | Decide(h: nat, now: int)
    | Write(h: nat)
    | BeginRca(h: nat, item: nat, body: RcaBody)         // POST /rca
    | Store(h: nat)
    | Abort(h: nat)                                      // a storage call raised

  function Init(n: nat): Board {
    Board([], map[], seq(n, _ => Free), [])
  }

  function Put(b: Board, h: nat, next: Handler): Board
    requires h < |b.handlers|
  {
    b.(handlers := b.handlers[h := next])
  }

  /** A moved decision goes on to write; a refusal ends the request. */
  function Decided(b: Board, h: nat, now: int): Board
    requires h < |b.handlers| && b.handlers[h].HasRow?
  {
    var k := b.handlers[h];
    match Transition(k.row, k.target, RcaOf(b.rcas, k.item), now)
    case Moved(result) => Put(b, h, Writing(k.item, result))
    case _ => Put(b, h, Free)
  }

  function Written(b: Board, h: nat): Board
    requires h < |b.handlers| && b.handlers[h].Writing?
  {
    var i, r := b.handlers[h].item, b.handlers[h].result;
    if i < |b.items| && i < |b.history| then
      Put(b, h, Free).(items := b.items[i := Updated(b.items[i], r)],
                       history := b.history[i := b.history[i] + [r.newState]])
    else Put(b, h, Free)
  }

  /** One event. Events that do not apply change nothing. */
  function Next(b: Board, e: Event): Board {
    match e
    case Insert(sig) => b.(items := b.items + [NewItem(sig)], history := b.history + [[Open]])
    case Count(i) =>
      if i < |b.items| then b.(items := b.items[i := b.items[i].(signalCount := b.items[i].signalCount + 1)]) else b
    case Begin(h, i, target) =>
      if h < |b.handlers| && b.handlers[h].Free? && i < |b.items| then Put(b, h, HasRow(i, target, b.items[i])) else b
    case Decide(h, now) => if h < |b.handlers| && b.handlers[h].HasRow? then Decided(b, h, now) else b
    case Write(h) => if h < |b.handlers| && b.handlers[h].Writing? then Written(b, h) else b
    case BeginRca(h, i, body) =>
      if h < |b.handlers| && b.handlers[h].Free? && i < |b.items| && AcceptedRca(body).Some?
      then Put(b, h, Storing(i, AcceptedRca(body).value)) else b
    case Store(h) =>
      if h < |b.handlers| && b.handlers[h].Storing?
      then Put(b, h, Free).(rcas := b.rcas[b.handlers[h].item := b.handlers[h].rca]) else b
    case Abort(h) => if h < |b.handlers| then Put(b, h, Free) else b
  }

  function Run(b: Board, es: seq<Event>): Board
    decreases |es|
  {
    if es == [] then b else Run(Next(b, es[0]), es[1..])
  }

  lemma {:induction false} RunAppend(b: Board, es: seq<Event>, more: seq<Event>)
    ensures Run(b, es + more) == Run(Run(b, es), more)
    decreases |es|
  {
    if es == [] {
      assert es + more == more;
    } else {
      assert (es + more)[1..] == es[1..] + more;
      RunAppend(Next(b, es[0]), es[1..], more);
    }
  }

  lemma RunOne(b: Board, x: Event)
    ensures Run(b, [x]) == Next(b, x)
  {
    assert [x][1..] == [];
  }

  lemma RunTwo(b: Board, x: Event, y: Event)
    ensures Run(b, [x, y]) == Next(Next(b, x), y)
  {
    assert [x, y][1..] == [y];
    RunOne(Next(b, x), y);
  }

  lemma RunThree(b: Board, x: Event, y: Event, z: Event)
    ensures Run(b, [x, y, z]) == Next(Next(Next(b, x), y), z)
  {
    assert [x, y, z][1..] == [y, z];
    RunTwo(Next(b, x), y, z);
  }

  // ---------- The invariant of overlapping handlers ----------

  /** Every state after the first is a legal successor of some state written before it. */
  ghost predicate Descends(hist: seq<WorkItemState>) {
    && hist != [] && hist[0] == Open
    && forall k :: 0 < k < |hist| ==> exists j :: 0 <= j < k && Edge(hist[j], hist[k])
  }

  ghost predicate RowOk(b: Board, i: nat)
    requires i < |b.items| && |b.history| == |b.items|
  {
    && Descends(b.history[i]) && b.history[i][|b.history[i]| - 1] == b.items[i].state
    && Timed(b.items[i])
    && (b.items[i].state == Closed ==> i in b.rcas)
  }

  ghost predicate HandlerOk(b: Board, k: Handler)
    requires |b.history| == |b.items|
  {
    match k
    case Free => true
    case HasRow(i, _, row) => i < |b.items| && row.state in b.history[i] && row.startTime == b.items[i].startTime
    case Writing(i, r) =>
      && i < |b.items| && (exists s :: s in b.history[i] && Edge(s, r.newState))
      && TimedResult(r, b.items[i].startTime)
      && (r.newState == Closed ==> i in b.rcas)
    case Storing(i, rca) => i < |b.items| && Complete(rca)
  }

  ghost predicate Inv(b: Board) {
    && |b.history| == |b.items|
    && (forall i :: 0 <= i < |b.items| ==> RowOk(b, i))
    && (forall h :: 0 <= h < |b.handlers| ==> HandlerOk(b, b.handlers[h]))
    && (forall i :: i in b.rcas ==> Complete(b.rcas[i]))
  }

  lemma DescendsAppend(hist: seq<WorkItemState>, s: WorkItemState, t: WorkItemState)
    requires Descends(hist) && s in hist && Edge(s, t)
    ensures Descends(hist + [t])
  {
    var longer := hist + [t];
    var j :| 0 <= j < |hist| && hist[j] == s;
    forall k | 0 < k < |longer| ensures exists i :: 0 <= i < k && Edge(longer[i], longer[k]) {
      if k < |hist| {
        var i :| 0 <= i < k && Edge(hist[i], hist[k]);
        assert Edge(longer[i], longer[k]);
      } else {
        assert Edge(longer[j], longer[k]);
      }
    }
  }

  /** What a step may do to the tables without hurting any pending handler. */
  ghost predicate Grows(b: Board, after: Board) {
    && |b.items| <= |after.items| && |b.history| == |b.items| && |after.history| == |after.items|
    && (forall i :: 0 <= i < |b.items| ==> after.items[i].startTime == b.items[i].startTime)
    && (forall i :: 0 <= i < |b.items| ==> b.history[i] <= after.history[i])
    && b.rcas.Keys <= after.rcas.Keys
  }

  lemma GrowthKeepsHandler(b: Board, after: Board, k: Handler)
    requires Grows(b, after) && HandlerOk(b, k)
    ensures HandlerOk(after, k)
  {
    if k.Writing? {
      var s :| s in b.history[k.item] && Edge(s, k.result.newState);
      assert s in after.history[k.item];
    }
  }

  /** An accepted decision is a move from a state the row had, and fits its start time. */
  lemma DecisionIsOk(b: Board, k: Handler, now: int)
    requires |b.history| == |b.items| && HandlerOk(b, k) && k.HasRow?
    requires Transition(k.row, k.target, RcaOf(b.rcas, k.item), now).Moved?
    ensures HandlerOk(b, Writing(k.item, Transition(k.row, k.target, RcaOf(b.rcas, k.item), now).result))
  {
    TransitionIsExact(k.row, k.target, RcaOf(b.rcas, k.item), now);
    assert k.row.state in b.history[k.item] && Edge(k.row.state, k.target);
  }

  lemma DecideKeepsInv(b: Board, h: nat, now: int)
    requires Inv(b) && h < |b.handlers| && b.handlers[h].HasRow?
    ensures Inv(Decided(b, h, now))
  {
    var k := b.handlers[h];
    var after := Decided(b, h, now);
    assert HandlerOk(b, k);
    if Transition(k.row, k.target, RcaOf(b.rcas, k.item), now).Moved? {
      DecisionIsOk(b, k, now);
    }
    forall g | 0 <= g < |b.handlers| ensures HandlerOk(after, after.handlers[g]) {
      GrowthKeepsHandler(b, after, if g == h then after.handlers[h] else b.handlers[g]);
    }
    forall i | 0 <= i < |b.items| ensures RowOk(after, i) {
      assert RowOk(b, i);
    }
  }

  lemma WriteKeepsInv(b: Board, h: nat)
    requires Inv(b) && h < |b.handlers| && b.handlers[h].Writing?
    ensures Inv(Written(b, h))
  {
    var k := b.handlers[h];
    var after := Written(b, h);
    assert HandlerOk(b, k) && RowOk(b, k.item);
    var s :| s in b.history[k.item] && Edge(s, k.result.newState);
    DescendsAppend(b.history[k.item], s, k.result.newState);
    assert RowOk(after, k.item);
    forall i | 0 <= i < |b.items| && i != k.item ensures RowOk(after, i) {
      assert RowOk(b, i);
    }
    forall g | 0 <= g < |b.handlers| && g != h ensures HandlerOk(after, after.handlers[g]) {
      GrowthKeepsHandler(b, after, b.handlers[g]);
    }
  }

  /** A request starts, ends or stores its RCA: rows keep their state and history. */
  lemma RequestKeepsInv(b: Board, e: Event)
    requires Inv(b) && (e.Begin? || e.BeginRca? || e.Store? || e.Abort?)
    ensures Inv(Next(b, e))
  {
    var after := Next(b, e);
    if e.BeginRca? {
      AcceptedRcaPasses(e.body);
    }
    forall i | 0 <= i < |after.items| ensures RowOk(after, i) {
      assert RowOk(b, i);
    }
    forall g | 0 <= g < |b.handlers| ensures HandlerOk(after, after.handlers[g]) {
      assert HandlerOk(b, b.handlers[g]);
      GrowthKeepsHandler(b, after, b.handlers[g]);
      if e.Begin? && g == e.h && b.handlers[g].Free? && e.item < |b.items| {
        assert RowOk(b, e.item);
      }
    }
  }

  /** The workers add a row or count a signal. */
  lemma WorkerKeepsInv(b: Board, e: Event)
    requires Inv(b) && (e.Insert? || e.Count?)
    ensures Inv(Next(b, e))
  {
    var after := Next(b, e);
    forall i | 0 <= i < |after.items| ensures RowOk(after, i) {
      assert i < |b.items| ==> RowOk(b, i);
    }
    forall g | 0 <= g < |b.handlers| ensures HandlerOk(after, after.handlers[g]) {
      GrowthKeepsHandler(b, after, b.handlers[g]);
    }
  }

  lemma {:induction false} RunKeepsInv(b: Board, es: seq<Event>)
    requires Inv(b)
    ensures Inv(Run(b, es))
    decreases |es|
  {
    if es != [] {
      match es[0] {
        case Decide(h, now) => if h < |b.handlers| && b.handlers[h].HasRow? { DecideKeepsInv(b, h, now); }
        case Write(h) => if h < |b.handlers| && b.handlers[h].Writing? { WriteKeepsInv(b, h); }
        case Insert(_) => WorkerKeepsInv(b, es[0]);
        case Count(_) => WorkerKeepsInv(b, es[0]);
        case _ => RequestKeepsInv(b, es[0]);
      }
      RunKeepsInv(Next(b, es[0]), es[1..]);
    }
  }

  // ---------- What survives the race ----------

  /** However requests overlap: every written state is a legal successor of an earlier one,
      end and MTTR come together and fit the start, a closed row has both of them and an
      RCA that passes the gate, and no stored RCA could ever be called incomplete. */
  lemma RacesKeepTheGates(n: nat, es: seq<Event>, i: nat)
    ensures var b := Run(Init(n), es);
      && |b.history| == |b.items|
      && (i < |b.items| ==>
           && Descends(b.history[i]) && b.history[i][|b.history[i]| - 1] == b.items[i].state
           && Timed(b.items[i])
           && (b.items[i].state == Closed ==> RcaOf(b.rcas, i).Some? && Judge(RcaOf(b.rcas, i)).Passed?))
      && !Judge(RcaOf(b.rcas, i)).RcaIncomplete?
  {
    RunKeepsInv(Init(n), es);
    var b := Run(Init(n), es);
    if i < |b.items| {
      assert RowOk(b, i);
    }
    JudgeIsTheGate(RcaOf(b.rcas, i));
  }

  /** In any row history, CLOSED comes after RESOLVED, that after INVESTIGATING, and that
      after OPEN. */
  lemma ClosedHasAncestors(hist: seq<WorkItemState>, k: nat) returns (resolved: nat, investigating: nat)
    requires Descends(hist) && k < |hist| && hist[k] == Closed
    ensures 0 < investigating < resolved < k
    ensures hist[0] == Open && hist[investigating] == Investigating && hist[resolved] == Resolved
  {
    var r: int :| 0 <= r < k && Edge(hist[r], hist[k]);
    var j: int :| 0 <= j < r && Edge(hist[j], hist[r]);
    return r, j;
  }

  // ---------- When CLOSED is final ----------

  /** A request in flight that read row i before it closed and may still move it back. */
  predicate Threatens(k: Handler, i: nat) {
    match k
    case HasRow(item, target, row) => item == i && target != Closed && Edge(row.state, target)
    case Writing(item, r) => item == i && r.newState != Closed
    case _ => false
  }

  ghost predicate Safe(b: Board, i: nat) {
    && i < |b.items| && b.items[i].state == Closed
    && forall h :: 0 <= h < |b.handlers| ==> !Threatens(b.handlers[h], i)
  }

  lemma EventKeepsSafe(b: Board, e: Event, i: nat)
    requires Safe(b, i)
    ensures Safe(Next(b, e), i)
  {
    if e.Decide? && e.h < |b.handlers| && b.handlers[e.h].HasRow? {
      var k := b.handlers[e.h];
      TransitionIsExact(k.row, k.target, RcaOf(b.rcas, k.item), e.now);
    }
    if e.Write? && e.h < |b.handlers| {
      assert !Threatens(b.handlers[e.h], i);
    }
  }

  lemma {:induction false} RunKeepsSafe(b: Board, es: seq<Event>, i: nat)
    requires Safe(b, i)
    ensures Safe(Run(b, es), i)
    decreases |es|
  {
    if es != [] {
      EventKeepsSafe(b, es[0], i);
      RunKeepsSafe(Next(b, es[0]), es[1..], i);
    }
  }

  /** Some continuation takes row i out of CLOSED. */
  ghost predicate CanReopen(b: Board, i: nat) {
    exists es :: i < |Run(b, es).items| && Run(b, es).items[i].state != Closed
  }

  lemma ThreatReopens(b: Board, h: nat, i: nat)
    requires |b.history| == |b.items| && i < |b.items| && h < |b.handlers| && Threatens(b.handlers[h], i)
    ensures CanReopen(b, i)
  {
    if b.handlers[h].Writing? {
      RunOne(b, Write(h));
      assert Run(b, [Write(h)]).items[i].state != Closed;
    } else {
      var k := b.handlers[h];
      TransitionIsExact(k.row, k.target, RcaOf(b.rcas, i), 0);
      RunTwo(b, Decide(h, 0), Write(h));
      assert Next(b, Decide(h, 0)).handlers[h].Writing?;
      assert Run(b, [Decide(h, 0), Write(h)]).items[i].state != Closed;
    }
  }

  /** A closed row stays closed in every continuation exactly if no request in flight
      read it before it closed and is on its way to another state. */
  lemma ClosedIsFinalIffUnthreatened(n: nat, es: seq<Event>, i: nat)
    ensures var b := Run(Init(n), es);
      i < |b.items| && b.items[i].state == Closed ==>
        (CanReopen(b, i) <==> exists h :: 0 <= h < |b.handlers| && Threatens(b.handlers[h], i))
  {
    RunKeepsInv(Init(n), es);
    var b := Run(Init(n), es);
    if i < |b.items| && b.items[i].state == Closed {
      if h: nat :| 0 <= h < |b.handlers| && Threatens(b.handlers[h], i) {
        ThreatReopens(b, h, i);
      } else {
        forall more ensures !(i < |Run(b, more).items| && Run(b, more).items[i].state != Closed) {
          RunKeepsSafe(b, more, i);
        }
      }
    }
  }
}
