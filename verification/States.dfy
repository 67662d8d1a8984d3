/** The State pattern behind every lifecycle move: which moves are legal, what closing
    writes, and the UPDATE that stores the outcome. */
module States {
  import opened Types
  import opened RcaValidator

  datatype TransitionResult = TransitionResult(newState: WorkItemState, endTime: Option<int>, mttr: Option<int>)

  datatype Outcome =
    | Moved(result: TransitionResult)
    | IllegalTransition(source: WorkItemState, target: WorkItemState)
    | RcaRejected(verdict: Verdict)

  function ToOpen(wi: WorkItem): Outcome {
    match wi.state
    case Investigating => Moved(TransitionResult(Open, None, None))
    case _ => IllegalTransition(wi.state, Open)
  }

  function ToInvestigating(wi: WorkItem): Outcome {
    match wi.state
    case Open => Moved(TransitionResult(Investigating, None, None))
    case Resolved => Moved(TransitionResult(Investigating, None, None))
    case _ => IllegalTransition(wi.state, Investigating)
  }

  function ToResolved(wi: WorkItem): Outcome {
    match wi.state
    case Investigating => Moved(TransitionResult(Resolved, None, None))
    case _ => IllegalTransition(wi.state, Resolved)
  }

  function ToClosed(wi: WorkItem, rca: Option<Rca>, now: int): Outcome {
    match wi.state
    case Resolved =>
      var verdict := Judge(rca);
      if verdict.Passed? then Moved(TransitionResult(Closed, Some(now), Some(now - wi.startTime)))
      else RcaRejected(verdict)
    case _ => IllegalTransition(wi.state, Closed)
  }

  function Transition(wi: WorkItem, target: WorkItemState, rca: Option<Rca>, now: int): Outcome {
    match target
    case Open => ToOpen(wi)
    case Investigating => ToInvestigating(wi)
    case Resolved => ToResolved(wi)
    case Closed => ToClosed(wi, rca, now)
  }

  /** The UPDATE of `update_state`: absent times leave the stored ones alone. */
  function Updated(wi: WorkItem, r: TransitionResult): WorkItem {
    wi.(state := r.newState,
        endTime := if r.endTime.Some? then r.endTime else wi.endTime,
        mttr := if r.mttr.Some? then r.mttr else wi.mttr)
  }

  // ---------- The lifecycle as a line ----------

  function Position(s: WorkItemState): int {
    match s
    case Open => 0
    case Investigating => 1
    case Resolved => 2
    case Closed => 3
  }

  /** A legal move: one place along the line, and never out of CLOSED. */
  predicate Edge(s: WorkItemState, t: WorkItemState) {
    s != Closed && (Position(t) == Position(s) + 1 || Position(t) == Position(s) - 1)
  }

  /** `transition` moves exactly along edges and into CLOSED only past the RCA gate;
      an end and an MTTR are produced exactly by closing. */
  lemma TransitionIsExact(wi: WorkItem, target: WorkItemState, rca: Option<Rca>, now: int)
    ensures var o := Transition(wi, target, rca, now);
      && (o.Moved? <==> Edge(wi.state, target) && (target == Closed ==> rca.Some? && Complete(rca.value)))
      && (o.IllegalTransition? <==> !Edge(wi.state, target))
      && (o.IllegalTransition? ==> o.source == wi.state && o.target == target)
      && (o.RcaRejected? ==> o.verdict == Judge(rca))
      && (o.Moved? ==>
        && o.result.newState == target
        && (o.result.endTime.Some? <==> target == Closed)
        && (o.result.mttr.Some? <==> target == Closed)
        && (target == Closed ==> o.result.endTime.value == now && o.result.mttr.value == now - wi.startTime))
  {
    JudgeIsTheGate(rca);
  }

  // ---------- What every stored row keeps ----------

  /** An end and an MTTR come together, the MTTR is their difference to the start, and
      a closed row has both. */
  predicate Timed(wi: WorkItem) {
    && (wi.endTime.Some? <==> wi.mttr.Some?)
    && (wi.endTime.Some? ==> wi.mttr.value == wi.endTime.value - wi.startTime)
    && (wi.state == Closed ==> wi.endTime.Some?)
  }

  /** A pending write is consistent with a row's (unchanging) start time. */
  predicate TimedResult(r: TransitionResult, startTime: int) {
    && (r.endTime.Some? <==> r.mttr.Some?)
    && (r.endTime.Some? <==> r.newState == Closed)
    && (r.mttr.Some? ==> r.mttr.value == r.endTime.value - startTime)
  }
}
