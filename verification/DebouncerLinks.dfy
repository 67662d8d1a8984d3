/** Which documents the signal links name, in every interleaving: each document is linked
    once, by a link with its own signal's facts, unless its worker still holds it or died. */
module DebouncerLinks {
  import opened Types
  import opened Debouncer
  import opened DebouncerInvariants
  import opened DebouncerGuarantees

  function LinksTo(links: seq<Link>, doc: nat): nat {
    if links == [] then 0
    else LinksTo(links[..|links| - 1], doc) + (if links[|links| - 1].signal == doc then 1 else 0)
  }

  /** A document is linked, held by a worker that will link it, or its run died before that. */
  ghost predicate DocumentOk(s: World, doc: nat) {
    LinksTo(s.links, doc) + Count(s.workers, IsHolding(doc)) + At(s.flow.unlinked, doc)
    == if doc < |s.docs| then 1 else 0
  }

  /** The link names a document, and repeats its signal's component, severity and timestamp. */
  predicate NamesDocument(docs: seq<Signal>, l: Link) {
    && l.signal < |docs| && l.component == docs[l.signal].component
    && l.severity == docs[l.signal].severity && l.timestamp == docs[l.signal].timestamp
  }

  /** A worker's document holds its signal. */
  predicate HoldsDocument(docs: seq<Signal>, k: Worker) {
    HasDoc(k) ==> k.doc < |docs| && docs[k.doc] == k.sig
  }

  ghost predicate ContentOk(s: World) {
    && (forall w :: 0 <= w < |s.workers| ==> HoldsDocument(s.docs, s.workers[w]))
    && (forall i :: 0 <= i < |s.links| ==> NamesDocument(s.docs, s.links[i]))
  }

  /** What one step does to the links, the holders and the losses of a document. */
  lemma StepDocument(s: World, k: Worker, doc: nat)
    ensures LinksTo(LinksAfter(s.links, CallOf(k)), doc)
      == LinksTo(s.links, doc) + (if k.Linking? then Ask(IsHolding(doc), k) else 0)
    ensures At(FlowAfter(s, k).unlinked, doc)
      == At(s.flow.unlinked, doc) + (if ReadsPlaceholder(s, k) then Ask(IsHolding(doc), k) else 0)
    ensures Ask(IsHolding(doc), Resumed(s, k))
      == if k.Fetched? then (if doc == |s.docs| then 1 else 0)
         else if k.Linking? || ReadsPlaceholder(s, k) then 0
         else Ask(IsHolding(doc), k)
    ensures |DocsAfter(s.docs, CallOf(k))| == |s.docs| + (if k.Fetched? then 1 else 0)
  {
    if k.Linking? {
      assert (s.links + [CallOf(k).link])[..|s.links|] == s.links;
    }
  }

  lemma AdvanceKeepsDocument(s: World, w: nat, doc: nat)
    requires DocumentOk(s, doc) && w < |s.workers|
    ensures DocumentOk(Advanced(s, w), doc)
  {
    var k := s.workers[w];
    CountMove(s.workers, w, Resumed(s, k), IsHolding(doc));
    StepDocument(s, k, doc);
  }

  lemma FailKeepsDocument(s: World, w: nat, doc: nat)
    requires DocumentOk(s, doc) && w < |s.workers| && CanFail(s.workers[w])
    ensures DocumentOk(Failed(s, w), doc)
  {
    CountMove(s.workers, w, Idle, IsHolding(doc));
  }

  lemma EventKeepsDocument(s: World, e: Event, doc: nat)
    requires DocumentOk(s, doc)
    ensures DocumentOk(Next(s, e), doc)
  {
    match e {
      case Advance(w) => if w < |s.workers| { AdvanceKeepsDocument(s, w, doc); }
      case Fail(w) => if w < |s.workers| && CanFail(s.workers[w]) { FailKeepsDocument(s, w, doc); }
      case _ =>
    }
  }

  lemma StepContent(s: World, k: Worker)
    requires HoldsDocument(s.docs, k)
    ensures HoldsDocument(DocsAfter(s.docs, CallOf(k)), Resumed(s, k))
    ensures forall l :: l in LinksAfter(s.links, CallOf(k)) && l !in s.links ==> NamesDocument(s.docs, l)
  {
  }

  lemma AdvanceKeepsContent(s: World, w: nat)
    requires ContentOk(s) && w < |s.workers|
    ensures ContentOk(Advanced(s, w))
  {
    var k := s.workers[w];
    var docs, links := DocsAfter(s.docs, CallOf(k)), LinksAfter(s.links, CallOf(k));
    StepContent(s, k);
    assert s.docs <= docs;
    forall i | 0 <= i < |links| ensures NamesDocument(docs, links[i]) {
      if i < |s.links| {
        assert links[i] == s.links[i];
      } else {
        assert NamesDocument(s.docs, links[i]) by { assert k.Linking? && links[i] == CallOf(k).link; }
      }
    }
    forall v | 0 <= v < |s.workers| && v != w ensures HoldsDocument(docs, s.workers[v]) {
      assert HoldsDocument(s.docs, s.workers[v]);
    }
  }

  lemma EventKeepsContent(s: World, e: Event)
    requires ContentOk(s)
    ensures ContentOk(Next(s, e))
  {
    if e.Advance? && e.w < |s.workers| {
      AdvanceKeepsContent(s, e.w);
    }
  }

  ghost predicate LinksKnown(s: World) {
    ContentOk(s) && forall doc: nat :: DocumentOk(s, doc)
  }

  lemma {:induction false} RunKeepsLinks(s: World, es: seq<Event>)
    requires LinksKnown(s)
    ensures LinksKnown(Run(s, es))
    decreases |es|
  {
    if es != [] {
      EventKeepsContent(s, es[0]);
      forall doc: nat ensures DocumentOk(Next(s, es[0]), doc) {
        EventKeepsDocument(s, es[0], doc);
      }
      RunKeepsLinks(Next(s, es[0]), es[1..]);
    }
  }

  lemma InitLinks(n: nat, maxsize: nat, threshold: real)
    ensures LinksKnown(Init(n, maxsize, threshold))
  {
    var s := Init(n, maxsize, threshold);
    forall doc: nat ensures DocumentOk(s, doc) {
      CountBounds(s.workers, IsHolding(doc));
    }
  }

  lemma {:induction false} LinkedTwice(links: seq<Link>, i: nat, j: nat)
    requires i < j < |links| && links[i].signal == links[j].signal
    ensures LinksTo(links, links[j].signal) >= 2
  {
    var n := |links| - 1;
    if j == n {
      LinkedOnce(links[..n], i);
    } else {
      LinkedTwice(links[..n], i, j);
    }
  }

  lemma {:induction false} LinkedOnce(links: seq<Link>, i: nat)
    requires i < |links|
    ensures LinksTo(links, links[i].signal) >= 1
  {
    if i < |links| - 1 {
      LinkedOnce(links[..|links| - 1], i);
    }
  }

  /** In every run: each document is linked exactly once, or still held by the worker that
      will link it, or its run died before linking it; no two links name the same document;
      and each link carries the component, severity and timestamp of its document's signal. */
  lemma LinksNameDocuments(n: nat, maxsize: nat, threshold: real, es: seq<Event>)
    ensures var s := Run(Init(n, maxsize, threshold), es);
      && (forall doc: nat :: doc < |s.docs| ==>
           LinksTo(s.links, doc) + Count(s.workers, IsHolding(doc)) + At(s.flow.unlinked, doc) == 1)
      && (forall i, j :: 0 <= i < j < |s.links| ==> s.links[i].signal != s.links[j].signal)
      && (forall i :: 0 <= i < |s.links| ==> NamesDocument(s.docs, s.links[i]))
  {
    InitLinks(n, maxsize, threshold);
    RunKeepsLinks(Init(n, maxsize, threshold), es);
    var s := Run(Init(n, maxsize, threshold), es);
    forall doc: nat | doc < |s.docs|
      ensures LinksTo(s.links, doc) + Count(s.workers, IsHolding(doc)) + At(s.flow.unlinked, doc) == 1
    {
      assert DocumentOk(s, doc);
    }
    forall i, j | 0 <= i < j < |s.links| ensures s.links[i].signal != s.links[j].signal {
      assert DocumentOk(s, s.links[j].signal);
      if s.links[i].signal == s.links[j].signal {
        LinkedTwice(s.links, i, j);
      }
    }
  }
}
