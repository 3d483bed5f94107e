/**
  One dispatch pass, as a relation between the records before and after it.
  The relation is independent of the order in which the pass visits dependents.
 */
module Passes {
  import opened Graphs
  import opened Decisions

  /** `d` hangs off a node that was skipped between `r` and `r'`. */
  ghost predicate BelowNewSkip(g: Graph, r: Records, r': Records, d: string) {
    exists e :: e in g.edges && e.to == d && e.from !in r && e.from in r' && r'[e.from] == SKIPPED
  }

  function RecordFor(decision: Decision): Record {
    if decision.DepEnqueue? then QUEUED else SKIPPED
  }

  /**
    `r'` adds to `r` only dependents in `touched` or below a new skip, each recorded
    as its predecessors demand; and every such dependent in `settled`, or below a new
    skip, that can be decided has a record.
   */
  ghost predicate Spread(g: Graph, r: Records, r': Records, touched: set<string>, settled: set<string>) {
    && (forall x :: x in r ==> x in r' && r'[x] == r[x])
    && (forall d :: d in r' && d !in r ==>
          && d in Ids(g.nodes)
          && (d in touched || BelowNewSkip(g, r, r', d))
          && !DecideNode(g, r', d).DepWaiting?
          && r'[d] == RecordFor(DecideNode(g, r', d)))
    && (forall d :: (d in settled || BelowNewSkip(g, r, r', d)) && !DecideNode(g, r', d).DepWaiting?
          ==> d in r')
  }

  lemma OpenEdge(r: Records, inc: seq<Edge>) returns (e: Edge)
    requires Decide(r, inc).DepWaiting?
    ensures e in inc && Open(r, e)
  {
    e :| e in inc && Open(r, e);
  }

  /** A dependent still waiting in `r` and decidable in `r'` has a predecessor skipped in between. */
  lemma NewlyDecidable(g: Graph, r: Records, r': Records, t: set<string>, s: set<string>, d: string)
    requires Spread(g, r, r', t, s)
    requires DecideNode(g, r, d).DepWaiting? && !DecideNode(g, r', d).DepWaiting?
    ensures BelowNewSkip(g, r, r', d)
  {
    hide Spread, Decide;
    var e := OpenEdge(r, Incoming(g.edges, d));
    ClosedEdge(r', Incoming(g.edges, d), e);
    SpreadRecords(g, r, r', t, s, e.from);
  }

  lemma ClosedEdge(r: Records, inc: seq<Edge>, e: Edge)
    requires !Decide(r, inc).DepWaiting? && e in inc
    ensures !Open(r, e)
  {
  }

  /** A pass keeps every record and adds only queued and skipped ones. */
  lemma SpreadRecords(g: Graph, r: Records, r': Records, t: set<string>, s: set<string>, x: string)
    requires Spread(g, r, r', t, s)
    ensures x in r ==> x in r' && r'[x] == r[x]
    ensures x in r' && x !in r ==> r'[x] == QUEUED || r'[x] == SKIPPED
  {
    hide Decide;
  }

  /** Decisions already taken survive a pass. */
  lemma PassKeepsDecision(g: Graph, r: Records, r': Records, d: string)
    requires forall x :: x in r ==> x in r' && r'[x] == r[x]
    requires !DecideNode(g, r, d).DepWaiting?
    ensures DecideNode(g, r', d) == DecideNode(g, r, d)
  {
    var inc := Incoming(g.edges, d);
    forall e | e in inc ensures e.from in r && e.from in r' {
      assert !Open(r, e);
    }
    SameEvidenceSameDecision(r, r', inc);
  }

  lemma SpreadNothing(g: Graph, r: Records, touched: set<string>)
    ensures Spread(g, r, r, touched, {})
  {
  }

  /** Two passes in a row are one pass. */
  lemma SpreadCompose(g: Graph, r: Records, m: Records, r': Records,
                      touched: set<string>, s1: set<string>, s2: set<string>)
    requires Spread(g, r, m, touched, s1) && Spread(g, m, r', touched, s2)
    ensures Spread(g, r, r', touched, s1 + s2)
  {
    forall d | d in r' && d !in r
      ensures && d in Ids(g.nodes)
              && (d in touched || BelowNewSkip(g, r, r', d))
              && !DecideNode(g, r', d).DepWaiting?
              && r'[d] == RecordFor(DecideNode(g, r', d))
    {
      if d in m {
        PassKeepsDecision(g, m, r', d);
      }
    }
    forall d | (d in s1 + s2 || BelowNewSkip(g, r, r', d)) && !DecideNode(g, r', d).DepWaiting?
      ensures d in r'
    {
      if !BelowNewSkip(g, m, r', d) && d !in s2 {
        assert d in s1 || BelowNewSkip(g, r, m, d);
        if DecideNode(g, m, d).DepWaiting? {
          NewlyDecidable(g, m, r', touched, s2, d);
        }
      }
    }
  }

  lemma SpreadWiden(g: Graph, r: Records, r': Records, t: set<string>, s: set<string>, t': set<string>)
    requires Spread(g, r, r', t, s) && t <= t'
    ensures Spread(g, r, r', t', s)
  {
  }

  /** On an acyclic graph a completed pass has one possible outcome for each node. */
  lemma {:induction false} SpreadAgreesAt(g: Graph, rank: map<string, nat>, r: Records, a: Records, b: Records,
                                          t: set<string>, d: string)
    requires Wired(g) && Ranked(g, rank) && d in Ids(g.nodes)
    requires Spread(g, r, a, t, t) && Spread(g, r, b, t, t)
    ensures d in a <==> d in b
    ensures d in a ==> a[d] == b[d]
    decreases rank[d]
  {
    var inc := Incoming(g.edges, d);
    forall e | e in inc
      ensures e.from in a <==> e.from in b
      ensures e.from in a ==> a[e.from] == b[e.from]
    {
      SpreadAgreesAt(g, rank, r, a, b, t, e.from);
    }
    SameEvidenceSameDecision(a, b, inc);
    assert BelowNewSkip(g, r, a, d) <==> BelowNewSkip(g, r, b, d);
  }

  /** So the order of the dependents, and the path that runs the pass, cannot matter. */
  lemma SpreadUnique(g: Graph, rank: map<string, nat>, r: Records, a: Records, b: Records, t: set<string>)
    requires Wired(g) && Ranked(g, rank) && r.Keys <= Ids(g.nodes)
    requires Spread(g, r, a, t, t) && Spread(g, r, b, t, t)
    ensures a == b
  {
    forall d | d in Ids(g.nodes)
      ensures d in a <==> d in b
      ensures d in a ==> a[d] == b[d]
    {
      SpreadAgreesAt(g, rank, r, a, b, t, d);
    }
    assert a.Keys == b.Keys;
  }
}
