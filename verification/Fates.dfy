/**
  What the records of a run say about each node, whatever schedule produced them.
  `Justified` is the one fact about the records that every interleaving keeps.
 */
module Fates {
  import opened Graphs
  import opened Decisions

  /** Every recorded dependent was released, or skipped, by the final records of its predecessors. */
  ghost predicate Justified(g: Graph, r: Records) {
    && r.Keys <= Ids(g.nodes)
    && NoParking(r)
    && forall d :: d in r && !IsSource(g, d) ==>
         DecideNode(g, r, d).DepEnqueue? || (DecideNode(g, r, d).DepSkipped? && r[d] == SKIPPED)
  }

  /** The node was released to run: it is a source, or its predecessors called for it. */
  ghost predicate Released(g: Graph, r: Records, d: string) {
    d in r && (IsSource(g, d) || DecideNode(g, r, d).DepEnqueue?)
  }

  /** Finishing or claiming a node disturbs no decision already taken. */
  lemma JustifiedUpdate(g: Graph, r: Records, c: string, rec: Record)
    requires Justified(g, r) && c in r && !IsTerminal(r[c].status) && !rec.status.Awaiting?
    ensures Justified(g, r[c := rec])
  {
    var r' := r[c := rec];
    assert Grows(r, r');
    forall d | d in r' && !IsSource(g, d)
      ensures DecideNode(g, r', d).DepEnqueue? || (DecideNode(g, r', d).DepSkipped? && r'[d] == SKIPPED)
    {
      DecisionIsFinal(r, r', Incoming(g.edges, d));
    }
  }

  /** So does recording a dependent as its predecessors demand. */
  lemma JustifiedAdd(g: Graph, r: Records, d: string, rec: Record)
    requires Justified(g, r) && d !in r && d in Ids(g.nodes)
    requires (rec == QUEUED && DecideNode(g, r, d).DepEnqueue?) || (rec == SKIPPED && DecideNode(g, r, d).DepSkipped?)
    ensures Justified(g, r[d := rec])
  {
    var r' := r[d := rec];
    forall x | x in r' && !IsSource(g, x)
      ensures DecideNode(g, r', x).DepEnqueue? || (DecideNode(g, r', x).DepSkipped? && r'[x] == SKIPPED)
    {
      DecisionIsFinal(r, r', Incoming(g.edges, x));
    }
  }

  // ----- fates

  ghost function PredIds(g: Graph, n: string): (s: set<string>)
    ensures forall e :: e in g.edges && e.to == n ==> e.from in s
  {
    set e | e in Incoming(g.edges, n) :: e.from
  }

  /**
    What becomes of `n` when every released node `x` ends as `outs(x)`: computed along
    the graph alone, with no mention of time.
   */
  ghost function Fate(g: Graph, rank: map<string, nat>, outs: string -> Record, n: string): Record
    requires Wired(g) && Ranked(g, rank) && n in Ids(g.nodes)
    decreases rank[n]
  {
    if IsSource(g, n) then outs(n)
    else
      var fates := map p | p in PredIds(g, n) :: Fate(g, rank, outs, p);
      if Decide(fates, Incoming(g.edges, n)).DepEnqueue? then outs(n) else SKIPPED
  }

  /** `outs` lists how the released nodes of `r` ended. */
  ghost predicate Outcomes(g: Graph, r: Records, outs: string -> Record) {
    forall d :: Released(g, r, d) && IsTerminal(r[d].status) ==> r[d] == outs(d)
  }

  /** Every finished node has met its fate. */
  lemma {:induction false} RecordIsFate(g: Graph, rank: map<string, nat>, outs: string -> Record,
                                        r: Records, n: string)
    requires Wired(g) && Ranked(g, rank) && Justified(g, r) && Outcomes(g, r, outs)
    requires n in r && IsTerminal(r[n].status)
    ensures r[n] == Fate(g, rank, outs, n)
    decreases rank[n]
  {
    if !IsSource(g, n) {
      var inc := Incoming(g.edges, n);
      var fates := map p | p in PredIds(g, n) :: Fate(g, rank, outs, p);
      forall e | e in inc
        ensures e.from in r && e.from in fates && r[e.from] == fates[e.from]
      {
        assert !Open(r, e);
        RecordIsFate(g, rank, outs, r, e.from);
      }
      SameEvidenceSameDecision(r, fates, inc);
    }
  }

  /**
    Schedule independence: two runs whose released nodes end alike agree on every node
    both have finished, whatever the interleavings were.
   */
  lemma ScheduleIndependence(g: Graph, rank: map<string, nat>, outs: string -> Record,
                             a: Records, b: Records, n: string)
    requires Wired(g) && Ranked(g, rank) && Justified(g, a) && Justified(g, b)
    requires Outcomes(g, a, outs) && Outcomes(g, b, outs)
    requires n in a && n in b && IsTerminal(a[n].status) && IsTerminal(b[n].status)
    ensures a[n] == b[n]
  {
    RecordIsFate(g, rank, outs, a, n);
    RecordIsFate(g, rank, outs, b, n);
  }

  ghost predicate FatalFate(g: Graph, rank: map<string, nat>, outs: string -> Record, n: string)
    requires Wired(g) && Ranked(g, rank)
  {
    n in Ids(g.nodes) && Fate(g, rank, outs, n).status.Failed? && FailurePropagates(g, n)
  }

  /** A run that ended on its records alone. */
  ghost predicate EndedOnRecords(g: Graph, r: Records, s: Status) {
    || (s.Succeeded? && RunVerdict(g, r) == Some(Succeeded))
    || (s.Failed? && exists n :: PropagatingFailure(g, r, n))
  }

  /** A finished run failed exactly when some node was bound to fail it. */
  lemma RunFailsIffSomeFateIsFatal(g: Graph, rank: map<string, nat>, outs: string -> Record,
                                   r: Records, s: Status)
    requires Wired(g) && Ranked(g, rank) && Justified(g, r) && Outcomes(g, r, outs) && EndedOnRecords(g, r, s)
    ensures s.Failed? <==> exists n :: FatalFate(g, rank, outs, n)
  {
    if s.Failed? {
      var n :| PropagatingFailure(g, r, n);
      RecordIsFate(g, rank, outs, r, n);
      assert FatalFate(g, rank, outs, n);
    } else {
      forall n | FatalFate(g, rank, outs, n) ensures false {
        var i :| 0 <= i < |g.nodes| && g.nodes[i].id == n;
        assert g.nodes[i] in g.nodes;
        RecordIsFate(g, rank, outs, r, n);
      }
    }
  }

  /** And exactly when a node that must not fail has failed. */
  lemma EndOnFailures(g: Graph, r: Records, s: Status)
    requires Justified(g, r) && EndedOnRecords(g, r, s)
    ensures s.Succeeded? || s.Failed?
    ensures s.Failed? <==> exists n :: n in r && r[n].status.Failed? && Fatal(g, n)
    ensures s.Succeeded? <==> forall n :: n in r && r[n].status.Failed? ==> Tolerated(g, n)
  {
    forall n ensures FailurePropagates(g, n) <==> Fatal(g, n) { FatalOrTolerated(g, n); }
    forall n ensures FailurePropagates(g, n) <==> !Tolerated(g, n) { FatalOrTolerated(g, n); }
    hide Tolerated, FailurePropagates, Fatal;
    if s.Succeeded? {
      forall n | n in r ensures !PropagatingFailure(g, r, n) {
        var i :| 0 <= i < |g.nodes| && g.nodes[i].id == n;
        assert g.nodes[i] in g.nodes;
      }
    } else {
      var n :| PropagatingFailure(g, r, n);
      assert n in r && r[n].status.Failed? && Fatal(g, n);
    }
  }

  // ----- routing

  /** A released dependent has only live or dormant wires, and at least one live wire. */
  lemma ReleasedOnlyByLiveWires(g: Graph, r: Records, d: string)
    requires Justified(g, r) && d in r && r[d] != SKIPPED && !IsSource(g, d)
    ensures forall e :: e in g.edges && e.to == d ==>
              e.from in r && IsTerminal(r[e.from].status) &&
              (ClassifyEdge(r[e.from], e).Active? || ClassifyEdge(r[e.from], e).Dormant?)
    ensures exists e :: e in g.edges && e.to == d && e.from in r && ClassifyEdge(r[e.from], e).Active?
  {
    var inc := Incoming(g.edges, d);
    assert Decide(r, inc).DepEnqueue?;
    forall e | e in g.edges && e.to == d
      ensures e.from in r && IsTerminal(r[e.from].status)
      ensures ClassifyEdge(r[e.from], e).Active? || ClassifyEdge(r[e.from], e).Dormant?
    {
      assert e in inc && !Open(r, e) && !Refuses(r[e.from], e);
    }
    var e :| e in inc && ClassifyEdge(r[e.from], e).Active?;
  }

  /** `e` leaves a succeeded node by a data port the node did not emit on. */
  predicate Declined(rec: Record, e: Edge) {
    rec.status.Succeeded? && !e.onError.Fallback? && e.fromPort != PASS_PORT && !Emits(rec, e.fromPort)
  }

  /** A walk along edges that tolerate nothing. */
  ghost predicate StrictWalk(g: Graph, walk: seq<string>) {
    && walk != []
    && forall i, j :: 0 <= i < j < |walk| && j == i + 1 ==>
         exists e :: e in g.edges && e.from == walk[i] && e.to == walk[j] && !e.onError.Skip? && !e.onError.Fallback?
  }

  /** Not released in `r`: either it has no record or it was skipped. */
  predicate NotRun(r: Records, d: string) {
    d in r ==> r[d] == SKIPPED
  }

  /**
    Exclusive routing: while the router is unfinished, and once it has declined an edge,
    nothing at or strictly behind that edge is released.
   */
  lemma {:induction false} DeclinedBranchNeverRuns(g: Graph, r: Records, e: Edge, rec: Record, walk: seq<string>, k: nat)
    requires Justified(g, r) && e in g.edges && Declined(rec, e)
    requires e.from in r && IsTerminal(r[e.from].status) ==> r[e.from] == rec
    requires StrictWalk(g, walk) && walk[0] == e.to && k < |walk|
    ensures NotRun(r, walk[k])
    decreases k
  {
    if walk[k] in r {
      var x := if k == 0 then e else
        var x :| x in g.edges && x.from == walk[k - 1] && x.to == walk[k] && !x.onError.Skip? && !x.onError.Fallback?; x;
      assert x in Incoming(g.edges, walk[k]);
      assert !Open(r, x);
      if k > 0 {
        DeclinedBranchNeverRuns(g, r, e, rec, walk, k - 1);
      }
      assert Refuses(r[x.from], x);
    }
  }
}
