/**
  Whole runs in which each completion and its advance happen as one pass.
  No node is left behind, and the result does not depend on the completion path.
 */
module AtomicRuns {
  import opened Graphs
  import opened Decisions
  import opened Passes
  import opened RunStores
  import opened Dispatcher
  import opened Fates

  /** Submission queues exactly the sources. */
  ghost predicate Init(g: Graph, s: RunState) {
    && s.status == Running && s.terminals == []
    && (forall d :: d in s.records <==> IsSource(g, d))
    && (forall d :: d in s.records ==> s.records[d] == QUEUED)
  }

  /** How a claimed node can end: it ran, it was switched off, or its run was already over. */
  ghost predicate WorkerResult(s: RunState, rec: Record) {
    || rec.status.Succeeded?
    || rec.status.Failed?
    || (rec == SKIPPED && !IsTerminal(s.status))
    || (rec.status.Cancelled? && IsTerminal(s.status))
  }

  const RUNNING := Record(Running, None)

  /** Claiming a queued node, or putting a claimed one back for a retry. */
  ghost predicate ClaimStep(s: RunState, c: string, s': RunState) {
    && c in s.records
    && ((s.records[c] == QUEUED && s' == s.(records := s.records[c := RUNNING]))
        || (s.records[c] == RUNNING && s' == s.(records := s.records[c := QUEUED])))
  }

  ghost predicate FinishStep(g: Graph, s: RunState, c: string, rec: Record, s': RunState) {
    WorkerResult(s, rec) && PassStep(g, s, c, rec, s')
  }

  ghost predicate Step(g: Graph, s: RunState, s': RunState) {
    || (exists c :: ClaimStep(s, c, s'))
    || (exists c, rec :: FinishStep(g, s, c, rec, s'))
  }

  ghost predicate IsRun(g: Graph, run: seq<RunState>) {
    && run != [] && Init(g, run[0])
    && forall i, j :: 0 <= i < j < |run| && j == i + 1 ==> Step(g, run[i], run[j])
  }

  // ----- the invariant

  /** A dependent has a record exactly when its predecessors have all finished. */
  ghost predicate Closed(g: Graph, r: Records) {
    forall d :: d in Ids(g.nodes) && !IsSource(g, d) ==> (d in r <==> !DecideNode(g, r, d).DepWaiting?)
  }

  ghost predicate Live(g: Graph, s: RunState) {
    && s.status == Running && s.terminals == []
    && (forall d :: IsSource(g, d) ==> d in s.records)
    && Closed(g, s.records)
    && (forall d :: !PropagatingFailure(g, s.records, d))
    && (exists d :: d in s.records && !IsTerminal(s.records[d].status))
  }

  ghost predicate Over(g: Graph, s: RunState) {
    EndedOnRecords(g, s.records, s.status) && s.terminals == [s.status]
  }

  ghost predicate Inv(g: Graph, s: RunState) {
    Justified(g, s.records) && (Live(g, s) || Over(g, s))
  }

  lemma JustifiedSpread(g: Graph, r: Records, r': Records, t: set<string>)
    requires Justified(g, r) && Spread(g, r, r', t, t)
    ensures Justified(g, r')
  {
    forall d | d in r' && !IsSource(g, d)
      ensures DecideNode(g, r', d).DepEnqueue? || (DecideNode(g, r', d).DepSkipped? && r'[d] == SKIPPED)
    {
      if d in r {
        PassKeepsDecision(g, r, r', d);
      }
    }
  }

  /** A pass re-establishes closure: only the finished node and the new skips can release anything. */
  lemma ClosedAfterPass(g: Graph, r: Records, c: string, rec: Record, r': Records)
    requires Justified(g, r) && Closed(g, r) && c in r && !IsTerminal(r[c].status) && !rec.status.Awaiting?
    requires Spread(g, r[c := rec], r', Targets(g, c), Targets(g, c))
    ensures Closed(g, r')
  {
    var r1 := r[c := rec];
    JustifiedUpdate(g, r, c, rec);
    JustifiedSpread(g, r1, r', Targets(g, c));
    forall d | d in Ids(g.nodes) && !IsSource(g, d) && !DecideNode(g, r', d).DepWaiting?
      ensures d in r'
    {
      if d !in r {
        assert DecideNode(g, r, d).DepWaiting?;
        var e := OpenEdge(r, Incoming(g.edges, d));
        assert e in g.edges && e.to == d;
        if e.from == c {
          assert d in Outgoing(g.edges, c);
        } else {
          assert e in Incoming(g.edges, d) && Open(r1, e);
          NewlyDecidable(g, r1, r', Targets(g, c), Targets(g, c), d);
        }
      }
    }
  }

  /** Recording a finished node and spreading cannot conjure up a fatal failure. */
  lemma NoNewFailure(g: Graph, r: Records, c: string, rec: Record, r': Records, t: set<string>)
    requires forall d :: !PropagatingFailure(g, r, d)
    requires Spread(g, r[c := rec], r', t, t)
    requires !(rec.status.Failed? && FailurePropagates(g, c))
    ensures forall d :: !PropagatingFailure(g, r', d)
  {
    forall d | d in r' && r'[d].status.Failed? ensures !FailurePropagates(g, d) {
      assert d in r[c := rec] && r'[d] == r[c := rec][d];
      if d != c { assert !PropagatingFailure(g, r, d); }
    }
  }

  lemma AllRecordedIsVerdict(g: Graph, r: Records)
    requires forall d :: !PropagatingFailure(g, r, d)
    ensures RunVerdict(g, r) != Some(Failed)
    ensures RunVerdict(g, r).None? ==> exists n :: n in g.nodes && !(n.id in r && IsTerminal(r[n.id].status))
  {
  }

  /** If everything recorded is terminal and records are closed, every node is recorded. */
  lemma {:induction false} EveryNodeRecorded(g: Graph, rank: map<string, nat>, r: Records, n: string)
    requires Runnable(g, rank) && Closed(g, r) && NoParking(r)
    requires forall d :: IsSource(g, d) ==> d in r
    requires forall d :: d in r ==> IsTerminal(r[d].status)
    requires n in Ids(g.nodes)
    ensures n in r
    decreases rank[n]
  {
    if !IsSource(g, n) {
      var inc := Incoming(g.edges, n);
      forall e | e in inc ensures !Open(r, e) {
        EveryNodeRecorded(g, rank, r, e.from);
      }
      assert !DecideNode(g, r, n).DepWaiting?;
    }
  }

  /** A live run whose check found it unfinished still has a pending node. */
  lemma UnfinishedHasPending(g: Graph, rank: map<string, nat>, r: Records)
    requires Runnable(g, rank) && Closed(g, r) && NoParking(r)
    requires forall d :: IsSource(g, d) ==> d in r
    requires forall d :: !PropagatingFailure(g, r, d)
    requires RunVerdict(g, r) != Some(Succeeded)
    ensures exists d :: d in r && !IsTerminal(r[d].status)
  {
    if forall d :: d in r ==> IsTerminal(r[d].status) {
      AllRecordedIsVerdict(g, r);
      var n :| n in g.nodes && !(n.id in r && IsTerminal(r[n.id].status));
      EveryNodeRecorded(g, rank, r, n.id);
      assert false;
    }
  }

  lemma SourceExists(g: Graph, rank: map<string, nat>, n: string) returns (s: string)
    requires Runnable(g, rank) && n in Ids(g.nodes)
    ensures IsSource(g, s)
    decreases rank[n]
  {
    if IsSource(g, n) {
      s := n;
    } else {
      var e :| e in g.edges && e.to == n;
      s := SourceExists(g, rank, e.from);
    }
  }

  lemma InitInv(g: Graph, rank: map<string, nat>, s: RunState)
    requires Runnable(g, rank) && Init(g, s)
    ensures Inv(g, s)
  {
    assert g.nodes[0].id in Ids(g.nodes);
    var src := SourceExists(g, rank, g.nodes[0].id);
    assert src in s.records && !IsTerminal(s.records[src].status);
    forall d | d in Ids(g.nodes) && !IsSource(g, d)
      ensures DecideNode(g, s.records, d).DepWaiting?
    {
      var e :| e in g.edges && e.to == d;
      assert e in Incoming(g.edges, d) && Open(s.records, e);
    }
  }

  lemma ClaimKeepsWaiting(g: Graph, s: RunState, c: string, s': RunState, d: string)
    requires ClaimStep(s, c, s')
    ensures DecideNode(g, s.records, d).DepWaiting? <==> DecideNode(g, s'.records, d).DepWaiting?
  {
    forall e | e in Incoming(g.edges, d) ensures Open(s.records, e) == Open(s'.records, e) {}
  }

  lemma ClaimKeepsInv(g: Graph, s: RunState, c: string, s': RunState)
    requires Inv(g, s) && ClaimStep(s, c, s')
    ensures Inv(g, s')
  {
    var r, r' := s.records, s'.records;
    JustifiedUpdate(g, r, c, r'[c]);
    forall d ensures DecideNode(g, r, d).DepWaiting? <==> DecideNode(g, r', d).DepWaiting? {
      ClaimKeepsWaiting(g, s, c, s', d);
    }
    hide DecideNode, FailurePropagates, Justified, IsSource, Ids, RunVerdict;
    if Over(g, s) {
      EndSurvives(g, r, r', s.status);
    } else {
      forall d ensures !PropagatingFailure(g, r', d) {
        assert !PropagatingFailure(g, r, d);
      }
      assert c in r' && !IsTerminal(r'[c].status);
    }
  }

  lemma EndSurvives(g: Graph, r: Records, r': Records, s: Status)
    requires EndedOnRecords(g, r, s) && Grows(r, r')
    ensures EndedOnRecords(g, r', s)
  {
    if s.Succeeded? {
      VerdictIsFinal(g, g.nodes, r, r');
    } else {
      var n :| PropagatingFailure(g, r, n);
      assert PropagatingFailure(g, r', n);
    }
  }

  /** The completion check after a pass ends the run exactly when nothing is left to do. */
  lemma CheckedRunKeepsInv(g: Graph, rank: map<string, nat>, s: RunState, s': RunState)
    requires Runnable(g, rank) && Justified(g, s'.records) && Closed(g, s'.records) && Concluded(g, s, s')
    requires forall d :: IsSource(g, d) ==> d in s'.records
    requires forall d :: !PropagatingFailure(g, s'.records, d)
    requires s.status == Running && s.terminals == []
    ensures Inv(g, s')
  {
    AllRecordedIsVerdict(g, s'.records);
    if RunVerdict(g, s'.records) == Some(Succeeded) {
      NoQueueAtVerdict(g, s'.records);
      assert Over(g, s');
    } else {
      UnfinishedHasPending(g, rank, s'.records);
      assert Live(g, s');
    }
  }

  lemma LivePassKeepsInv(g: Graph, rank: map<string, nat>, s: RunState, c: string, rec: Record, s': RunState)
    requires Runnable(g, rank) && Justified(g, s.records) && Live(g, s) && FinishStep(g, s, c, rec, s')
    requires !(rec.status.Failed? && FailurePropagates(g, c))
    ensures Inv(g, s')
  {
    var r' := s'.records;
    assert forall d :: d in s.records ==> d in r';
    hide Spread, Justified, FailurePropagates, IsSource, Closed, Concluded, Targets, PropagatingFailure;
    JustifiedUpdate(g, s.records, c, rec);
    JustifiedSpread(g, s.records[c := rec], r', Targets(g, c));
    ClosedAfterPass(g, s.records, c, rec, r');
    NoNewFailure(g, s.records, c, rec, r', Targets(g, c));
    CheckedRunKeepsInv(g, rank, s, s');
  }

  lemma FinishKeepsInv(g: Graph, rank: map<string, nat>, s: RunState, c: string, rec: Record, s': RunState)
    requires Runnable(g, rank) && Inv(g, s) && FinishStep(g, s, c, rec, s')
    ensures Inv(g, s')
  {
    if Live(g, s) && !(rec.status.Failed? && FailurePropagates(g, c)) {
      LivePassKeepsInv(g, rank, s, c, rec, s');
    } else {
      JustifiedUpdate(g, s.records, c, rec);
      hide Spread, Justified, FailurePropagates, IsSource, Ids, Closed, RunVerdict, Queueing;
      if Over(g, s) {
        EndSurvives(g, s.records, s'.records, s.status);
      } else {
        assert PropagatingFailure(g, s'.records, c);
      }
    }
  }

  lemma NoQueueAtVerdict(g: Graph, r: Records)
    requires RunVerdict(g, r) == Some(Succeeded)
    ensures !Queueing(g, r)
  {
    if x :| x in r && x in Ids(g.nodes) && r[x] == QUEUED {
      var i :| 0 <= i < |g.nodes| && g.nodes[i].id == x;
      assert g.nodes[i] in g.nodes;
    }
  }

  lemma StepKeepsInv(g: Graph, rank: map<string, nat>, s: RunState, s': RunState)
    requires Runnable(g, rank) && Inv(g, s) && Step(g, s, s')
    ensures Inv(g, s')
  {
    if c :| ClaimStep(s, c, s') {
      ClaimKeepsInv(g, s, c, s');
    } else {
      var c, rec :| FinishStep(g, s, c, rec, s');
      FinishKeepsInv(g, rank, s, c, rec, s');
    }
  }

  lemma {:induction false} RunKeepsInv(g: Graph, rank: map<string, nat>, run: seq<RunState>, i: nat)
    requires Runnable(g, rank) && IsRun(g, run) && i < |run|
    ensures Inv(g, run[i])
  {
    if i == 0 {
      InitInv(g, rank, run[0]);
    } else {
      RunKeepsInv(g, rank, run, i - 1);
      StepKeepsInv(g, rank, run[i - 1], run[i]);
    }
  }

  // ----- theorems

  /** All predecessors of `d` have finished. */
  predicate PredecessorsDone(g: Graph, r: Records, d: string) {
    forall e :: e in g.edges && e.to == d ==> e.from in r && IsTerminal(r[e.from].status)
  }

  /**
    No stranded run: in every reachable state of an unfinished run a dependent has a
    record exactly when its predecessors are done; and once nothing is pending the run
    has succeeded or failed, with that one Terminal event published.
   */
  lemma NoStrandedRun(g: Graph, rank: map<string, nat>, run: seq<RunState>, i: nat)
    requires Runnable(g, rank) && IsRun(g, run) && i < |run|
    ensures var s := run[i];
            !IsTerminal(s.status) ==>
              forall d :: d in Ids(g.nodes) && !IsSource(g, d) ==> (d in s.records <==> PredecessorsDone(g, s.records, d))
    ensures var s := run[i];
            (forall d :: d in s.records ==> IsTerminal(s.records[d].status)) ==>
              (s.status.Succeeded? || s.status.Failed?) && s.terminals == [s.status]
  {
    RunKeepsInv(g, rank, run, i);
    var r := run[i].records;
    forall d | d in Ids(g.nodes)
      ensures PredecessorsDone(g, r, d) <==> !DecideNode(g, r, d).DepWaiting?
    {
      var inc := Incoming(g.edges, d);
      if DecideNode(g, r, d).DepWaiting? {
        var e := OpenEdge(r, inc);
      } else {
        assert forall e :: e in g.edges && e.to == d ==> e in inc && !Open(r, e);
      }
    }
  }

  /** A node is recorded once its predecessors are finished: queued exactly if the edges into it call for it, and skipped otherwise. */
  lemma QueuedExactlyIfLive(g: Graph, rank: map<string, nat>, run: seq<RunState>, i: nat, d: string)
    requires Runnable(g, rank) && IsRun(g, run) && i + 1 < |run| && d !in run[i].records && d in run[i + 1].records
    ensures PredecessorsDone(g, run[i + 1].records, d)
    ensures run[i + 1].records[d].status == if LiveInto(g, run[i + 1].records, d) then Queued else Skipped
  {
    RunKeepsInv(g, rank, run, i + 1);
    var s, s' := run[i], run[i + 1];
    assert Step(g, s, s') && NoParking(s'.records);
    hide Inv, IsRun;
    StepRecords(g, s, s', d);
    EnqueuedExactlyIfLive(g, s'.records, d);
    hide Decide, LiveInto;
    forall e | e in g.edges && e.to == d ensures e.from in s'.records && IsTerminal(s'.records[e.from].status) {
      assert e in Incoming(g.edges, d);
      ClosedEdge(s'.records, Incoming(g.edges, d), e);
    }
  }

  lemma StepRecords(g: Graph, s: RunState, s': RunState, d: string)
    requires Step(g, s, s') && d !in s.records && d in s'.records
    ensures !DecideNode(g, s'.records, d).DepWaiting?
    ensures s'.records[d].status == if DecideNode(g, s'.records, d).DepEnqueue? then Queued else Skipped
  {
    hide Decide, FailurePropagates, Concluded;
    if c, rec :| FinishStep(g, s, c, rec, s') { assert d !in s.records[c := rec]; }
  }

  /** A finished run is failed exactly when some node's fate is a failure that propagates. */
  lemma FinishedRunOutcome(g: Graph, rank: map<string, nat>, outs: string -> Record, run: seq<RunState>, i: nat)
    requires Runnable(g, rank) && IsRun(g, run) && i < |run|
    requires IsTerminal(run[i].status) && Outcomes(g, run[i].records, outs)
    ensures run[i].status.Failed? <==> exists n :: FatalFate(g, rank, outs, n)
    ensures run[i].status.Succeeded? <==> !exists n :: FatalFate(g, rank, outs, n)
  {
    RunKeepsInv(g, rank, run, i);
    RunFailsIffSomeFateIsFatal(g, rank, outs, run[i].records, run[i].status);
  }

  /**
    A finished run failed exactly if some node that must not fail did, and succeeded exactly if
    every node that failed may.
   */
  lemma RunFailsOnFatalFailures(g: Graph, rank: map<string, nat>, run: seq<RunState>, i: nat)
    requires Runnable(g, rank) && IsRun(g, run) && i < |run| && IsTerminal(run[i].status)
    ensures run[i].status.Failed? <==> exists n :: n in run[i].records && run[i].records[n].status.Failed? && Fatal(g, n)
    ensures run[i].status.Succeeded? <==> forall n :: n in run[i].records && run[i].records[n].status.Failed? ==> Tolerated(g, n)
  {
    RunKeepsInv(g, rank, run, i);
    EndOnFailures(g, run[i].records, run[i].status);
  }

  /** From a reachable state, a completion has one result, whichever path carries it out. */
  lemma CompletionPathsAgree(g: Graph, rank: map<string, nat>, s: RunState, c: string, rec: Record,
                             a: RunState, b: RunState)
    requires Runnable(g, rank) && Inv(g, s) && WorkerResult(s, rec)
    requires PassStep(g, s, c, rec, a) && PassStep(g, s, c, rec, b)
    ensures a == b
  {
    if Live(g, s) && !(rec.status.Failed? && FailurePropagates(g, c)) {
      var r1 := s.records[c := rec];
      SpreadUnique(g, rank, r1, a.records, b.records, Targets(g, c));
      NoNewFailure(g, s.records, c, rec, a.records, Targets(g, c));
      AllRecordedIsVerdict(g, a.records);
      if RunVerdict(g, a.records) == Some(Succeeded) {
        NoQueueAtVerdict(g, a.records);
      }
    }
  }
}
