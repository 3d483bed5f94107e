/**
  What holds of every interleaved execution.
 */
module InterleavedRuns {
  import opened Graphs
  import opened Decisions
  import opened RunStores
  import opened Fates
  import opened Interleaving
  import opened InterleavingInvariant

  // ----- joins

  /** Among predecessors that are all finished, one was finished last. */
  lemma {:induction false} LastToCommit(log: seq<string>, inc: seq<Edge>) returns (e: Edge, i: nat)
    requires inc != [] && forall x :: x in inc ==> x.from in log
    ensures e in inc && i < |log| && log[i] == e.from
    ensures forall x :: x in inc ==> x.from in log[..i + 1]
  {
    var last := inc[|inc| - 1];
    assert last.from in log;
    var k :| 0 <= k < |log| && log[k] == last.from;
    assert last.from in log[..k + 1] by { assert log[..k + 1][k] == last.from; }
    if |inc| == 1 {
      e, i := last, k;
    } else {
      var rest := inc[..|inc| - 1];
      assert inc == rest + [last];
      e, i := LastToCommit(log, rest);
      if i < k {
        forall x | x in rest ensures x.from in log[..k + 1] {
          var m :| 0 <= m < |log[..i + 1]| && log[..i + 1][m] == x.from;
          assert log[..k + 1][m] == x.from;
        }
        e, i := last, k;
      } else {
        assert log[..i + 1][k] == last.from;
      }
    }
  }

  /**
    No lost wake-up at a join: if the predecessor of `j` that was finished last was finished by a call
    of its own and that call has returned, a run that is still going has recorded `j`, however the
    others were finished and wherever their calls are.
   */
  lemma NoLostWakeUp(g: Graph, tr: seq<World>, i: nat, j: string, k: nat)
    requires Wired(g) && IsExecution(g, tr) && i < |tr| && tr[i].run.Alive?
    requires k < |tr[i].log| && tr[i].log[k] in tr[i].returned
    requires exists e :: e in g.edges && e.to == j && e.from == tr[i].log[k]
    requires forall e :: e in g.edges && e.to == j ==> e.from in tr[i].log[..k + 1]
    ensures j in tr[i].records
  {
    ExecutionKeepsInv(g, tr, i);
    var w := tr[i];
    var deps := Outgoing(g.edges, w.log[k]);
    assert j in deps;
    var m :| 0 <= m < |deps| && deps[m] == j;
    assert AllExamined(g, w, k + 1, w.log[k], |deps|);
    assert Examined(g, w, k + 1, deps[m]);
  }

  /** In a run that is still going there is such a last predecessor as soon as all are finished. */
  lemma LastPredecessor(g: Graph, tr: seq<World>, i: nat, j: string) returns (k: nat)
    requires Wired(g) && IsExecution(g, tr) && i < |tr| && tr[i].run.Alive? && j in Ids(g.nodes) && !IsSource(g, j)
    requires forall e :: e in g.edges && e.to == j ==> e.from in tr[i].records && IsTerminal(tr[i].records[e.from].status)
    ensures k < |tr[i].log| && exists e :: e in g.edges && e.to == j && e.from == tr[i].log[k]
    ensures forall e :: e in g.edges && e.to == j ==> e.from in tr[i].log[..k + 1]
  {
    ExecutionKeepsInv(g, tr, i);
    var inc := Incoming(g.edges, j);
    var some :| some in g.edges && some.to == j;
    assert some in inc;
    var e;
    e, k := LastToCommit(tr[i].log, inc);
  }

  // ----- time

  function Last(tr: seq<World>): World
    requires tr != []
  {
    tr[|tr| - 1]
  }

  /** An execution goes on with any stretch that starts where it ends. */
  lemma Append(g: Graph, tr: seq<World>, tail: seq<World>) returns (tr': seq<World>)
    requires tr != [] && IsExecution(g, tr) && IsTrace(g, tail) && tail[0] == Last(tr)
    ensures tr' != [] && IsExecution(g, tr') && Last(tr') == Last(tail) && tr <= tr'
  {
    hide Next;
    tr' := tr + tail[1..];
    forall i, j | 0 <= i < j < |tr'| && j == i + 1 ensures Next(g, tr'[i], tr'[j]) {
      if j < |tr| { assert Next(g, tr[i], tr[j]); }
      else { assert tr'[i] == tail[i + 1 - |tr|] && tr'[j] == tail[j + 1 - |tr|]; }
    }
  }

  /** What no step undoes. */
  ghost predicate Onward(w: World, w': World) {
    Grows(w.records, w'.records) && w.terminals <= w'.terminals && (w.run.Ended? ==> w'.run == w.run)
  }

  lemma DispatchOnward(g: Graph, w: World, pid: nat, p: Proc)
    requires p.work.Dispatching?
    ensures Onward(w, TickDispatching(g, w, pid, p))
  {
  }

  lemma CommitOnward(g: Graph, w: World, pid: nat, p: Proc)
    requires p.work.Planning?
    ensures Onward(w, Commit(g, w, pid, p))
  {
    if Interleaving.Pending(w.records, p.node) {
      var r := w.records[p.node := p.outcome];
      assert Grows(w.records, r) && Grows(r, EnqueueAll(r, p.work.enqueue));
    }
  }

  lemma EventOnward(g: Graph, w: World, ev: Event)
    requires Enabled(g, w, ev)
    ensures Onward(w, Apply(g, w, ev))
  {
    if ev.Tick? && w.procs[ev.pid].check.Idle? {
      var p := w.procs[ev.pid];
      match p.work
      case Dispatching(_, _, _) => DispatchOnward(g, w, ev.pid, p);
      case Planning(_, _, _, _) => if p.work.k >= |PlanDeps(g, p)| { CommitOnward(g, w, ev.pid, p); }
      case _ =>
    }
  }

  lemma OnwardNext(g: Graph, a: World, b: World, c: World)
    requires Onward(a, b) && Next(g, b, c)
    ensures Onward(a, c)
  {
    var ev :| Enabled(g, b, ev) && c == Apply(g, b, ev);
    EventOnward(g, b, ev);
    hide Next, Enabled, Apply;
  }

  lemma {:induction false} TraceOnward(g: Graph, tr: seq<World>, i: nat, j: nat)
    requires IsTrace(g, tr) && i <= j < |tr|
    ensures Onward(tr[i], tr[j])
    decreases j - i
  {
    hide Next;
    if i < j {
      TraceOnward(g, tr, i, j - 1);
      OnwardNext(g, tr[i], tr[j - 1], tr[j]);
    }
  }

  /**
    A run ends once: its end never changes, and at most one Terminal event is ever
    published, carrying the status the run ended with: Cancelled by a cancel, Failed by giving up on it.
   */
  lemma RunEndsOnce(g: Graph, tr: seq<World>, i: nat, j: nat)
    requires Wired(g) && IsExecution(g, tr) && i <= j < |tr|
    ensures tr[i].run.Ended? ==> tr[j].run == tr[i].run
    ensures tr[i].terminals != [] ==> tr[j].terminals == tr[i].terminals
    ensures |tr[j].terminals| <= 1
    ensures tr[j].terminals != [] ==> tr[j].run.Ended? && tr[j].terminals == [tr[j].run.status]
    ensures tr[j].run.Ended? ==> match tr[j].run.cause
                                 case OnCancel => tr[j].run.status == Cancelled
                                 case OnAbandon => tr[j].run.status == Failed
                                 case OnRecords => tr[j].run.status == Succeeded || tr[j].run.status == Failed
  {
    TraceOnward(g, tr, i, j);
    ExecutionKeepsInv(g, tr, i);
    ExecutionKeepsInv(g, tr, j);
    assert TerminalsOk(tr[i]) && TerminalsOk(tr[j]);
  }

  /** When the dust has settled on an ended run, its Terminal event has been published. */
  lemma EndedRunIsAnnounced(g: Graph, tr: seq<World>, i: nat)
    requires Wired(g) && IsExecution(g, tr) && i < |tr|
    requires tr[i].run.Ended? && tr[i].procs == map[]
    ensures tr[i].terminals == [tr[i].run.status]
  {
    ExecutionKeepsInv(g, tr, i);
  }

  // ----- fates and routing

  /** Under any interleaving, a finished node has met its fate. */
  lemma EveryScheduleMeetsFate(g: Graph, rank: map<string, nat>, outs: string -> Record, tr: seq<World>, i: nat, n: string)
    requires Wired(g) && Ranked(g, rank) && IsExecution(g, tr) && i < |tr|
    requires Outcomes(g, tr[i].records, outs)
    requires n in tr[i].records && IsTerminal(tr[i].records[n].status)
    ensures n in Ids(g.nodes) && tr[i].records[n] == Fate(g, rank, outs, n)
  {
    ExecutionKeepsInv(g, tr, i);
    RecordIsFate(g, rank, outs, tr[i].records, n);
  }

  /** Under any interleaving, a run that ends on its records fails exactly when some fate is fatal. */
  lemma EveryScheduleMeetsOutcome(g: Graph, rank: map<string, nat>, outs: string -> Record, tr: seq<World>, i: nat)
    requires Wired(g) && Ranked(g, rank) && IsExecution(g, tr) && i < |tr|
    requires Outcomes(g, tr[i].records, outs) && tr[i].run.Ended? && tr[i].run.cause.OnRecords?
    ensures tr[i].run.status.Failed? <==> exists n :: FatalFate(g, rank, outs, n)
  {
    ExecutionKeepsInv(g, tr, i);
    RunFailsIffSomeFateIsFatal(g, rank, outs, tr[i].records, tr[i].run.status);
  }

  /** In terms of the flow alone: it fails exactly when a node that must not fail has failed. */
  lemma EveryScheduleFailsOnFatalFailures(g: Graph, tr: seq<World>, i: nat)
    requires Wired(g) && IsExecution(g, tr) && i < |tr| && tr[i].run.Ended? && tr[i].run.cause.OnRecords?
    ensures tr[i].run.status.Failed? <==> exists n :: n in tr[i].records && tr[i].records[n].status.Failed? && Fatal(g, n)
    ensures tr[i].run.status.Succeeded? <==> forall n :: n in tr[i].records && tr[i].records[n].status.Failed? ==> Tolerated(g, n)
  {
    ExecutionKeepsInv(g, tr, i);
    EndOnFailures(g, tr[i].records, tr[i].run.status);
  }

  /**
    Exclusive routing over whole executions: if a node ever succeeds without emitting
    on a data port, nothing at or strictly behind an edge from that port runs, before or after.
   */
  lemma DeclinedBranchNeverRunsAnywhere(g: Graph, tr: seq<World>, i: nat, j: nat, e: Edge, walk: seq<string>, k: nat)
    requires Wired(g) && IsExecution(g, tr) && i < |tr| && j < |tr|
    requires e in g.edges && e.from in tr[j].records && Declined(tr[j].records[e.from], e)
    requires StrictWalk(g, walk) && walk[0] == e.to && k < |walk|
    ensures NotRun(tr[i].records, walk[k])
  {
    ExecutionKeepsInv(g, tr, i);
    if i <= j { TraceOnward(g, tr, i, j); } else { TraceOnward(g, tr, j, i); }
    DeclinedBranchNeverRuns(g, tr[i].records, e, tr[j].records[e.from], walk, k);
  }

  /** Under any interleaving, a released dependent has only live or dormant wires, one of them live. */
  lemma ReleasedByLiveWiresAnywhere(g: Graph, tr: seq<World>, i: nat, d: string)
    requires Wired(g) && IsExecution(g, tr) && i < |tr|
    requires d in tr[i].records && tr[i].records[d] != SKIPPED && !IsSource(g, d)
    ensures forall e :: e in g.edges && e.to == d ==>
              e.from in tr[i].records && IsTerminal(tr[i].records[e.from].status) &&
              (ClassifyEdge(tr[i].records[e.from], e).Active? || ClassifyEdge(tr[i].records[e.from], e).Dormant?)
    ensures exists e :: e in g.edges && e.to == d && e.from in tr[i].records && ClassifyEdge(tr[i].records[e.from], e).Active?
    ensures LiveInto(g, tr[i].records, d)
  {
    ExecutionKeepsInv(g, tr, i);
    ReleasedOnlyByLiveWires(g, tr[i].records, d);
    EnqueuedExactlyIfLive(g, tr[i].records, d);
  }
}
