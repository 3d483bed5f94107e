/**
  What holds once the calls for a node have returned, said of the calls in flight.
 */
module Returning {
  import opened Graphs
  import opened Decisions
  import opened RunStores
  import opened Interleaving
  import opened InterleavingInvariant
  import opened InterleavedRuns
  import opened Cancelling
  import opened Joins
  import opened Endings

  /** The call that finished `n` has returned, or is in flight. */
  ghost predicate ReturnedOrBusy(w: World, n: string) {
    n in w.returned || exists i :: i in w.procs && w.procs[i].node == n && w.procs[i].epoch > 0
  }

  lemma TickIsBusy(g: Graph, w: World, pid: nat, w': World)
    requires pid in w.procs && w' == Apply(g, w, Tick(pid)) && w.procs[pid].epoch > 0
    ensures w.procs[pid].node in w'.returned || (pid in w'.procs && w'.procs[pid].node == w.procs[pid].node && w'.procs[pid].epoch > 0)
  {
    hide NextProbe, Decide, View, Lookup, RunVerdict, EnqueueAll, Advances, Conclude, Incoming, Outgoing, Bump;
  }

  lemma ReturnedKept(g: Graph, w: World, ev: Event)
    requires Enabled(g, w, ev)
    ensures w.returned <= Apply(g, w, ev).returned
  {
    hide NextProbe, Decide, View, Lookup, RunVerdict, EnqueueAll, Advances, Conclude, Incoming, Outgoing, Bump;
  }

  lemma NextKeepsBusy(g: Graph, w: World, w': World, n: string)
    requires Next(g, w, w') && ReturnedOrBusy(w, n)
    ensures ReturnedOrBusy(w', n)
  {
    var ev :| Enabled(g, w, ev) && w' == Apply(g, w, ev);
    ReturnedKept(g, w, ev);
    hide Enabled, Apply;
    if n !in w.returned {
      var i :| i in w.procs && w.procs[i].node == n && w.procs[i].epoch > 0;
      if ev == Tick(i) { TickIsBusy(g, w, i, w'); } else { OthersStand(g, w, ev, i); }
    }
  }

  /** In this step a pending node is finished by a call. */
  ghost predicate Completes(w: World, w': World, n: string) {
    Interleaving.Pending(w.records, n) && n !in w.log && n in w'.log
  }

  lemma LogsOwnNode(g: Graph, w: World, pid: nat, n: string, w': World)
    requires pid in w.procs && w' == Apply(g, w, Tick(pid)) && n in w'.log && n !in w.log && n in w.records
    ensures pid in w'.procs && w'.procs[pid].node == n && w'.procs[pid].epoch > 0
  {
    hide NextProbe, Decide, View, Lookup, RunVerdict, EnqueueAll, Advances, Conclude, Incoming, Outgoing, Bump;
  }

  lemma CompletionIsBusy(g: Graph, w: World, w': World, n: string)
    requires Next(g, w, w') && Completes(w, w', n)
    ensures ReturnedOrBusy(w', n)
  {
    var ev :| Enabled(g, w, ev) && w' == Apply(g, w, ev);
    OnlyTicksLog(g, w, ev);
    hide Apply;
    LogsOwnNode(g, w, ev.pid, n, w');
  }

  lemma OnlyTicksLog(g: Graph, w: World, ev: Event)
    requires Enabled(g, w, ev)
    ensures Apply(g, w, ev).log == w.log || ev.Tick?
  {
  }

  lemma {:induction false} BusySince(g: Graph, tr: seq<World>, k: nat, i: nat, n: string)
    requires IsTrace(g, tr) && k <= i < |tr| && ReturnedOrBusy(tr[k], n)
    ensures ReturnedOrBusy(tr[i], n)
    decreases i
  {
    hide Next, ReturnedOrBusy;
    if k < i {
      BusySince(g, tr, k, i - 1, n);
      NextKeepsBusy(g, tr[i - 1], tr[i], n);
    }
  }

  /** The step that put `n` into the log. */
  lemma {:induction false} LoggingStep(tr: seq<World>, i: nat, n: string) returns (k: nat)
    requires i < |tr| && n !in tr[0].log && n in tr[i].log
    ensures k < i && n !in tr[k].log && n in tr[k + 1].log
    decreases i
  {
    if n in tr[i - 1].log { k := LoggingStep(tr, i - 1, n); } else { k := i - 1; }
  }

  /** No call for `n` is in flight. */
  ghost predicate NoCallFor(w: World, n: string) {
    forall p :: p in w.procs ==> w.procs[p].node != n
  }

  /** A node that a call of its own finished counts as returned as soon as no call for it is in flight. */
  lemma ReturnedOnceIdle(g: Graph, tr: seq<World>, k: nat, i: nat, n: string)
    requires IsExecution(g, tr) && k < i < |tr| && Completes(tr[k], tr[k + 1], n) && NoCallFor(tr[i], n)
    ensures n in tr[i].returned
  {
    assert Next(g, tr[k], tr[k + 1]);
    hide Next;
    CompletionIsBusy(g, tr[k], tr[k + 1], n);
    BusySince(g, tr, k + 1, i, n);
  }

  /**
    No lost wake-up, said of the calls: if the predecessor of `j` that was finished last was pending when it was
    finished, so that a call of its own did it, and no call for it is in flight any more, then a run that
    goes on has recorded `j`.
   */
  lemma JoinIsRecorded(g: Graph, tr: seq<World>, k: nat, i: nat, x: string, j: string)
    requires Wired(g) && IsExecution(g, tr) && k < i < |tr| && tr[i].run.Alive?
    requires Completes(tr[k], tr[k + 1], x) && NoCallFor(tr[i], x) && Precedes(g, x, j)
    requires forall y :: Precedes(g, y, j) ==> y in tr[k + 1].records && IsTerminal(tr[k + 1].records[y].status)
    ensures j in tr[i].records
  {
    ReturnedOnceIdle(g, tr, k, i, x);
    ExecutionKeepsInv(g, tr, k);
    ExecutionKeepsInv(g, tr, k + 1);
    TraceOnward(g, tr, k + 1, i);
    LogGrows(g, tr, k + 1, i);
    assert Next(g, tr[k], tr[k + 1]);
    assert LogOk(tr[k + 1]) && tr[k + 1].run.Alive?;
    hide Next, Inv;
    var log := tr[k + 1].log;
    LastLogged(g, tr[k], tr[k + 1], x);
    forall e | e in g.edges && e.to == j ensures e.from in tr[i].log[..|log|] {
      assert Precedes(g, e.from, j);
      assert tr[i].log[..|log|] == log;
    }
    assert tr[i].log[|log| - 1] == x;
    var e :| e in g.edges && e.from == x && e.to == j;
    NoLostWakeUp(g, tr, i, j, |log| - 1);
  }

  lemma LastLogged(g: Graph, w: World, w': World, n: string)
    requires Next(g, w, w') && n !in w.log && n in w'.log
    ensures w'.log != [] && w'.log[|w'.log| - 1] == n
  {
    var ev :| Enabled(g, w, ev) && w' == Apply(g, w, ev);
    LogsOne(g, w, ev);
    hide Enabled, Apply;
  }

  lemma LogsOne(g: Graph, w: World, ev: Event)
    requires Enabled(g, w, ev)
    ensures var l := Apply(g, w, ev).log; l == w.log || (|l| == |w.log| + 1 && l[..|w.log|] == w.log)
  {
    hide NextProbe, Decide, View, Lookup, RunVerdict, EnqueueAll, Advances, Conclude, Incoming, Outgoing, Bump;
  }

  lemma {:induction false} LogGrows(g: Graph, tr: seq<World>, k: nat, i: nat)
    requires IsTrace(g, tr) && k <= i < |tr|
    ensures tr[k].log <= tr[i].log
    decreases i
  {
    hide Enabled, Apply;
    if k < i {
      LogGrows(g, tr, k, i - 1);
      var w, w' := tr[i - 1], tr[i];
      assert Next(g, w, w');
      var ev :| Enabled(g, w, ev) && w' == Apply(g, w, ev);
      LogsOne(g, w, ev);
    }
  }

  /** A failure that must not happen has ended the run as soon as no call for its node is in flight. */
  lemma FatalFailureEndsIdleRun(g: Graph, tr: seq<World>, i: nat, n: string)
    requires Wired(g) && IsExecution(g, tr) && i < |tr| && n in tr[i].records
    requires tr[i].records[n].status == Failed && Fatal(g, n) && NoCallFor(tr[i], n)
    ensures tr[i].run.Ended?
  {
    FinishedOrCancelled(g, tr, i, n);
    StartsEmpty(g, tr[0]);
    var k := LoggingStep(tr, i, n);
    ExecutionKeepsInv(g, tr, k);
    ExecutionKeepsInv(g, tr, k + 1);
    TraceOnward(g, tr, k + 1, i);
    assert LogOk(tr[k + 1]) && tr[k + 1].records[n] == tr[i].records[n];
    assert Next(g, tr[k], tr[k + 1]);
    hide Inv, Fatal, IsExecution;
    if n in tr[k].records {
      assert Completes(tr[k], tr[k + 1], n) by { NotYetFinished(g, tr, k, n); }
      ReturnedOnceIdle(g, tr, k, i, n);
      FatalFailureEndsTheRun(g, tr, i, n);
    } else {
      RecordedAsTheEdgesDemand(g, tr, k, n);
    }
  }

  lemma NotYetFinished(g: Graph, tr: seq<World>, k: nat, n: string)
    requires Wired(g) && IsExecution(g, tr) && k + 1 < |tr| && n in tr[k].records && n !in tr[k].log && n in tr[k + 1].log
    ensures Interleaving.Pending(tr[k].records, n)
  {
    ExecutionKeepsLedger(g, tr, k);
    ExecutionKeepsLedger(g, tr, k + 1);
    ExecutionKeepsInv(g, tr, k + 1);
    TraceOnward(g, tr, k, k + 1);
    assert LogOk(tr[k + 1]);
  }
}
