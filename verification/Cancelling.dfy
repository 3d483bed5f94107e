/**
  Cancelling a run: the run record is flipped first, then every node is swept.
  Every node recorded at the flip is finished by the sweep. A node can escape it only by being queued
  behind the sweep by a call that was past its check at the flip.
 */
module Cancelling {
  import opened Graphs
  import opened Decisions
  import opened RunStores
  import opened Interleaving
  import opened InterleavingInvariant
  import opened InterleavedRuns

  // ----- what an ended run still does

  /**
    Once the run has ended, transactional completions queue nothing: a record can only
    be added by a call that was already inside its dispatch loop.
   */
  lemma OnlyDispatchAddsRecords(g: Graph, w: World, ev: Event)
    requires Enabled(g, w, ev) && w.run.Ended? && Apply(g, w, ev).records.Keys != w.records.Keys
    ensures ev.Tick? && w.procs[ev.pid].work.Dispatching? && w.procs[ev.pid].check.Idle?
  {
  }

  /** The call is dispatching, or is past the last look at the run record before it does. */
  predicate PastTheCheck(p: Proc) {
    p.work.Dispatching? || p.work.SkipWriting?
  }

  /** After the end no call gets past the check any more. */
  lemma NoneGetsPast(g: Graph, w: World, ev: Event, q: nat)
    requires Enabled(g, w, ev) && w.run.Ended?
    requires q in Apply(g, w, ev).procs && PastTheCheck(Apply(g, w, ev).procs[q])
    ensures q in w.procs && PastTheCheck(w.procs[q])
  {
    hide NextProbe, Decide, View, Lookup, RunVerdict, EnqueueAll, Advances, Conclude, Incoming, Outgoing, Bump;
  }

  /** Call `p` is one store write away from queueing the unrecorded node `d`. */
  ghost predicate AboutToQueue(g: Graph, r: Records, p: Proc, d: string) {
    && p.check.Idle? && p.work.Dispatching? && p.work.stack != []
    && var top := p.work.stack[|p.work.stack| - 1];
       var deps := Outgoing(g.edges, top.node);
       && top.k < |deps| && deps[top.k] == d && d !in r
       && NextProbe(p.work.memo, Incoming(g.edges, d)).Settled?
       && Decide(View(p.work.memo), Incoming(g.edges, d)).DepEnqueue?
  }

  /** A node that an ended run queues is queued by a call one write away from it. */
  lemma QueuedByDispatch(g: Graph, w: World, ev: Event, n: string)
    requires Enabled(g, w, ev) && w.run.Ended? && n !in w.records
    requires n in Apply(g, w, ev).records && Apply(g, w, ev).records[n] != SKIPPED
    ensures ev.Tick? && ev.pid in w.procs && AboutToQueue(g, w.records, w.procs[ev.pid], n)
  {
    assert n in Apply(g, w, ev).records.Keys && n !in w.records.Keys;
    OnlyDispatchAddsRecords(g, w, ev);
    hide Outgoing, Incoming, NextProbe, Bump, Lookup, View;
    var p := w.procs[ev.pid];
  }

  // ----- the sweep

  /** An event that is not a tick of call `pid` leaves that call alone, or starts it outside any sweep. */
  lemma OthersStand(g: Graph, w: World, ev: Event, pid: nat)
    requires Enabled(g, w, ev) && ev != Tick(pid)
    ensures var w' := Apply(g, w, ev);
            if pid in w.procs then pid in w'.procs && w'.procs[pid] == w.procs[pid]
            else pid in w'.procs ==> !w'.procs[pid].work.Sweeping?
  {
    hide NextProbe, Decide, View, Lookup, RunVerdict, EnqueueAll, Advances, Conclude, Incoming, Outgoing, Bump;
  }

  /** The sweeper's own step: the next node is no longer pending, or the sweep is over. */
  lemma SweeperSteps(g: Graph, w: World, pid: nat)
    requires pid in w.procs && w.run.Ended? && (w.procs[pid].work.Sweeping? ==> w.procs[pid].check.Idle?)
    ensures var w', p := Apply(g, w, Tick(pid)), w.procs[pid];
            if p.work.Sweeping? && p.work.k < |g.nodes|
            then pid in w'.procs && w'.procs[pid].work == Sweeping(p.work.k + 1) &&
                 !Interleaving.Pending(w'.records, g.nodes[p.work.k].id)
            else pid in w'.procs ==> !w'.procs[pid].work.Sweeping?
  {
  }

  /** `n` is recorded, and it is finished or the sweep of call `pid` has yet to visit it. */
  ghost predicate Covered(g: Graph, w: World, pid: nat, n: string) {
    && n in w.records
    && (!Interleaving.Pending(w.records, n) ||
        (pid in w.procs && w.procs[pid].work.Sweeping? && exists m :: w.procs[pid].work.k <= m < |g.nodes| && g.nodes[m].id == n))
  }

  lemma FinishedIsCovered(g: Graph, w: World, w': World, pid: nat, n: string)
    requires n in w.records && !Interleaving.Pending(w.records, n) && Onward(w, w')
    ensures Covered(g, w', pid, n)
  {
  }

  /** The call stands still, or makes the sweep's next step. */
  lemma SweptOrAhead(g: Graph, w: World, w': World, pid: nat, n: string)
    requires Covered(g, w, pid, n) && Interleaving.Pending(w.records, n) && Onward(w, w')
    requires || (pid in w'.procs && w'.procs[pid] == w.procs[pid])
             || var k := w.procs[pid].work.k;
                if k < |g.nodes| then pid in w'.procs && w'.procs[pid].work == Sweeping(k + 1) && !Interleaving.Pending(w'.records, g.nodes[k].id)
                else true
    ensures Covered(g, w', pid, n)
  {
    var m :| w.procs[pid].work.k <= m < |g.nodes| && g.nodes[m].id == n;
  }

  lemma CoveredNext(g: Graph, w: World, w': World, pid: nat, n: string)
    requires Inv(g, w) && w.run.Ended? && Covered(g, w, pid, n) && Next(g, w, w')
    ensures Covered(g, w', pid, n) && w'.run.Ended?
  {
    var ev :| Enabled(g, w, ev) && w' == Apply(g, w, ev);
    EventOnward(g, w, ev);
    if Interleaving.Pending(w.records, n) {
      SweepIsIdle(g, w, pid);
      if ev == Tick(pid) { SweeperSteps(g, w, pid); } else { OthersStand(g, w, ev, pid); }
      hide Inv, Enabled, Apply;
      SweptOrAhead(g, w, w', pid, n);
    } else {
      hide Inv, Enabled, Apply;
      FinishedIsCovered(g, w, w', pid, n);
    }
  }

  lemma SweepIsIdle(g: Graph, w: World, pid: nat)
    requires Inv(g, w) && pid in w.procs && w.procs[pid].work.Sweeping?
    ensures w.procs[pid].check.Idle?
  {
    InvProc(g, w, pid);
  }

  lemma {:induction false} CoveredUntilDone(g: Graph, tr: seq<World>, i: nat, j: nat, pid: nat, n: string)
    requires Wired(g) && IsExecution(g, tr) && i <= j < |tr| && tr[i].run.Ended? && Covered(g, tr[i], pid, n)
    ensures Covered(g, tr[j], pid, n) && tr[j].run.Ended?
    decreases j - i
  {
    hide Inv, Covered, Next;
    if i < j {
      CoveredUntilDone(g, tr, i, j - 1, pid, n);
      ExecutionKeepsInv(g, tr, j - 1);
      CoveredNext(g, tr[j - 1], tr[j], pid, n);
    }
  }

  /** Whatever else is in flight, every node recorded when the run record is flipped is finished when the sweep is over. */
  lemma SweepFinishesTheRecorded(g: Graph, tr: seq<World>, i: nat, j: nat, pid: nat, n: string)
    requires Wired(g) && IsExecution(g, tr) && i <= j < |tr|
    requires pid in tr[i].procs && tr[i].procs[pid].work == Sweeping(0) && n in tr[i].records
    requires !(pid in tr[j].procs && tr[j].procs[pid].work.Sweeping?)
    ensures n in tr[j].records && IsTerminal(tr[j].records[n].status)
  {
    ExecutionKeepsInv(g, tr, i);
    InvProc(g, tr[i], pid);
    RecordedIsDeclared(g, tr[i], n);
    hide Inv, IsExecution;
    var m :| 0 <= m < |g.nodes| && g.nodes[m].id == n;
    assert Covered(g, tr[i], pid, n);
    CoveredUntilDone(g, tr, i, j, pid, n);
  }

  lemma RecordedIsDeclared(g: Graph, w: World, n: string)
    requires Inv(g, w) && n in w.records
    ensures n in Ids(g.nodes)
  {
  }

  /** The step that recorded `n`. */
  lemma {:induction false} RecordingStep(tr: seq<World>, i: nat, j: nat, n: string) returns (k: nat)
    requires i <= j < |tr| && n !in tr[i].records && n in tr[j].records
    ensures i <= k < j && n !in tr[k].records && n in tr[k + 1].records
    decreases j - i
  {
    if n in tr[i + 1].records { k := i; } else { k := RecordingStep(tr, i + 1, j, n); }
  }

  lemma {:induction false} PastSinceTheEnd(g: Graph, tr: seq<World>, i: nat, k: nat, q: nat)
    requires IsTrace(g, tr) && i <= k < |tr| && tr[i].run.Ended? && q in tr[k].procs && PastTheCheck(tr[k].procs[q])
    ensures q in tr[i].procs && PastTheCheck(tr[i].procs[q])
    decreases k - i
  {
    hide PastTheCheck, Next;
    if i < k {
      EndedStays(g, tr, i, k - 1);
      StepBack(g, tr[k - 1], tr[k], q);
      PastSinceTheEnd(g, tr, i, k - 1, q);
    }
  }

  lemma EndedStays(g: Graph, tr: seq<World>, i: nat, k: nat)
    requires IsTrace(g, tr) && i <= k < |tr| && tr[i].run.Ended?
    ensures tr[k].run == tr[i].run
  {
    hide Next;
    TraceOnward(g, tr, i, k);
  }

  /** A record that is pending later was not a skipped one. */
  lemma WasNotSkipped(g: Graph, tr: seq<World>, k: nat, j: nat, n: string)
    requires IsTrace(g, tr) && k <= j < |tr| && n in tr[k].records && Interleaving.Pending(tr[j].records, n)
    ensures tr[k].records[n] != SKIPPED
  {
    hide Next;
    TraceOnward(g, tr, k, j);
  }

  lemma StepBack(g: Graph, w: World, w': World, q: nat)
    requires Next(g, w, w') && w.run.Ended? && q in w'.procs && PastTheCheck(w'.procs[q])
    ensures q in w.procs && PastTheCheck(w.procs[q])
  {
    var ev :| Enabled(g, w, ev) && w' == Apply(g, w, ev);
    NoneGetsPast(g, w, ev, q);
  }

  /**
    The only way a node escapes: if `n` is pending when the sweep is over, it had no record at the flip,
    and at some step `k`, after the sweep had passed it by, a call that was past its check already at
    the flip was one write away from queueing it and did.
   */
  lemma EscapeHasCulprit(g: Graph, tr: seq<World>, i: nat, j: nat, pid: nat, n: string) returns (k: nat, q: nat)
    requires Wired(g) && IsExecution(g, tr) && i <= j < |tr|
    requires pid in tr[i].procs && tr[i].procs[pid].work == Sweeping(0)
    requires !(pid in tr[j].procs && tr[j].procs[pid].work.Sweeping?) && Interleaving.Pending(tr[j].records, n)
    ensures n !in tr[i].records && i <= k < j
    ensures q in tr[k].procs && AboutToQueue(g, tr[k].records, tr[k].procs[q], n) && tr[k + 1] == Apply(g, tr[k], Tick(q))
    ensures q in tr[i].procs && PastTheCheck(tr[i].procs[q])
    ensures !Covered(g, tr[k + 1], pid, n)
  {
    hide Inv, Next, Enabled, Apply, AboutToQueue, PastTheCheck;
    SweepingIsEnded(g, tr, i, pid);
    if n in tr[i].records { SweepFinishesTheRecorded(g, tr, i, j, pid, n); }
    k := RecordingStep(tr, i, j, n);
    EndedStays(g, tr, i, k);
    EndedStays(g, tr, i, k + 1);
    WasNotSkipped(g, tr, k + 1, j, n);
    q := Culprit(g, tr[k], tr[k + 1], n);
    PastSinceTheEnd(g, tr, i, k, q);
    if Covered(g, tr[k + 1], pid, n) { CoveredUntilDone(g, tr, k + 1, j, pid, n); }
  }

  lemma SweepingIsEnded(g: Graph, tr: seq<World>, i: nat, pid: nat)
    requires Wired(g) && IsExecution(g, tr) && i < |tr| && pid in tr[i].procs && tr[i].procs[pid].work.Sweeping?
    ensures tr[i].run.Ended?
  {
    ExecutionKeepsInv(g, tr, i);
    hide IsExecution;
    InvProc(g, tr[i], pid);
  }

  lemma Culprit(g: Graph, w: World, w': World, n: string) returns (q: nat)
    requires Next(g, w, w') && w.run.Ended? && n !in w.records && n in w'.records && w'.records[n] != SKIPPED
    ensures q in w.procs && AboutToQueue(g, w.records, w.procs[q], n) && w' == Apply(g, w, Tick(q))
    ensures PastTheCheck(w.procs[q])
  {
    var ev :| Enabled(g, w, ev) && w' == Apply(g, w, ev);
    QueuedByDispatch(g, w, ev, n);
    q := ev.pid;
    assert ev == Tick(q);
  }

  /** The run has ended and no call is past its check. */
  ghost predicate Quiet(w: World) {
    w.run.Ended? && forall i :: i in w.procs ==> !PastTheCheck(w.procs[i])
  }

  /** So a cancel is clean if no call is past its check when the run record is flipped. */
  lemma SweepLeavesNothingPending(g: Graph, tr: seq<World>, i: nat, j: nat, pid: nat)
    requires Wired(g) && IsExecution(g, tr) && i <= j < |tr|
    requires pid in tr[i].procs && tr[i].procs[pid].work == Sweeping(0) && Quiet(tr[i])
    requires !(pid in tr[j].procs && tr[j].procs[pid].work.Sweeping?)
    ensures forall n :: n in tr[j].records ==> IsTerminal(tr[j].records[n].status)
  {
    hide IsExecution, AboutToQueue, Covered;
    forall n | n in tr[j].records ensures IsTerminal(tr[j].records[n].status) {
      if Interleaving.Pending(tr[j].records, n) { var k, q := EscapeHasCulprit(g, tr, i, j, pid, n); }
    }
  }

  // ----- the race that escapes it

  lemma QueueStep(g: Graph, w: World, pid: nat, d: string) returns (w': World)
    requires pid in w.procs && AboutToQueue(g, w.records, w.procs[pid], d)
    ensures Next(g, w, w') && d in w'.records && w'.records[d] == QUEUED && pid in w'.procs && w'.procs[pid].work.Dispatching?
    ensures forall i :: i != pid ==> (i in w'.procs <==> i in w.procs) && (i in w.procs ==> w'.procs[i] == w.procs[i])
  {
    var ev := Tick(pid);
    w' := Apply(g, w, ev);
    assert Enabled(g, w, ev);
  }

  lemma SweepStep(g: Graph, w: World, pid: nat) returns (w': World)
    requires pid in w.procs && w.procs[pid].work.Sweeping? && w.procs[pid].check.Idle?
    ensures Next(g, w, w') && w'.records.Keys == w.records.Keys && w'.procs.Keys == w.procs.Keys
    ensures forall i :: i in w.procs && i != pid ==> w'.procs[i] == w.procs[i]
    ensures var p := w.procs[pid];
            w'.procs[pid] == if p.work.k >= |g.nodes| then p.(work := Done, check := Publishing(Cancelled))
                             else p.(work := Sweeping(p.work.k + 1))
  {
    hide NextProbe, Decide, View, Lookup, RunVerdict, EnqueueAll, Advances, Conclude, Incoming, Outgoing, Bump;
    var ev := Tick(pid);
    w' := Apply(g, w, ev);
    assert Enabled(g, w, ev);
  }

  /** A sweep can always run to its end while everyone else stands still. */
  lemma SweepOut(g: Graph, w: World, pid: nat) returns (tr: seq<World>)
    requires pid in w.procs && w.procs[pid].work.Sweeping? && w.procs[pid].check.Idle?
    ensures tr != [] && IsTrace(g, tr) && tr[0] == w
    ensures var w' := tr[|tr| - 1];
            && w'.records.Keys == w.records.Keys && w'.procs.Keys == w.procs.Keys && w'.procs[pid].work.Done?
            && forall i :: i in w.procs && i != pid ==> w'.procs[i] == w.procs[i]
    decreases if w.procs[pid].work.k >= |g.nodes| then 0 else |g.nodes| - w.procs[pid].work.k + 1
  {
    hide Next, IsTrace;
    var w1 := SweepStep(g, w, pid);
    if w.procs[pid].work.k >= |g.nodes| {
      OneWorld(g, w1);
      tr := [w] + [w1];
      TraceCons(g, w, [w1]);
    } else {
      var rest := SweepOut(g, w1, pid);
      NonEmpty(g, rest);
      tr := [w] + rest;
      TraceCons(g, w, rest);
    }
  }

  lemma OneWorld(g: Graph, w: World)
    ensures IsTrace(g, [w])
  {
  }

  lemma NonEmpty(g: Graph, tr: seq<World>)
    requires IsTrace(g, tr)
    ensures tr != []
  {
  }

  lemma TraceCons(g: Graph, w: World, rest: seq<World>)
    requires IsTrace(g, rest) && Next(g, w, rest[0])
    ensures IsTrace(g, [w] + rest)
  {
    hide Next;
    var tr := [w] + rest;
    forall i, j | 0 <= i < j < |tr| && j == i + 1 ensures Next(g, tr[i], tr[j]) {
      if i > 0 { assert tr[i] == rest[i - 1] && tr[j] == rest[j - 1]; }
    }
  }

  /**
    The other half: whenever a cancel is sweeping while some call is one write away from
    queueing a node, there is a continuation that ends the sweep with that node queued.
   */
  lemma LateEnqueueEscapesSweep(g: Graph, w: World, sweeper: nat, pid: nat, d: string) returns (tr: seq<World>)
    requires sweeper in w.procs && w.procs[sweeper].work.Sweeping? && w.procs[sweeper].check.Idle?
    requires pid in w.procs && pid != sweeper && AboutToQueue(g, w.records, w.procs[pid], d)
    ensures IsTrace(g, tr) && tr[0] == w
    ensures var w' := tr[|tr| - 1];
            && sweeper in w'.procs && w'.procs[sweeper].work.Done?
            && d in w'.records && w'.records[d] == QUEUED
  {
    var swept := SweepOut(g, w, sweeper);
    var w1 := swept[|swept| - 1];
    assert d !in w1.records.Keys;
    assert AboutToQueue(g, w1.records, w1.procs[pid], d);
    hide Next, AboutToQueue;
    var w2 := QueueStep(g, w1, pid, d);
    tr := swept + [w2];
    forall i, j | 0 <= i < j < |tr| && j == i + 1 ensures Next(g, tr[i], tr[j]) {
      if j < |swept| { assert Next(g, swept[i], swept[j]); }
    }
  }

  // ----- exactly which nodes can escape

  ghost predicate SweepOver(w: World, pid: nat) {
    !(pid in w.procs && w.procs[pid].work.Sweeping?)
  }

  /** `t` continues `tr` to a moment when the sweep is over and `d` is pending. */
  ghost predicate Escapes(g: Graph, tr: seq<World>, t: seq<World>, pid: nat, d: string) {
    t != [] && tr <= t && IsExecution(g, t) && SweepOver(Last(t), pid) && Interleaving.Pending(Last(t).records, d)
  }

  /** `t` continues `tr` to a moment when some call is one write away from queueing `d`. */
  ghost predicate Reaches(g: Graph, tr: seq<World>, t: seq<World>, d: string) {
    t != [] && tr <= t && IsExecution(g, t) && exists q :: q in Last(t).procs && AboutToQueue(g, Last(t).records, Last(t).procs[q], d)
  }

  lemma Cut(g: Graph, tr: seq<World>, k: nat)
    requires IsExecution(g, tr) && k < |tr|
    ensures IsExecution(g, tr[..k + 1])
  {
    hide Next;
    var t := tr[..k + 1];
    forall i, j | 0 <= i < j < |t| && j == i + 1 ensures Next(g, t[i], t[j]) { assert Next(g, tr[i], tr[j]); }
  }

  lemma EscapeReaches(g: Graph, tr: seq<World>, t: seq<World>, pid: nat, d: string) returns (u: seq<World>)
    requires Wired(g) && tr != [] && Escapes(g, tr, t, pid, d)
    requires pid in Last(tr).procs && Last(tr).procs[pid].work == Sweeping(0)
    ensures Reaches(g, tr, u, d)
  {
    hide IsExecution, AboutToQueue, Covered, PastTheCheck, Enabled, Apply;
    var i := |tr| - 1;
    assert t[i] == tr[i];
    var k, q := EscapeHasCulprit(g, t, i, |t| - 1, pid, d);
    u := t[..k + 1];
    Cut(g, t, k);
    assert Last(u) == t[k] && q in Last(u).procs && AboutToQueue(g, Last(u).records, Last(u).procs[q], d);
  }

  lemma QueuerIsPast(g: Graph, r: Records, p: Proc, d: string)
    requires AboutToQueue(g, r, p, d)
    ensures p.work.Dispatching? && PastTheCheck(p)
  {
  }

  /** The call queues `d` once the sweep is over. */
  lemma QueueBehind(g: Graph, w: World, pid: nat, q: nat, d: string) returns (tail: seq<World>)
    requires q in w.procs && AboutToQueue(g, w.records, w.procs[q], d)
    requires !SweepOver(w, pid) ==> w.procs[pid].check.Idle?
    ensures tail != [] && IsTrace(g, tail) && tail[0] == w && SweepOver(Last(tail), pid) && Interleaving.Pending(Last(tail).records, d)
  {
    hide AboutToQueue, IsTrace, Next;
    QueuerIsPast(g, w.records, w.procs[q], d);
    if SweepOver(w, pid) {
      var w' := QueueStep(g, w, q, d);
      StillOver(w, w', pid, q);
      OneWorld(g, w');
      TraceCons(g, w, [w']);
      tail := [w] + [w'];
    } else {
      tail := LateEnqueueEscapesSweep(g, w, pid, q, d);
      NonEmpty(g, tail);
    }
  }

  lemma ReachEscapes(g: Graph, tr: seq<World>, u: seq<World>, pid: nat, d: string) returns (t: seq<World>)
    requires Wired(g) && Reaches(g, tr, u, d)
    ensures Escapes(g, tr, t, pid, d)
  {
    hide IsExecution, IsTrace, AboutToQueue, Inv;
    var w := Last(u);
    var q :| q in w.procs && AboutToQueue(g, w.records, w.procs[q], d);
    ExecutionKeepsInv(g, u, |u| - 1);
    if !SweepOver(w, pid) { SweepIsIdle(g, w, pid); }
    var tail := QueueBehind(g, w, pid, q, d);
    t := Append(g, u, tail);
  }

  lemma StillOver(w: World, w': World, pid: nat, q: nat)
    requires SweepOver(w, pid) && q in w.procs && q in w'.procs && w'.procs[q].work.Dispatching?
    requires forall i :: i != q ==> (i in w'.procs <==> i in w.procs) && (i in w.procs ==> w'.procs[i] == w.procs[i])
    ensures SweepOver(w', pid)
  {
  }

  /**
    The exact condition for one node. From the flip on, some continuation ends the sweep with `d`
    pending if and only if some continuation brings a call one write away from queueing `d`; and that
    call was past its check at the flip.
   */
  lemma EscapesExactlyIfReached(g: Graph, tr: seq<World>, pid: nat, d: string)
    requires Wired(g) && tr != [] && IsExecution(g, tr)
    requires pid in Last(tr).procs && Last(tr).procs[pid].work == Sweeping(0)
    ensures (exists t :: Escapes(g, tr, t, pid, d)) <==> (exists u :: Reaches(g, tr, u, d))
    ensures (exists u :: Reaches(g, tr, u, d)) ==> exists q :: q in Last(tr).procs && PastTheCheck(Last(tr).procs[q])
  {
    hide Escapes, Reaches, IsExecution;
    if t :| Escapes(g, tr, t, pid, d) {
      var u := EscapeReaches(g, tr, t, pid, d);
    }
    if u :| Reaches(g, tr, u, d) {
      var t := ReachEscapes(g, tr, u, pid, d);
      SomeoneWasPast(g, tr, u, pid, d);
    }
  }

  lemma SomeoneWasPast(g: Graph, tr: seq<World>, u: seq<World>, pid: nat, d: string)
    requires Wired(g) && tr != [] && IsExecution(g, tr) && Reaches(g, tr, u, d)
    requires pid in Last(tr).procs && Last(tr).procs[pid].work == Sweeping(0)
    ensures exists q :: q in Last(tr).procs && PastTheCheck(Last(tr).procs[q])
  {
    hide IsTrace, AboutToQueue, Init, PastTheCheck;
    var q :| q in Last(u).procs && AboutToQueue(g, Last(u).records, Last(u).procs[q], d);
    QueuerIsPast(g, Last(u).records, Last(u).procs[q], d);
    assert u[|tr| - 1] == Last(tr);
    SweepingIsEnded(g, tr, |tr| - 1, pid);
    PastSinceTheEnd(g, u, |tr| - 1, |u| - 1, q);
  }
}
