/**
  How interleaved runs end: an idle run whose nodes are all finished has ended, a failure that must not
  happen ends the run, and what is not finished by a call is cancelled.
 */
module Endings {
  import opened Graphs
  import opened Decisions
  import opened RunStores
  import opened Fates
  import opened Interleaving
  import opened InterleavingInvariant
  import opened InterleavedRuns
  import opened Cancelling
  import opened Joins

  // ----- somebody checks

  ghost predicate AllFinished(g: Graph, r: Records) {
    forall n :: n in Ids(g.nodes) ==> n in r && IsTerminal(r[n].status)
  }

  /** The call lists the records, or ends the run, before it returns. */
  predicate Bound(p: Proc) {
    p.check.Listing? || p.check.Finalizing? ||
    (match p.work
     case Checking => true
     case Dispatching(_, stack, queued) => |stack| > 1 || !queued || p.outcome == SKIPPED
     case _ => false)
  }

  /** If everything is finished and the run goes on, somebody is bound to check. */
  ghost predicate Minded(g: Graph, w: World) {
    w.run.Alive? && AllFinished(g, w.records) ==> exists i :: i in w.procs && Bound(w.procs[i])
  }

  lemma {:induction false} FinishedHasVerdict(g: Graph, nodes: seq<Node>, r: Records)
    requires forall n :: n in nodes ==> n.id in r && IsTerminal(r[n.id].status)
    ensures Verdict(g, nodes, r).Some?
  {
    if nodes != [] { FinishedHasVerdict(g, nodes[1..], r); }
  }

  lemma AllFinishedHasVerdict(g: Graph, r: Records)
    requires AllFinished(g, r)
    ensures RunVerdict(g, r).Some?
  {
    forall n | n in g.nodes ensures n.id in r && IsTerminal(r[n.id].status) {
      var i :| 0 <= i < |g.nodes| && g.nodes[i] == n;
      assert g.nodes[i].id in Ids(g.nodes);
    }
    FinishedHasVerdict(g, g.nodes, r);
  }

  ghost predicate BoundOrEnded(w: World, pid: nat) {
    w.run.Ended? || (pid in w.procs && Bound(w.procs[pid]))
  }

  /** A bound call stays bound, or ends the run. */
  lemma BoundStays(g: Graph, w: World, pid: nat)
    requires Inv(g, w) && Wired(g) && w.run.Alive? && AllFinished(g, w.records) && pid in w.procs && Bound(w.procs[pid])
    ensures BoundOrEnded(Apply(g, w, Tick(pid)), pid)
  {
    InvProc(g, w, pid);
    hide Inv, AllFinished, LogOk, TerminalsOk, NoParking, DispatchOk, PlanOk, Committed, EndOk;
    var p := w.procs[pid];
    if !p.check.Idle? { CheckBinds(g, w, pid); }
    else if p.work.Checking? { CheckingBinds(g, w, pid); }
    else { DispatchBoundStays(g, w, pid); }
    hide TickCheck, TickDispatching, TickChecking;
  }

  lemma CheckBinds(g: Graph, w: World, pid: nat)
    requires w.run.Alive? && AllFinished(g, w.records) && pid in w.procs && CheckOk(g, w, w.procs[pid]) && !w.procs[pid].check.Idle?
    ensures BoundOrEnded(TickCheck(g, w, pid, w.procs[pid]), pid)
  {
    AllFinishedHasVerdict(g, w.records);
    hide RunVerdict, AllFinished, EndOk;
  }

  lemma CheckingBinds(g: Graph, w: World, pid: nat)
    requires w.run.Alive? && pid in w.procs && w.procs[pid].work.Checking?
    ensures BoundOrEnded(TickChecking(g, w, pid, w.procs[pid]), pid)
  {
  }

  lemma DispatchBoundStays(g: Graph, w: World, pid: nat)
    requires Wired(g) && AllFinished(g, w.records) && pid in w.procs && w.procs[pid].work.Dispatching? && Bound(w.procs[pid])
    requires w.procs[pid].check.Idle? && DispatchOk(g, w, w.procs[pid])
    ensures BoundOrEnded(TickDispatching(g, w, pid, w.procs[pid]), pid)
  {
    var stack := w.procs[pid].work.stack;
    var top := stack[|stack| - 1];
    var deps := Outgoing(g.edges, top.node);
    hide FailurePropagates, NextProbe, Decide, View, Incoming, DispatchOk;
    if top.k < |deps| { assert deps[top.k] in deps && deps[top.k] in w.records; }
  }

  /** The step that finishes the last node leaves its call bound. */
  lemma LastWriteBinds(g: Graph, w: World, pid: nat, w': World)
    requires pid in w.procs && w' == Apply(g, w, Tick(pid))
    requires Inv(g, w) && Wired(g) && w.run.Alive? && !AllFinished(g, w.records) && AllFinished(g, w'.records)
    ensures BoundOrEnded(w', pid)
  {
    hide *;
    InvProc(g, w, pid);
    ProcKinds(g, w, w.procs[pid]);
    var p := w.procs[pid];
    if !p.check.Idle? || p.work.Checking? || p.work.Flipping? || p.work.Done? {
      NothingWritten(g, w, pid);
    } else {
      TickIsWork(g, w, pid);
      match p.work
      case Planning(_, _, _, _) => CommitBinds(g, w, pid);
      case Writing => WritingBinds(g, w, pid);
      case SkipWriting => WritingBinds(g, w, pid);
      case Dispatching(_, _, _) => SkippingBinds(g, w, pid);
    }
  }

  lemma ProcKinds(g: Graph, w: World, p: Proc)
    requires w.run.Alive? && ProcOk(g, w, p)
    ensures !p.work.Sweeping? && (p.work.Dispatching? ==> DispatchOk(g, w, p)) && (p.work.Planning? ==> PlanOk(g, w, p))
  {
  }

  lemma TickIsWork(g: Graph, w: World, pid: nat)
    requires pid in w.procs && w.procs[pid].check.Idle?
    ensures var p, w' := w.procs[pid], Apply(g, w, Tick(pid));
            match p.work
            case Planning(_, _, _, _) => w' == TickPlanning(g, w, pid, p)
            case Writing => w' == TickWriting(g, w, pid, p)
            case SkipWriting => w' == TickWriting(g, w, pid, p)
            case Dispatching(_, _, _) => w' == TickDispatching(g, w, pid, p)
            case Sweeping(_) => w' == TickSweeping(g, w, pid, p)
            case _ => true
  {
    hide TickPlanning, TickWriting, TickDispatching, TickSweeping;
  }

  lemma NothingWritten(g: Graph, w: World, pid: nat)
    requires pid in w.procs
    requires var p := w.procs[pid]; !p.check.Idle? || p.work.Checking? || p.work.Flipping? || p.work.Done?
    ensures Apply(g, w, Tick(pid)).records == w.records
  {
    hide RunVerdict, Advances, Conclude;
  }

  lemma WritingBinds(g: Graph, w: World, pid: nat)
    requires w.run.Alive? && !AllFinished(g, w.records) && pid in w.procs && (w.procs[pid].work.Writing? || w.procs[pid].work.SkipWriting?)
    requires AllFinished(g, TickWriting(g, w, pid, w.procs[pid]).records)
    ensures BoundOrEnded(TickWriting(g, w, pid, w.procs[pid]), pid)
  {
    hide AllFinished;
  }

  lemma SkippingBinds(g: Graph, w: World, pid: nat)
    requires w.run.Alive? && Wired(g) && !AllFinished(g, w.records) && pid in w.procs && w.procs[pid].work.Dispatching?
    requires DispatchOk(g, w, w.procs[pid]) && AllFinished(g, TickDispatching(g, w, pid, w.procs[pid]).records)
    ensures BoundOrEnded(TickDispatching(g, w, pid, w.procs[pid]), pid)
  {
    var stack, memo := w.procs[pid].work.stack, w.procs[pid].work.memo;
    var top := stack[|stack| - 1];
    var deps := Outgoing(g.edges, top.node);
    if top.k < |deps| { assert deps[top.k] in deps && deps[top.k] in Ids(g.nodes); }
    hide FailurePropagates, NextProbe, Decide, View, Incoming, Outgoing, DispatchOk, Ids;
    if top.k < |deps| && NextProbe(memo, Incoming(g.edges, deps[top.k])).Settled? {
      DecidedBinds(g, w, pid, deps[top.k], Decide(View(memo), Incoming(g.edges, deps[top.k])));
    }
    hide AllFinished, TickDecided;
  }

  lemma DecidedBinds(g: Graph, w: World, pid: nat, d: string, decision: Decision)
    requires w.run.Alive? && !AllFinished(g, w.records) && pid in w.procs && w.procs[pid].work.Dispatching? && w.procs[pid].work.stack != []
    requires d in Ids(g.nodes)
    requires AllFinished(g, TickDecided(g, w, pid, w.procs[pid], d, decision).records)
    ensures BoundOrEnded(TickDecided(g, w, pid, w.procs[pid], d, decision), pid)
  {
  }

  lemma CommitBinds(g: Graph, w: World, pid: nat)
    requires w.run.Alive? && Wired(g) && !AllFinished(g, w.records) && pid in w.procs && w.procs[pid].work.Planning?
    requires PlanOk(g, w, w.procs[pid]) && AllFinished(g, TickPlanning(g, w, pid, w.procs[pid]).records)
    ensures BoundOrEnded(TickPlanning(g, w, pid, w.procs[pid]), pid)
  {
    var p := w.procs[pid];
    if p.work.k >= |PlanDeps(g, p)| && Interleaving.Pending(w.records, p.node) { CommitAddsNothing(g, w, pid); }
    hide AllFinished, NextProbe, Decide, View, Incoming, Outgoing, PlanOk, EnqueueAll, FailurePropagates;
  }

  /** Whatever is queued with the completion is not finished. */
  lemma CommitAddsNothing(g: Graph, w: World, pid: nat)
    requires pid in w.procs && w.procs[pid].work.Planning? && PlanOk(g, w, w.procs[pid]) && Wired(g) && w.run.Alive?
    requires var p := w.procs[pid]; AllFinished(g, EnqueueAll(w.records[p.node := p.outcome], p.work.enqueue))
    ensures var p := w.procs[pid]; var r := w.records[p.node := p.outcome]; EnqueueAll(r, p.work.enqueue).Keys == r.Keys
  {
    var p := w.procs[pid];
    forall d | d in p.work.enqueue ensures d in Ids(g.nodes) { assert d in Outgoing(g.edges, p.node); }
  }

  /** Nothing but a step of a call finishes a node of a run that goes on. */
  lemma OnlyTicksFinish(g: Graph, w: World, ev: Event)
    requires Enabled(g, w, ev) && !ev.Tick? && w.run.Alive? && AllFinished(g, Apply(g, w, ev).records)
    ensures AllFinished(g, w.records) && Apply(g, w, ev).run == w.run
  {
  }

  lemma NextKeepsMinded(g: Graph, w: World, w': World)
    requires Inv(g, w) && Wired(g) && Minded(g, w) && Next(g, w, w')
    ensures Minded(g, w')
  {
    var ev :| Enabled(g, w, ev) && w' == Apply(g, w, ev);
    if w'.run.Alive? && AllFinished(g, w'.records) {
      EventOnward(g, w, ev);
      hide Inv, AllFinished, Bound, TickWork, TickCheck;
      if AllFinished(g, w.records) {
        var i :| i in w.procs && Bound(w.procs[i]);
        if ev == Tick(i) { BoundStays(g, w, i); } else { OthersStand(g, w, ev, i); }
        assert i in w'.procs && Bound(w'.procs[i]);
      } else if ev.Tick? {
        LastWriteBinds(g, w, ev.pid, w');
        assert ev.pid in w'.procs && Bound(w'.procs[ev.pid]);
      } else {
        OnlyTicksFinish(g, w, ev);
      }
    }
  }

  lemma StartIsMinded(g: Graph, w: World)
    requires Init(g, w) && g.nodes != []
    ensures Minded(g, w)
  {
    assert g.nodes[0].id in Ids(g.nodes);
  }

  lemma {:induction false} ExecutionIsMinded(g: Graph, tr: seq<World>, i: nat)
    requires Wired(g) && g.nodes != [] && IsExecution(g, tr) && i < |tr|
    ensures Minded(g, tr[i])
  {
    hide Inv, Next, Minded;
    if i == 0 { StartIsMinded(g, tr[0]); }
    else {
      ExecutionIsMinded(g, tr, i - 1);
      ExecutionKeepsInv(g, tr, i - 1);
      NextKeepsMinded(g, tr[i - 1], tr[i]);
    }
  }

  /** Under any interleaving: when no call is in flight and every node is finished, the run has ended and said so, once. */
  lemma FinishedRunHasEnded(g: Graph, tr: seq<World>, i: nat)
    requires Wired(g) && g.nodes != [] && IsExecution(g, tr) && i < |tr| && tr[i].procs == map[]
    requires forall n :: n in g.nodes ==>
               n.id in tr[i].records && tr[i].records[n.id].status in {Succeeded, Failed, Cancelled, Skipped}
    ensures tr[i].run.Ended? && tr[i].terminals == [tr[i].run.status]
  {
    ExecutionIsMinded(g, tr, i);
    assert AllFinished(g, tr[i].records) by {
      forall x | x in Ids(g.nodes) ensures x in tr[i].records && IsTerminal(tr[i].records[x].status) {
        var k :| 0 <= k < |g.nodes| && g.nodes[k].id == x;
        assert g.nodes[k] in g.nodes;
      }
    }
    EndedRunIsAnnounced(g, tr, i);
  }

  /** Should a run be left behind with everything finished, a reaper's check ends it. */
  lemma ReaperEndsFinishedRun(g: Graph, w: World, pid: nat)
    requires w.run.Alive? && AllFinished(g, w.records) && pid !in w.procs
    ensures var w1 := Apply(g, w, Reap(pid));
            var w2 := Apply(g, w1, Tick(pid));
            var w3 := Apply(g, w2, Tick(pid));
            w3.run.Ended? && w3.run.cause == OnRecords && RunVerdict(g, w.records) == Some(w3.run.status)
  {
    AllFinishedHasVerdict(g, w.records);
    hide RunVerdict, AllFinished;
  }

  // ----- what an idle run waits for

  /** An idle run that goes on has a node to run, or a join whose predecessors are all finished and which nobody recorded. */
  lemma IdleRunWaits(g: Graph, rank: map<string, nat>, tr: seq<World>, i: nat)
    requires Runnable(g, rank) && IsExecution(g, tr) && i < |tr| && tr[i].procs == map[] && tr[i].run.Alive?
    ensures || (exists n :: n in tr[i].records && tr[i].records[n].status in {Queued, Running})
            || (exists j :: j in Ids(g.nodes) && !IsSource(g, j) && Overdue(g, tr[i], j))
  {
    ExecutionIsMinded(g, tr, i);
    var n :| n in Ids(g.nodes) && !(n in tr[i].records && IsTerminal(tr[i].records[n].status));
    ExecutionKeepsInv(g, tr, i);
    TraceOnward(g, tr, 0, i);
    assert NoParking(tr[i].records) && forall d :: IsSource(g, d) ==> d in tr[i].records;
    hide Inv, IsExecution;
    FirstUnfinished(g, rank, tr[i], n);
  }

  lemma {:induction false} FirstUnfinished(g: Graph, rank: map<string, nat>, w: World, n: string)
    requires Runnable(g, rank) && NoParking(w.records) && forall d :: IsSource(g, d) ==> d in w.records
    requires n in Ids(g.nodes) && !(n in w.records && IsTerminal(w.records[n].status))
    ensures || (exists m :: m in w.records && w.records[m].status in {Queued, Running})
            || (exists j :: j in Ids(g.nodes) && !IsSource(g, j) && Overdue(g, w, j))
    decreases rank[n]
  {
    if n in w.records {
      assert w.records[n].status in {Queued, Running};
    } else if !Overdue(g, w, n) {
      var x :| Precedes(g, x, n) && !(x in w.records && IsTerminal(w.records[x].status));
      var e :| e in g.edges && e.from == x && e.to == n;
      FirstUnfinished(g, rank, w, x);
    }
  }

  // ----- who finished what

  /** What no call finished is cancelled, and nothing else is. */
  ghost predicate Ledger(w: World) {
    forall n :: n in w.records && IsTerminal(w.records[n].status) ==> (n in w.log <==> !w.records[n].status.Cancelled?)
  }

  /** The call has yet to write the record of its node. */
  predicate HasTask(p: Proc) {
    p.work.Planning? || p.work.Writing? || p.work.SkipWriting?
  }

  /** Call `q` finishes `n` in this step, with its own outcome or in a cascade. */
  ghost predicate Finishes(w: World, w': World, q: nat, n: string) {
    && q in w.procs && n in w'.records
    && (|| (w.procs[q].node == n && HasTask(w.procs[q]) && w'.records[n] == w.procs[q].outcome)
        || (w.procs[q].work.Dispatching? && n !in w.records && w'.records[n].status == Skipped))
  }

  /** At most one node is finished in a step: by a call, with an entry in the log, or by being cancelled. */
  ghost predicate OneWrite(w: World, w': World, n: string) {
    && !(n in w.records && IsTerminal(w.records[n].status))
    && (forall x :: x in w'.records && x != n ==> (x in w.records && w'.records[x] == w.records[x]) || !IsTerminal(w'.records[x].status))
    && (w'.log == w.log || w'.log == w.log + [n])
    && (n in w'.records && IsTerminal(w'.records[n].status) ==> (w'.log == w.log + [n] <==> !w'.records[n].status.Cancelled?))
  }

  lemma WriteKeepsLedger(w: World, w': World, n: string)
    requires LogOk(w) && Ledger(w) && OneWrite(w, w', n)
    ensures Ledger(w')
  {
    assert n !in w.log;
  }

  lemma QuietKeepsLedger(w: World, w': World)
    requires Ledger(w) && w'.records == w.records && w'.log == w.log
    ensures Ledger(w')
  {
  }

  /** The log gains `n` exactly if call `pid` finishes it. */
  ghost predicate Logged(w: World, w': World, pid: nat) {
    forall n :: n in w'.log && n !in w.log ==> Finishes(w, w', pid, n)
  }

  lemma WritingWrites(g: Graph, w: World, pid: nat, w': World)
    requires LogOk(w) && Ledger(w) && pid in w.procs && HasTask(w.procs[pid]) && w' == TickWriting(g, w, pid, w.procs[pid])
    requires Executed(w.procs[pid].outcome) || w.procs[pid].outcome == SKIPPED
    ensures Ledger(w') && Logged(w, w', pid)
  {
    var p := w.procs[pid];
    if Interleaving.Pending(w.records, p.node) { WriteKeepsLedger(w, w', p.node); }
    else { QuietKeepsLedger(w, w'); }
  }

  lemma CommitWrites(g: Graph, w: World, pid: nat, w': World)
    requires LogOk(w) && Ledger(w) && pid in w.procs && w.procs[pid].work.Planning? && w' == Commit(g, w, pid, w.procs[pid])
    requires Executed(w.procs[pid].outcome)
    ensures Ledger(w') && Logged(w, w', pid)
  {
    hide Conclude, EnqueueAll;
    var p := w.procs[pid];
    if Interleaving.Pending(w.records, p.node) { WriteKeepsLedger(w, w', p.node); }
    else { QuietKeepsLedger(w, w'); }
  }

  lemma DecidedWrites(g: Graph, w: World, pid: nat, d: string, decision: Decision, w': World)
    requires LogOk(w) && Ledger(w) && pid in w.procs && w.procs[pid].work.Dispatching? && w.procs[pid].work.stack != []
    requires w' == TickDecided(g, w, pid, w.procs[pid], d, decision)
    ensures Ledger(w') && Logged(w, w', pid)
  {
    if d in w.records { QuietKeepsLedger(w, w'); } else { WriteKeepsLedger(w, w', d); }
  }

  lemma DispatchWrites(g: Graph, w: World, pid: nat, w': World)
    requires LogOk(w) && Ledger(w) && pid in w.procs && w.procs[pid].work.Dispatching? && w.procs[pid].work.stack != []
    requires w' == TickDispatching(g, w, pid, w.procs[pid])
    ensures Ledger(w') && Logged(w, w', pid)
  {
    hide Ledger, LogOk, NextProbe, Decide, View, Incoming, Outgoing, Conclude, TickDecided;
    var stack, memo := w.procs[pid].work.stack, w.procs[pid].work.memo;
    var top := stack[|stack| - 1];
    var deps := Outgoing(g.edges, top.node);
    if top.k < |deps| && NextProbe(memo, Incoming(g.edges, deps[top.k])).Settled? {
      DecidedWrites(g, w, pid, deps[top.k], Decide(View(memo), Incoming(g.edges, deps[top.k])), w');
    } else {
      QuietKeepsLedger(w, w');
    }
  }

  lemma SweepWrites(g: Graph, w: World, pid: nat, w': World)
    requires LogOk(w) && Ledger(w) && pid in w.procs && w.procs[pid].work.Sweeping? && w' == TickSweeping(g, w, pid, w.procs[pid])
    ensures Ledger(w') && Logged(w, w', pid)
  {
    var k := w.procs[pid].work.k;
    if k < |g.nodes| && Interleaving.Pending(w.records, g.nodes[k].id) { WriteKeepsLedger(w, w', g.nodes[k].id); }
    else { QuietKeepsLedger(w, w'); }
  }

  lemma PlanningWrites(g: Graph, w: World, pid: nat, w': World)
    requires LogOk(w) && Ledger(w) && pid in w.procs && w.procs[pid].work.Planning? && w' == TickPlanning(g, w, pid, w.procs[pid])
    requires Executed(w.procs[pid].outcome)
    ensures Ledger(w') && Logged(w, w', pid)
  {
    hide Ledger, LogOk, NextProbe, Decide, View, Incoming, Outgoing, PlanDeps, Commit;
    if w.procs[pid].work.k >= |PlanDeps(g, w.procs[pid])| { CommitWrites(g, w, pid, w'); } else { QuietKeepsLedger(w, w'); }
  }

  lemma OutcomeKinds(g: Graph, w: World, p: Proc)
    requires ProcOk(g, w, p)
    ensures p.work.Planning? || p.work.Writing? ==> Executed(p.outcome)
    ensures p.work.SkipWriting? ==> p.outcome == SKIPPED
    ensures p.work.Dispatching? ==> p.work.stack != []
  {
  }

  lemma TickWrites(g: Graph, w: World, pid: nat, w': World)
    requires Inv(g, w) && Ledger(w) && pid in w.procs && w' == Apply(g, w, Tick(pid))
    ensures Ledger(w') && Logged(w, w', pid)
  {
    hide *;
    InvProc(g, w, pid);
    var p := w.procs[pid];
    OutcomeKinds(g, w, p);
    if !p.check.Idle? || p.work.Checking? || p.work.Flipping? || p.work.Done? {
      NothingLogged(g, w, pid);
      QuietKeepsLedger(w, w');
      NoneLogged(w, w', pid);
    } else {
      TickIsWork(g, w, pid);
      match p.work
      case Planning(_, _, _, _) => PlanningWrites(g, w, pid, w');
      case Writing => WritingWrites(g, w, pid, w');
      case SkipWriting => WritingWrites(g, w, pid, w');
      case Dispatching(_, _, _) => DispatchWrites(g, w, pid, w');
      case Sweeping(_) => SweepWrites(g, w, pid, w');
    }
  }

  lemma NoneLogged(w: World, w': World, pid: nat)
    requires w'.log == w.log
    ensures Logged(w, w', pid)
  {
  }

  lemma NothingLogged(g: Graph, w: World, pid: nat)
    requires pid in w.procs
    requires var p := w.procs[pid]; !p.check.Idle? || p.work.Checking? || p.work.Flipping? || p.work.Done?
    ensures Apply(g, w, Tick(pid)).records == w.records && Apply(g, w, Tick(pid)).log == w.log
  {
    hide RunVerdict, Advances, Conclude;
  }

  lemma OtherWrites(g: Graph, w: World, ev: Event, w': World)
    requires Inv(g, w) && Ledger(w) && Enabled(g, w, ev) && !ev.Tick? && w' == Apply(g, w, ev)
    ensures Ledger(w') && w'.log == w.log
  {
    match ev
    case Claim(n) => WriteKeepsLedger(w, w', n);
    case Requeue(n) => WriteKeepsLedger(w, w', n);
    case Refuse(n) => WriteKeepsLedger(w, w', n);
    case _ => QuietKeepsLedger(w, w');
  }

  lemma NextKeepsLedger(g: Graph, w: World, w': World)
    requires Inv(g, w) && Ledger(w) && Next(g, w, w')
    ensures Ledger(w') && forall n :: n in w'.log && n !in w.log ==> exists q :: Finishes(w, w', q, n)
  {
    hide Inv, Ledger, Finishes, Apply;
    var ev :| Enabled(g, w, ev) && w' == Apply(g, w, ev);
    if ev.Tick? { TickWrites(g, w, ev.pid, w'); } else { OtherWrites(g, w, ev, w'); }
  }

  lemma {:induction false} ExecutionKeepsLedger(g: Graph, tr: seq<World>, i: nat)
    requires Wired(g) && IsExecution(g, tr) && i < |tr|
    ensures Ledger(tr[i])
  {
    hide Inv, Next, Ledger;
    if i == 0 { assert Ledger(tr[0]) by { StartsEmpty(g, tr[0]); } }
    else {
      ExecutionKeepsLedger(g, tr, i - 1);
      ExecutionKeepsInv(g, tr, i - 1);
      NextKeepsLedger(g, tr[i - 1], tr[i]);
    }
  }

  lemma StartsEmpty(g: Graph, w: World)
    requires Init(g, w)
    ensures Ledger(w) && w.log == []
  {
  }

  /** The step at which a call finished a node of the log. */
  lemma {:induction false} FinishingStep(g: Graph, tr: seq<World>, j: nat, n: string) returns (k: nat, q: nat)
    requires Wired(g) && IsExecution(g, tr) && j < |tr| && n in tr[j].log
    ensures k < j && Finishes(tr[k], tr[k + 1], q, n) && n in tr[k + 1].log
    decreases j
  {
    hide Inv, Next, Ledger, Finishes;
    StartsEmpty(g, tr[0]);
    if n in tr[j - 1].log { k, q := FinishingStep(g, tr, j - 1, n); }
    else {
      ExecutionKeepsInv(g, tr, j - 1);
      ExecutionKeepsLedger(g, tr, j - 1);
      NextKeepsLedger(g, tr[j - 1], tr[j]);
      k := j - 1;
      q :| Finishes(tr[k], tr[k + 1], q, n);
    }
  }

  // ----- a call works on what it was started with

  /** This step starts call `q` for node `n`, to finish it with outcome `o`. */
  ghost predicate Starts(g: Graph, w: World, w': World, q: nat, n: string, o: Record) {
    || (Enabled(g, w, Plan(q, n, o)) && w' == Apply(g, w, Plan(q, n, o)))
    || (Enabled(g, w, Advance(q, n, o)) && w' == Apply(g, w, Advance(q, n, o)))
    || (Enabled(g, w, SwitchOff(q, n)) && w' == Apply(g, w, SwitchOff(q, n)) && o.status == Skipped)
  }

  /** A call keeps its node and its outcome for as long as it is in flight, and never gets another task. */
  lemma TickKeepsTask(g: Graph, w: World, pid: nat)
    requires pid in w.procs
    ensures var w' := Apply(g, w, Tick(pid));
            pid in w'.procs ==>
              && w'.procs[pid].node == w.procs[pid].node && w'.procs[pid].outcome == w.procs[pid].outcome
              && (HasTask(w'.procs[pid]) ==> HasTask(w.procs[pid]))
  {
    hide NextProbe, Decide, View, Lookup, RunVerdict, EnqueueAll, Advances, Conclude, Incoming, Outgoing, Bump;
  }

  /** A call with a task was started for that node, with the outcome it carries. */
  lemma {:induction false} CallWasStarted(g: Graph, tr: seq<World>, i: nat, q: nat) returns (m: nat)
    requires IsExecution(g, tr) && i < |tr| && q in tr[i].procs && HasTask(tr[i].procs[q])
    ensures m < i && Starts(g, tr[m], tr[m + 1], q, tr[i].procs[q].node, tr[i].procs[q].outcome)
    decreases i
  {
    hide Starts, Apply, Enabled;
    assert i > 0;
    var w, w' := tr[i - 1], tr[i];
    assert Next(g, w, w');
    var ev :| Enabled(g, w, ev) && w' == Apply(g, w, ev);
    if q in w.procs {
      if ev == Tick(q) { TickKeepsTask(g, w, q); } else { OthersStand(g, w, ev, q); }
      m := CallWasStarted(g, tr, i - 1, q);
    } else {
      NewCall(g, w, ev, q, w');
      m := i - 1;
    }
  }

  lemma NewCall(g: Graph, w: World, ev: Event, q: nat, w': World)
    requires Enabled(g, w, ev) && w' == Apply(g, w, ev) && q !in w.procs && q in w'.procs && HasTask(w'.procs[q])
    ensures Starts(g, w, w', q, w'.procs[q].node, w'.procs[q].outcome)
  {
    if ev.Tick? { TickStands(g, w, ev.pid, q); }
  }

  /** Some call finished `n` before `j`: one that was started to, with the outcome there is, or a cascade that skipped it. */
  ghost predicate FinishedByCall(g: Graph, tr: seq<World>, j: nat, n: string)
    requires j < |tr| && n in tr[j].records
  {
    || (exists m, q :: StartedAt(g, tr, m, j, q, n, tr[j].records[n]))
    || (tr[j].records[n].status == Skipped && exists k :: 0 <= k < j && n !in tr[k].records)
  }

  ghost predicate StartedAt(g: Graph, tr: seq<World>, m: nat, j: nat, q: nat, n: string, o: Record)
    requires j < |tr|
  {
    m < j && Starts(g, tr[m], tr[m + 1], q, n, o)
  }

  /** Under any interleaving, every finished node was finished by a call and has that call's outcome, or it is cancelled. */
  lemma FinishedOrCancelled(g: Graph, tr: seq<World>, j: nat, n: string)
    requires Wired(g) && IsExecution(g, tr) && j < |tr| && n in tr[j].records && IsTerminal(tr[j].records[n].status)
    ensures n in tr[j].log ==> FinishedByCall(g, tr, j, n) && tr[j].records[n].status != Cancelled
    ensures n !in tr[j].log ==> tr[j].records[n].status == Cancelled
  {
    ExecutionKeepsLedger(g, tr, j);
    if n in tr[j].log {
      var k, q := FinishingStep(g, tr, j, n);
      ExecutionKeepsInv(g, tr, k + 1);
      TraceOnward(g, tr, k + 1, j);
      assert LogOk(tr[k + 1]);
      hide Inv, IsExecution, Starts;
      assert tr[j].records[n] == tr[k + 1].records[n];
      if tr[k].procs[q].node == n && HasTask(tr[k].procs[q]) && tr[k + 1].records[n] == tr[k].procs[q].outcome {
        var m := CallWasStarted(g, tr, k, q);
        assert StartedAt(g, tr, m, j, q, n, tr[j].records[n]);
      }
    }
  }

  /**
    A cancelled run: it ends Cancelled, and every node recorded at the flip was finished by a call, with that
    call's outcome, or is Cancelled when the sweep is over. So what is pending at the flip and no call
    completes ends Cancelled.
   */
  lemma SweepCancelsTheRest(g: Graph, tr: seq<World>, i: nat, j: nat, pid: nat, n: string)
    requires Wired(g) && IsExecution(g, tr) && i <= j < |tr|
    requires pid in tr[i].procs && tr[i].procs[pid].work == Sweeping(0) && n in tr[i].records
    requires !(pid in tr[j].procs && tr[j].procs[pid].work.Sweeping?)
    ensures tr[j].run == Ended(Cancelled, OnCancel)
    ensures n in tr[j].records
    ensures n in tr[j].log ==> FinishedByCall(g, tr, j, n) && tr[j].records[n].status != Cancelled
    ensures n !in tr[j].log ==> tr[j].records[n].status == Cancelled
  {
    SweepFinishesTheRecorded(g, tr, i, j, pid, n);
    FinishedOrCancelled(g, tr, j, n);
    ExecutionKeepsInv(g, tr, i);
    InvProc(g, tr[i], pid);
    RunEndsOnce(g, tr, i, j);
  }

  /** The step that cancels a run starts a sweep at its first node. */
  lemma CancelSweeps(g: Graph, w: World, w': World) returns (pid: nat)
    requires Inv(g, w) && Next(g, w, w') && w.run.Alive? && w'.run.Ended? && w'.run.cause == OnCancel
    ensures pid in w'.procs && w'.procs[pid].work == Sweeping(0)
  {
    hide Justified, LogOk, RunOk, ReturnedOk, TerminalsOk, DispatchOk, PlanOk, AllExamined, Committed;
    hide NextProbe, Decide, View, Lookup, RunVerdict, EnqueueAll, Advances, Incoming, Outgoing, Bump, FailurePropagates;
    var ev :| Enabled(g, w, ev) && w' == Apply(g, w, ev);
    pid := ev.pid;
    assert ProcOk(g, w, w.procs[pid]);
  }

  /**
    Once a cancel has gone through: from the step that cancels the run on, as soon as no sweep is in flight,
    the run is Cancelled and each node that had a record then was finished by a call, with that call's
    outcome, or is Cancelled; and when no call at all is in flight the one event published says so.
   */
  lemma CancelGoesThrough(g: Graph, tr: seq<World>, i: nat, j: nat, n: string)
    requires Wired(g) && IsExecution(g, tr) && i < j < |tr|
    requires tr[i].run.Alive? && tr[i + 1].run.Ended? && tr[i + 1].run.cause == OnCancel && n in tr[i + 1].records
    requires forall p :: p in tr[j].procs ==> !tr[j].procs[p].work.Sweeping?
    ensures tr[j].run.Ended? && tr[j].run.status == Cancelled && n in tr[j].records
    ensures n in tr[j].log ==> FinishedByCall(g, tr, j, n) && tr[j].records[n].status != Cancelled
    ensures n !in tr[j].log ==> tr[j].records[n].status == Cancelled
    ensures tr[j].procs == map[] ==> tr[j].terminals == [Cancelled]
  {
    ExecutionKeepsInv(g, tr, i);
    assert Next(g, tr[i], tr[i + 1]);
    hide Next, Inv;
    var pid := CancelSweeps(g, tr[i], tr[i + 1]);
    SweepCancelsTheRest(g, tr, i + 1, j, pid, n);
    if tr[j].procs == map[] { EndedRunIsAnnounced(g, tr, j); }
  }

  // ----- a fatal failure ends the run

  /** The call's record stands, and if it is a failure that must not happen the call is about to end the run, or the run has ended. */
  ghost predicate Accused(g: Graph, w: World, p: Proc) {
    p.epoch > 0 ==>
      && p.node in w.records && w.records[p.node] == p.outcome && IsTerminal(p.outcome.status)
      && (p.outcome.status.Failed? && Fatal(g, p.node) ==> w.run.Ended? || p.work.Checking? || p.check.Finalizing?)
  }

  ghost predicate Blamed(g: Graph, w: World) {
    && (forall i :: i in w.procs ==> Accused(g, w, w.procs[i]))
    && (forall n :: n in w.returned ==> n in w.records && IsTerminal(w.records[n].status))
    && (forall n :: n in w.returned && w.records[n].status.Failed? && Fatal(g, n) ==> w.run.Ended?)
  }

  lemma AccusedLater(g: Graph, w: World, w': World, p: Proc)
    requires Accused(g, w, p) && Onward(w, w')
    ensures Accused(g, w', p)
  {
    hide Fatal;
  }

  lemma ReturnedBlamedLater(g: Graph, w: World, w': World)
    requires Blamed(g, w) && Onward(w, w')
    ensures forall n :: n in w.returned ==> n in w'.records && IsTerminal(w'.records[n].status)
    ensures forall n :: n in w.returned && w'.records[n].status.Failed? && Fatal(g, n) ==> w'.run.Ended?
  {
    hide Fatal;
  }

  /** A commit of a fatal failure plans nothing and blames its node. */
  lemma CommitAccused(g: Graph, w: World, pid: nat)
    requires pid in w.procs && w.procs[pid].work.Planning? && PlanOk(g, w, w.procs[pid])
    requires w.procs[pid].work.k >= |PlanDeps(g, w.procs[pid])|
    ensures var w' := Commit(g, w, pid, w.procs[pid]); Accused(g, w', w'.procs[pid]) && w'.returned == w.returned
  {
    var p := w.procs[pid];
    FatalOrTolerated(g, p.node);
    HeadIsMember(p.work.enqueue);
    hide Fatal, Tolerated, FailurePropagates, Outgoing, DecideNode;
  }

  lemma WorkAccused(g: Graph, w: World, pid: nat, w': World)
    requires pid in w.procs && ProcOk(g, w, w.procs[pid]) && Accused(g, w, w.procs[pid]) && w.procs[pid].check.Idle?
    requires !w.procs[pid].work.Done? && w' == TickWork(g, w, pid, w.procs[pid])
    ensures pid in w'.procs && Accused(g, w', w'.procs[pid]) && w'.returned == w.returned
  {
    hide Fatal, FailurePropagates, NextProbe, Decide, View, Incoming, Outgoing, EnqueueAll, AllExamined, MemoTrue, MemoFresh, Releases;
    var p := w.procs[pid];
    FatalOrTolerated(g, p.node);
    match p.work
    case Planning(_, _, _, _) => if p.work.k >= |PlanDeps(g, p)| { CommitAccused(g, w, pid); }
    case Dispatching(_, _, _) =>
      DispatchAccused(g, w, pid);
      hide TickDispatching;
    case _ =>
  }

  lemma DispatchAccused(g: Graph, w: World, pid: nat)
    requires pid in w.procs && w.procs[pid].work.Dispatching? && DispatchOk(g, w, w.procs[pid]) && Accused(g, w, w.procs[pid])
    ensures var w' := TickDispatching(g, w, pid, w.procs[pid]); pid in w'.procs && Accused(g, w', w'.procs[pid]) && w'.returned == w.returned
  {
    FatalOrTolerated(g, w.procs[pid].node);
    hide Fatal, FailurePropagates, NextProbe, Decide, View, Incoming, Outgoing, AllExamined, MemoTrue, MemoFresh;
  }

  lemma CheckAccused(g: Graph, w: World, pid: nat, w': World)
    requires pid in w.procs && ProcOk(g, w, w.procs[pid]) && Accused(g, w, w.procs[pid]) && !w.procs[pid].check.Idle?
    requires w' == TickCheck(g, w, pid, w.procs[pid])
    ensures pid in w'.procs && Accused(g, w', w'.procs[pid]) && w'.returned == w.returned
  {
    hide Fatal, RunVerdict, EndOk, DispatchOk, PlanOk, AllExamined;
  }

  /** A call that returns has written its node's record or none. */
  lemma ReturnBlamed(g: Graph, w: World, pid: nat, w': World)
    requires Blamed(g, w) && pid in w.procs && w.procs[pid].check.Idle? && w.procs[pid].work.Done? && w' == Return(w, pid, w.procs[pid])
    ensures Blamed(g, w')
  {
    hide Fatal;
    forall i | i in w'.procs ensures Accused(g, w', w'.procs[i]) { assert Accused(g, w, w.procs[i]); }
    assert Accused(g, w, w.procs[pid]);
  }

  lemma TickBlamed(g: Graph, w: World, pid: nat, w': World)
    requires Inv(g, w) && Blamed(g, w) && pid in w.procs && w' == Apply(g, w, Tick(pid))
    ensures Blamed(g, w')
  {
    var p := w.procs[pid];
    assert Accused(g, w, p);
    hide Inv, Apply, ProcOk, Accused, Fatal, TickWork, TickCheck, LogOk, TerminalsOk, NoParking, Onward;
    InvProc(g, w, pid);
    EventOnward(g, w, Tick(pid));
    TickForms(g, w, pid);
    if p.check.Idle? && p.work.Done? {
      ReturnBlamed(g, w, pid, w');
    } else {
      if p.check.Idle? { WorkAccused(g, w, pid, w'); } else { CheckAccused(g, w, pid, w'); }
      ReturnedBlamedLater(g, w, w');
      forall i | i in w'.procs ensures Accused(g, w', w'.procs[i]) {
        if i != pid {
          TickStands(g, w, pid, i);
          AccusedLater(g, w, w', w.procs[i]);
        }
      }
    }
  }

  lemma TickForms(g: Graph, w: World, pid: nat)
    requires pid in w.procs
    ensures var p, w' := w.procs[pid], Apply(g, w, Tick(pid));
            if p.check.Idle? then w' == TickWork(g, w, pid, p) && (p.work.Done? ==> w' == Return(w, pid, p)) else w' == TickCheck(g, w, pid, p)
  {
    hide TickPlanning, TickWriting, TickChecking, TickDispatching, TickFlipping, TickSweeping, TickCheck;
  }

  lemma OtherBlamed(g: Graph, w: World, ev: Event, w': World)
    requires Blamed(g, w) && Enabled(g, w, ev) && !ev.Tick? && w' == Apply(g, w, ev)
    ensures Blamed(g, w')
  {
    EventOnward(g, w, ev);
    ReturnedBlamedLater(g, w, w');
    hide Onward, Fatal;
    forall i | i in w'.procs ensures Accused(g, w', w'.procs[i]) {
      if i in w.procs { AccusedLater(g, w, w', w.procs[i]); }
    }
  }

  lemma {:induction false} ExecutionIsBlamed(g: Graph, tr: seq<World>, i: nat)
    requires Wired(g) && IsExecution(g, tr) && i < |tr|
    ensures Blamed(g, tr[i])
  {
    hide Inv, Blamed, Apply;
    if i == 0 { StartsBlameless(g, tr[0]); }
    else {
      ExecutionIsBlamed(g, tr, i - 1);
      ExecutionKeepsInv(g, tr, i - 1);
      var w, w' := tr[i - 1], tr[i];
      assert Next(g, w, w');
      var ev :| Enabled(g, w, ev) && w' == Apply(g, w, ev);
      if ev.Tick? { TickBlamed(g, w, ev.pid, w'); } else { OtherBlamed(g, w, ev, w'); }
    }
  }

  lemma StartsBlameless(g: Graph, w: World)
    requires Init(g, w)
    ensures Blamed(g, w)
  {
  }

  /** Under any interleaving: once the call that recorded a failure that must not happen has returned, the run has ended. */
  lemma FatalFailureEndsTheRun(g: Graph, tr: seq<World>, i: nat, n: string)
    requires Wired(g) && IsExecution(g, tr) && i < |tr| && n in tr[i].returned && n in tr[i].records
    requires tr[i].records[n].status.Failed? && Fatal(g, n)
    ensures tr[i].run.Ended?
  {
    ExecutionIsBlamed(g, tr, i);
  }

  // ----- recorded as the edges demand

  lemma DispatchRecords(g: Graph, w: World, pid: nat, n: string, w': World)
    requires pid in w.procs && w.procs[pid].work.Dispatching? && DispatchOk(g, w, w.procs[pid]) && NoParking(w.records)
    requires w' == TickDispatching(g, w, pid, w.procs[pid]) && Onward(w, w') && n !in w.records && n in w'.records
    ensures w'.records[n].status == if LiveInto(g, w'.records, n) then Queued else Skipped
    ensures !DecideNode(g, w'.records, n).DepWaiting?
  {
    var p := w.procs[pid];
    var top := p.work.stack[|p.work.stack| - 1];
    var deps := Outgoing(g.edges, top.node);
    assert top.k < |deps| && deps[top.k] == n && NextProbe(p.work.memo, Incoming(g.edges, n)).Settled?;
    var inc := Incoming(g.edges, n);
    hide Outgoing, Incoming, AllExamined, MemoFresh, Delivers, Spared, LiveInto, NextProbe;
    SettledNeverWaits(p.work.memo, inc);
    SettledDecides(w.records, p.work.memo, inc);
    DecisionIsFinal(w.records, w'.records, inc);
    EnqueuedExactlyIfLive(g, w'.records, n);
    hide Decide, View;
  }

  lemma PlanRecords(g: Graph, w: World, pid: nat, n: string, w': World)
    requires pid in w.procs && w.procs[pid].work.Planning?
    requires w' == TickPlanning(g, w, pid, w.procs[pid]) && n !in w.records && n in w'.records
    ensures w'.records[n] == QUEUED
  {
    hide NextProbe, Decide, View, Incoming, PlanDeps, EnqueueAll, Conclude;
  }

  /** A record that a step adds is the one the edges into its node demand. */
  lemma TickRecords(g: Graph, w: World, pid: nat, n: string, w': World)
    requires Inv(g, w) && Inv(g, w') && Wired(g) && pid in w.procs && w' == Apply(g, w, Tick(pid))
    requires Onward(w, w') && n !in w.records && n in w'.records && !IsSource(g, n)
    ensures w'.records[n].status == if LiveInto(g, w'.records, n) then Queued else Skipped
    ensures !DecideNode(g, w'.records, n).DepWaiting?
  {
    hide *;
    InvProc(g, w, pid);
    var p := w.procs[pid];
    DispatchIsOk(g, w, p);
    if !p.check.Idle? || p.work.Checking? || p.work.Flipping? || p.work.Done? {
      NothingWritten(g, w, pid);
    } else {
      TickIsWork(g, w, pid);
      match p.work
      case Planning(_, _, _, _) =>
        PlanRecords(g, w, pid, n, w');
        QueuedIsLive(g, w', n);
      case Writing => WritesItsNode(g, w, pid);
      case SkipWriting => WritesItsNode(g, w, pid);
      case Dispatching(_, _, _) => DispatchRecords(g, w, pid, n, w');
      case Sweeping(_) => SweepsRecorded(g, w, pid);
    }
  }

  lemma DispatchIsOk(g: Graph, w: World, p: Proc)
    requires ProcOk(g, w, p)
    ensures p.work.Dispatching? ==> DispatchOk(g, w, p)
  {
  }

  lemma QueuedIsLive(g: Graph, w: World, n: string)
    requires Inv(g, w) && n in w.records && w.records[n] == QUEUED && !IsSource(g, n)
    ensures LiveInto(g, w.records, n) && w.records[n].status == Queued && !DecideNode(g, w.records, n).DepWaiting?
  {
    EnqueuedExactlyIfLive(g, w.records, n);
  }

  lemma WritesItsNode(g: Graph, w: World, pid: nat)
    requires pid in w.procs
    ensures TickWriting(g, w, pid, w.procs[pid]).records.Keys == w.records.Keys
  {
  }

  lemma SweepsRecorded(g: Graph, w: World, pid: nat)
    requires pid in w.procs && w.procs[pid].work.Sweeping?
    ensures TickSweeping(g, w, pid, w.procs[pid]).records.Keys == w.records.Keys
  {
  }

  lemma OthersRecordNothing(g: Graph, w: World, ev: Event)
    requires Enabled(g, w, ev) && !ev.Tick?
    ensures Apply(g, w, ev).records.Keys == w.records.Keys
  {
  }

  /**
    Under any interleaving, a node gets its record when its predecessors are finished: Queued exactly if the
    edges into it call for it, and Skipped otherwise.
   */
  lemma RecordedAsTheEdgesDemand(g: Graph, tr: seq<World>, k: nat, n: string)
    requires Wired(g) && IsExecution(g, tr) && k + 1 < |tr| && n !in tr[k].records && n in tr[k + 1].records
    ensures forall e :: e in g.edges && e.to == n ==> e.from in tr[k + 1].records && IsTerminal(tr[k + 1].records[e.from].status)
    ensures tr[k + 1].records[n].status == if LiveInto(g, tr[k + 1].records, n) then Queued else Skipped
  {
    ExecutionKeepsInv(g, tr, k);
    ExecutionKeepsInv(g, tr, k + 1);
    TraceOnward(g, tr, 0, k);
    TraceOnward(g, tr, k, k + 1);
    var w, w' := tr[k], tr[k + 1];
    assert !IsSource(g, n);
    assert NoParking(w'.records);
    assert Next(g, w, w');
    var ev :| Enabled(g, w, ev) && w' == Apply(g, w, ev);
    hide Inv, IsExecution, Apply, Enabled, LiveInto, Decide;
    assert n in w'.records.Keys && n !in w.records.Keys;
    assert ev.Tick? by { if !ev.Tick? { OthersRecordNothing(g, w, ev); } }
    TickRecords(g, w, ev.pid, n, w');
    forall e | e in g.edges && e.to == n ensures e.from in w'.records && IsTerminal(w'.records[e.from].status) {
      assert e in Incoming(g.edges, n);
      NotOpen(w'.records, Incoming(g.edges, n), e);
    }
  }

  lemma NotOpen(r: Records, inc: seq<Edge>, e: Edge)
    requires !Decide(r, inc).DepWaiting? && e in inc && NoParking(r)
    ensures e.from in r && IsTerminal(r[e.from].status)
  {
    assert !Open(r, e);
  }
}
