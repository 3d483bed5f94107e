/**
  The invariant of interleaved runs, and that every step keeps it.
 */
module InterleavingInvariant {
  import opened Graphs
  import opened Decisions
  import opened RunStores
  import opened Fates
  import opened Interleaving

  /** A finished record in a memo is the store's record. */
  ghost predicate MemoTrue(r: Records, memo: Memo) {
    forall x :: x in memo && memo[x].Some? ==>
      && !memo[x].value.status.Awaiting?
      && (IsTerminal(memo[x].value.status) ==> x in r && r[x] == memo[x].value)
  }

  /** Whatever was finished before this call wrote its record, this call saw finished. */
  ghost predicate MemoFresh(before: seq<string>, memo: Memo) {
    forall x :: x in memo && x in before ==> !Unfinished(memo[x])
  }

  /** `d` is recorded, or some predecessor was not finished by `epoch`. */
  ghost predicate Examined(g: Graph, w: World, epoch: nat, d: string)
    requires epoch <= |w.log|
  {
    d in w.records || exists e :: e in g.edges && e.to == d && e.from !in w.log[..epoch]
  }

  ghost predicate AllExamined(g: Graph, w: World, epoch: nat, n: string, k: nat)
    requires epoch <= |w.log|
  {
    var deps := Outgoing(g.edges, n);
    forall i :: 0 <= i < k && i < |deps| ==> Examined(g, w, epoch, deps[i])
  }

  /** Everything to be queued is a dependent that the records `r` release. */
  ghost predicate Releases(g: Graph, r: Records, deps: seq<string>, enqueue: seq<string>) {
    forall d :: d in enqueue ==> d in deps && DecideNode(g, r, d).DepEnqueue?
  }

  ghost predicate PlanOk(g: Graph, w: World, p: Proc)
    requires p.work.Planning?
  {
    var deps := PlanDeps(g, p);
    && p.epoch == 0 && p.node in Ids(g.nodes) && Executed(p.outcome) && p.check.Idle?
    && p.node in p.work.seen && p.work.seen[p.node] == Some(p.outcome)
    && MemoTrue(w.records[p.node := p.outcome], p.work.seen)
    && p.work.k <= |deps|
    && Releases(g, w.records[p.node := p.outcome], deps, p.work.enqueue)
    && (p.work.revisit ==> p.work.k > 0)
    && (p.work.revisit || forall i :: 0 <= i < p.work.k ==> deps[i] in p.work.enqueue)
  }

  ghost predicate Committed(g: Graph, w: World, p: Proc) {
    && 0 < p.epoch <= |w.log| && w.log[p.epoch - 1] == p.node
    && (Executed(p.outcome) || p.outcome == SKIPPED)
  }

  ghost predicate DispatchOk(g: Graph, w: World, p: Proc)
    requires p.work.Dispatching?
  {
    && Committed(g, w, p)
    && !(p.outcome.status.Failed? && FailurePropagates(g, p.node))
    && MemoTrue(w.records, p.work.memo)
    && MemoFresh(w.log[..p.epoch], p.work.memo)
    && p.work.stack != [] && p.work.stack[0].node == p.node
    && AllExamined(g, w, p.epoch, p.node, p.work.stack[0].k)
  }

  ghost predicate WorkOk(g: Graph, w: World, p: Proc) {
    match p.work
    case Planning(_, _, _, _) => PlanOk(g, w, p)
    case Writing => p.epoch == 0 && p.node in Ids(g.nodes) && Executed(p.outcome) && p.check.Idle?
    case SkipWriting => p.epoch == 0 && p.node in Ids(g.nodes) && p.outcome == SKIPPED && p.check.Idle?
    case Checking => Committed(g, w, p) && Executed(p.outcome) && p.check.Idle? && p.node in w.records && w.records[p.node] == p.outcome
    case Dispatching(_, _, _) => DispatchOk(g, w, p)
    case Flipping => p.epoch == 0 && p.check.Idle?
    case Sweeping(_) => p.epoch == 0 && p.check.Idle? && w.run == Ended(Cancelled, OnCancel)
    case Done =>
      p.epoch > 0 ==>
        && Committed(g, w, p)
        && (w.run.Ended? || p.check.Finalizing? || AllExamined(g, w, p.epoch, p.node, |Outgoing(g.edges, p.node)|))
  }

  /** The run record may end this way. */
  ghost predicate EndOk(g: Graph, r: Records, v: Status, cause: Cause) {
    match cause
    case OnRecords => EndedOnRecords(g, r, v)
    case OnCancel => v.Cancelled?
    case OnAbandon => v.Failed?
  }

  ghost predicate CheckOk(g: Graph, w: World, p: Proc) {
    match p.check
    case Finalizing(v, cause) => EndOk(g, w.records, v, cause) && IsTerminal(v) && !cause.OnCancel?
    case Publishing(v) => w.run.Ended? && w.run.status == v
    case _ => true
  }

  ghost predicate ProcOk(g: Graph, w: World, p: Proc) {
    WorkOk(g, w, p) && CheckOk(g, w, p)
  }

  /** This call still has to publish the Terminal event. */
  predicate Owes(p: Proc) {
    p.check.Publishing? || p.work.Sweeping?
  }

  /** Exactly one Terminal event, owed or published, for an ended run; none before. */
  ghost predicate TerminalsOk(w: World) {
    match w.run
    case Alive => w.terminals == [] && forall i :: i in w.procs ==> !Owes(w.procs[i])
    case Ended(v, _) =>
      || (w.terminals == [v] && forall i :: i in w.procs ==> !Owes(w.procs[i]))
      || (&& w.terminals == []
          && (exists i :: i in w.procs && Owes(w.procs[i]))
          && (forall i, j :: i in w.procs && j in w.procs && Owes(w.procs[i]) && Owes(w.procs[j]) ==> i == j))
  }

  ghost predicate LogOk(w: World) {
    && (forall n :: n in w.log ==> n in w.records && IsTerminal(w.records[n].status))
    && (forall i, j :: 0 <= i < j < |w.log| ==> w.log[i] != w.log[j])
    && (w.run.Alive? ==> forall n :: n in w.records && IsTerminal(w.records[n].status) ==> n in w.log)
  }

  ghost predicate ReturnedOk(g: Graph, w: World) {
    && (forall n :: n in w.returned ==> n in w.log)
    && (w.run.Ended? || forall i :: 0 <= i < |w.log| && w.log[i] in w.returned ==>
          AllExamined(g, w, i + 1, w.log[i], |Outgoing(g.edges, w.log[i])|))
  }

  ghost predicate RunOk(g: Graph, w: World) {
    w.run.Ended? ==> IsTerminal(w.run.status) && EndOk(g, w.records, w.run.status, w.run.cause)
  }

  ghost predicate Inv(g: Graph, w: World) {
    && Justified(g, w.records) && LogOk(w) && RunOk(g, w) && ReturnedOk(g, w) && TerminalsOk(w)
    && forall i :: i in w.procs ==> ProcOk(g, w, w.procs[i])
  }

  lemma InvProc(g: Graph, w: World, pid: nat)
    requires Inv(g, w) && pid in w.procs
    ensures ProcOk(g, w, w.procs[pid]) && NoParking(w.records) && LogOk(w) && TerminalsOk(w)
  {
  }

  // ----- what later states keep

  /** Time has passed: records and log grew, an ended run stayed ended. */
  ghost predicate Later(w: World, w': World) {
    && Grows(w.records, w'.records)
    && w.log <= w'.log
    && (w.run.Ended? ==> w'.run == w.run)
    && NoParking(w.records)
  }

  lemma ExaminedLater(g: Graph, w: World, w': World, epoch: nat, n: string, k: nat)
    requires Later(w, w') && epoch <= |w.log| && AllExamined(g, w, epoch, n, k)
    ensures AllExamined(g, w', epoch, n, k)
  {
    assert w.log[..epoch] == w'.log[..epoch];
    var deps := Outgoing(g.edges, n);
    forall i | 0 <= i < k && i < |deps| ensures Examined(g, w', epoch, deps[i]) {
      assert Examined(g, w, epoch, deps[i]);
    }
  }

  lemma EndLater(g: Graph, r: Records, r': Records, v: Status, cause: Cause)
    requires Grows(r, r') && EndOk(g, r, v, cause)
    ensures EndOk(g, r', v, cause)
  {
    if cause.OnRecords? {
      if v.Succeeded? {
        VerdictIsFinal(g, g.nodes, r, r');
      } else {
        var n :| PropagatingFailure(g, r, n);
        assert PropagatingFailure(g, r', n);
      }
    }
  }

  lemma GrowsOverlay(r: Records, r': Records, n: string, o: Record)
    requires Grows(r, r')
    ensures Grows(r[n := o], r'[n := o])
  {
  }

  lemma PlanLater(g: Graph, w: World, w': World, p: Proc)
    requires Later(w, w') && p.work.Planning? && PlanOk(g, w, p)
    ensures PlanOk(g, w', p)
  {
    var r, r' := w.records[p.node := p.outcome], w'.records[p.node := p.outcome];
    GrowsOverlay(w.records, w'.records, p.node, p.outcome);
    assert NoParking(r);
    forall d | d in p.work.enqueue ensures DecideNode(g, r', d).DepEnqueue? {
      assert DecideNode(g, r, d).DepEnqueue?;
      DecisionIsFinal(r, r', Incoming(g.edges, d));
    }
  }

  /** A call that stands still stays in order while others move. */
  lemma ProcLater(g: Graph, w: World, w': World, p: Proc)
    requires Later(w, w') && ProcOk(g, w, p)
    ensures ProcOk(g, w', p)
  {
    if p.check.Finalizing? { EndLater(g, w.records, w'.records, p.check.v, p.check.cause); }
    match p.work
    case Planning(_, _, _, _) => PlanLater(g, w, w', p);
    case Dispatching(memo, stack, _) =>
      ExaminedLater(g, w, w', p.epoch, p.node, stack[0].k);
      assert w.log[..p.epoch] == w'.log[..p.epoch];
    case Done =>
      if p.epoch > 0 && AllExamined(g, w, p.epoch, p.node, |Outgoing(g.edges, p.node)|) {
        ExaminedLater(g, w, w', p.epoch, p.node, |Outgoing(g.edges, p.node)|);
      }
    case _ =>
  }

  lemma ReturnedLater(g: Graph, w: World, w': World)
    requires Later(w, w') && ReturnedOk(g, w) && w'.returned == w.returned && LogOk(w')
    ensures ReturnedOk(g, w')
  {
    forall n | n in w'.returned ensures n in w'.log {
      assert n in w.log;
      var i :| 0 <= i < |w.log| && w.log[i] == n;
      assert w'.log[i] == n;
    }
    if !w'.run.Ended? {
      forall i | 0 <= i < |w'.log| && w'.log[i] in w'.returned
        ensures AllExamined(g, w', i + 1, w'.log[i], |Outgoing(g.edges, w'.log[i])|)
      {
        var j :| 0 <= j < |w.log| && w.log[j] == w'.log[i];
        assert w'.log[j] == w.log[j];
        assert i == j;
        ExaminedLater(g, w, w', i + 1, w.log[i], |Outgoing(g.edges, w.log[i])|);
      }
    }
  }

  // ----- one call moves

  /** A step of call `pid`: it becomes `p'`, owing as much as before, while the store moves on. */
  ghost predicate Moves(g: Graph, w: World, pid: nat, p': Proc, w': World) {
    && w'.procs == w.procs[pid := p'] && w'.returned == w.returned
    && Later(w, w') && Justified(g, w'.records) && LogOk(w') && RunOk(g, w') && ProcOk(g, w', p')
  }

  lemma MovesKeepInv(g: Graph, w: World, pid: nat, p': Proc, w': World)
    requires Inv(g, w) && Moves(g, w, pid, p', w') && TerminalsOk(w')
    ensures Inv(g, w')
  {
    ReturnedLater(g, w, w');
    forall i | i in w'.procs ensures ProcOk(g, w', w'.procs[i]) {
      if i != pid {
        ProcLater(g, w, w', w.procs[i]);
      }
    }
  }

  /** If neither the run nor the events moved and nobody's debt changed, the events stay in order. */
  lemma SameDebts(w: World, pid: nat, p': Proc, w': World)
    requires TerminalsOk(w) && w'.procs == w.procs[pid := p'] && w'.run == w.run && w'.terminals == w.terminals
    requires Owes(p') <==> pid in w.procs && Owes(w.procs[pid])
    ensures TerminalsOk(w')
  {
    forall i | i in w'.procs ensures Owes(w'.procs[i]) <==> i in w.procs && Owes(w.procs[i]) {}
    if w.terminals == [] && w.run.Ended? {
      var i :| i in w.procs && Owes(w.procs[i]);
      assert i in w'.procs && Owes(w'.procs[i]);
    }
  }

  lemma JustifiedEnqueueAll(g: Graph, r: Records, deps: seq<string>)
    requires Justified(g, r)
    requires forall d :: d in deps ==> d in Ids(g.nodes) && DecideNode(g, r, d).DepEnqueue?
    ensures Justified(g, EnqueueAll(r, deps)) && Grows(r, EnqueueAll(r, deps))
  {
    var r' := EnqueueAll(r, deps);
    forall d | d in r' && !IsSource(g, d)
      ensures DecideNode(g, r', d).DepEnqueue? || (DecideNode(g, r', d).DepSkipped? && r'[d] == SKIPPED)
    {
      DecisionIsFinal(r, r', Incoming(g.edges, d));
    }
  }

  /** Only the record of one pending node changes. */
  lemma UpdateLater(g: Graph, w: World, n: string, rec: Record, w': World)
    requires Inv(g, w) && Interleaving.Pending(w.records, n) && !rec.status.Awaiting?
    requires w'.records == w.records[n := rec]
    requires if w'.log == w.log then IsTerminal(rec.status) ==> w.run.Ended? else w'.log == w.log + [n] && IsTerminal(rec.status)
    requires w'.run == w.run
    ensures Later(w, w') && Justified(g, w'.records) && LogOk(w') && RunOk(g, w')
  {
    JustifiedUpdate(g, w.records, n, rec);
    if w.run.Ended? { EndLater(g, w.records, w'.records, w.run.status, w.run.cause); }
  }

  /** The store is untouched, and the run record at most ends. */
  lemma StillLater(g: Graph, w: World, w': World)
    requires Inv(g, w) && w'.records == w.records && w'.log == w.log && w'.run == w.run
    ensures Later(w, w') && Justified(g, w'.records) && LogOk(w') && RunOk(g, w')
  {
  }

  lemma EndRunLater(g: Graph, w: World, v: Status, cause: Cause, w': World)
    requires Inv(g, w) && w.run.Alive? && EndOk(g, w.records, v, cause) && IsTerminal(v)
    requires w'.records == w.records && w'.log == w.log && w'.run == Ended(v, cause)
    ensures Later(w, w') && Justified(g, w'.records) && LogOk(w') && RunOk(g, w')
  {
  }

  lemma VerdictEnds(g: Graph, r: Records)
    requires RunVerdict(g, r).Some?
    ensures EndedOnRecords(g, r, RunVerdict(g, r).value) && IsTerminal(RunVerdict(g, r).value)
  {
    if RunVerdict(g, r) == Some(Failed) {
      var n :| n in g.nodes && PropagatingFailure(g, r, n.id);
    }
  }

  /** Ending the run creates one debt; publishing pays it. */
  lemma NewDebt(w: World, pid: nat, p': Proc, w': World)
    requires TerminalsOk(w) && w.run.Alive? && w'.run.Ended? && Owes(p')
    requires w'.procs == w.procs[pid := p'] && w'.terminals == w.terminals
    ensures TerminalsOk(w')
  {
    assert pid in w'.procs && Owes(w'.procs[pid]);
  }

  lemma PaidDebt(w: World, pid: nat, p': Proc, w': World)
    requires TerminalsOk(w) && w.run.Ended? && pid in w.procs && Owes(w.procs[pid]) && !Owes(p')
    requires w'.procs == w.procs[pid := p'] && w'.terminals == w.terminals + [w.run.status] && w'.run == w.run
    ensures TerminalsOk(w')
  {
    assert w.terminals == [];
  }

  /** A completion check moves on inside unchanged work. */
  lemma CheckMoves(g: Graph, w: World, w': World, p: Proc, p': Proc)
    requires Later(w, w') && ProcOk(g, w, p) && (p.work.Dispatching? || p.work.Done?)
    requires p' == p.(check := p'.check) && CheckOk(g, w', p')
    requires p.check.Finalizing? ==> w'.run.Ended?
    ensures ProcOk(g, w', p')
  {
    ProcLater(g, w, w', p);
  }

  lemma CheckKeepsInv(g: Graph, w: World, pid: nat)
    requires Inv(g, w) && pid in w.procs && !w.procs[pid].check.Idle?
    ensures Inv(g, TickCheck(g, w, pid, w.procs[pid]))
  {
    hide Inv, LogOk, TerminalsOk, NoParking, Justified, RunOk, Later, DispatchOk, RunVerdict;
    InvProc(g, w, pid);
    var p, w' := w.procs[pid], TickCheck(g, w, pid, w.procs[pid]);
    var p' := w'.procs[pid];
    match p.check {
      case Listing =>
        if RunVerdict(g, w.records).Some? { VerdictEnds(g, w.records); }
        StillLater(g, w, w');
        SameDebts(w, pid, p', w');
      case Finalizing(v, cause) =>
        if w.run.Ended? {
          StillLater(g, w, w');
          SameDebts(w, pid, p', w');
        } else {
          EndRunLater(g, w, v, cause, w');
          NewDebt(w, pid, p', w');
        }
      case Publishing(v) =>
        StillLater(g, w, w');
        PaidDebt(w, pid, p', w');
    }
    CheckMoves(g, w, w', p, p');
    MovesKeepInv(g, w, pid, p', w');
  }

  // ----- planning and committing

  lemma MemoRead(r: Records, memo: Memo, x: string)
    requires NoParking(r) && MemoTrue(r, memo)
    ensures MemoTrue(r, memo[x := Lookup(r, x)])
  {
  }

  /** A settled look at a memo decides as the store does. */
  lemma SettledDecides(r: Records, memo: Memo, inc: seq<Edge>)
    requires NextProbe(memo, inc).Settled? && MemoTrue(r, memo)
    ensures Decide(View(memo), inc) == Decide(r, inc)
  {
    forall e | e in inc ensures e.from in View(memo) && e.from in r && View(memo)[e.from] == r[e.from] {
      assert !Open(View(memo), e);
    }
    SameEvidenceSameDecision(View(memo), r, inc);
  }

  lemma PlanReadKeeps(g: Graph, w: World, p: Proc, x: string)
    requires p.work.Planning? && PlanOk(g, w, p) && NoParking(w.records) && x != p.node
    ensures PlanOk(g, w, p.(work := p.work.(seen := p.work.seen[x := Lookup(w.records, x)])))
  {
    var r := w.records[p.node := p.outcome];
    MemoRead(r, p.work.seen, x);
    assert Lookup(r, x) == Lookup(w.records, x);
  }

  /** The plan leaves its next dependent to the revisit. */
  lemma PlanDeferKeeps(g: Graph, w: World, p: Proc)
    requires p.work.Planning? && PlanOk(g, w, p) && p.work.k < |PlanDeps(g, p)|
    ensures PlanOk(g, w, p.(work := p.work.(k := p.work.k + 1, revisit := true)))
  {
    hide DecideNode;
    var p' := p.(work := p.work.(k := p.work.k + 1, revisit := true));
    assert PlanDeps(g, p') == PlanDeps(g, p);
  }

  lemma PrefixCovered(deps: seq<string>, k: nat, xs: seq<string>)
    requires k < |deps| && forall i :: 0 <= i < k ==> deps[i] in xs
    ensures forall i :: 0 <= i < k + 1 ==> deps[i] in xs + [deps[k]]
  {
  }

  lemma ReleasesOneMore(g: Graph, r: Records, deps: seq<string>, enqueue: seq<string>, d: string)
    requires Releases(g, r, deps, enqueue) && d in deps && DecideNode(g, r, d).DepEnqueue?
    ensures Releases(g, r, deps, enqueue + [d])
  {
  }

  /** The plan queues its next dependent. */
  lemma PlanQueueKeeps(g: Graph, w: World, p: Proc, p': Proc, d: string)
    requires p.work.Planning? && PlanOk(g, w, p) && p.work.k < |PlanDeps(g, p)| && d == PlanDeps(g, p)[p.work.k]
    requires NextProbe(p.work.seen, Incoming(g.edges, d)).Settled?
    requires Decide(View(p.work.seen), Incoming(g.edges, d)).DepEnqueue?
    requires p' == Proc(p.node, p.outcome, p.epoch,
                        Planning(p.work.seen, p.work.k + 1, p.work.enqueue + [d], p.work.revisit), p.check)
    ensures PlanOk(g, w, p')
  {
    hide Decide, Incoming, MemoTrue, View, NextProbe, Releases;
    var r, deps := w.records[p.node := p.outcome], PlanDeps(g, p);
    SettledDecides(r, p.work.seen, Incoming(g.edges, d));
    assert DecideNode(g, r, d).DepEnqueue? && d in deps;
    ReleasesOneMore(g, r, deps, p.work.enqueue, d);
    if !p.work.revisit { PrefixCovered(deps, p.work.k, p.work.enqueue); }
  }

  lemma ReadIsNew(memo: Memo, inc: seq<Edge>)
    ensures NextProbe(memo, inc).Read? ==> NextProbe(memo, inc).id !in memo
  {
  }

  /** A call moves without touching anything shared. */
  lemma QuietMove(g: Graph, w: World, pid: nat, p': Proc)
    requires Inv(g, w) && pid in w.procs && ProcOk(g, w, p')
    requires Owes(p') <==> Owes(w.procs[pid])
    ensures Inv(g, WithProc(w, pid, p'))
  {
    var w' := WithProc(w, pid, p');
    StillLater(g, w, w');
    ProcLater(g, w, w', p');
    SameDebts(w, pid, p', w');
    hide Justified, LogOk, RunOk, Later, ProcOk, TerminalsOk;
    MovesKeepInv(g, w, pid, p', w');
  }

  lemma PlanningKeepsInv(g: Graph, w: World, pid: nat)
    requires Inv(g, w) && pid in w.procs && w.procs[pid].work.Planning?
    requires w.procs[pid].work.k < |PlanDeps(g, w.procs[pid])|
    ensures Inv(g, TickPlanning(g, w, pid, w.procs[pid]))
  {
    hide Inv, PlanOk, PlanDeps, Incoming, Decide, View, LogOk, TerminalsOk, NoParking;
    InvProc(g, w, pid);
    var p := w.procs[pid];
    var inc := Incoming(g.edges, PlanDeps(g, p)[p.work.k]);
    ReadIsNew(p.work.seen, inc);
    match NextProbe(p.work.seen, inc) {
      case Read(x) =>
        assert p.node in p.work.seen by { PlanKnowsItself(g, w, p); }
        PlanReadKeeps(g, w, p, x);
        QuietMove(g, w, pid, p.(work := p.work.(seen := p.work.seen[x := Lookup(w.records, x)])));
      case Waits =>
        PlanDeferKeeps(g, w, p);
        QuietMove(g, w, pid, p.(work := p.work.(k := p.work.k + 1, revisit := true)));
      case Settled =>
        if Decide(View(p.work.seen), inc).DepEnqueue? {
          var d := PlanDeps(g, p)[p.work.k];
          var p' := p.(work := p.work.(k := p.work.k + 1, enqueue := p.work.enqueue + [d]));
          PlanQueueKeeps(g, w, p, p', d);
          QuietMove(g, w, pid, p');
        } else {
          PlanDeferKeeps(g, w, p);
          QuietMove(g, w, pid, p.(work := p.work.(k := p.work.k + 1, revisit := true)));
        }
    }
  }

  lemma PlanKnowsItself(g: Graph, w: World, p: Proc)
    requires p.work.Planning? && PlanOk(g, w, p)
    ensures p.node in p.work.seen
  {
  }

  lemma CommitRecords(g: Graph, w: World, p: Proc)
    requires Inv(g, w) && p.work.Planning? && PlanOk(g, w, p) && Wired(g)
    requires Interleaving.Pending(w.records, p.node)
    ensures var r := w.records[p.node := p.outcome];
            && Justified(g, r) && Grows(w.records, r)
            && Justified(g, EnqueueAll(r, p.work.enqueue)) && Grows(r, EnqueueAll(r, p.work.enqueue))
  {
    var r := w.records[p.node := p.outcome];
    JustifiedUpdate(g, w.records, p.node, p.outcome);
    forall d | d in p.work.enqueue ensures d in Ids(g.nodes) {
      assert d in Outgoing(g.edges, p.node);
    }
    JustifiedEnqueueAll(g, r, p.work.enqueue);
  }

  /** What a commit does to the store. */
  lemma CommitStore(g: Graph, w: World, p: Proc, w': World)
    requires Inv(g, w) && Wired(g) && p.work.Planning? && PlanOk(g, w, p) && Interleaving.Pending(w.records, p.node)
    requires var r := w.records[p.node := p.outcome];
             w'.records == if w.run.Ended? then r else EnqueueAll(r, p.work.enqueue)
    requires w'.log == w.log + [p.node] && w'.run == w.run
    ensures Later(w, w') && Justified(g, w'.records) && LogOk(w') && RunOk(g, w')
  {
    CommitRecords(g, w, p);
    CommitLog(w, p.node, p.outcome, p.work.enqueue, w');
    hide LogOk, Justified, EnqueueAll;
    if w.run.Ended? { EndLater(g, w.records, w'.records, w.run.status, w.run.cause); }
  }

  lemma CommitLog(w: World, n: string, o: Record, enqueue: seq<string>, w': World)
    requires LogOk(w) && Interleaving.Pending(w.records, n) && IsTerminal(o.status)
    requires w'.records == w.records[n := o] || w'.records == EnqueueAll(w.records[n := o], enqueue)
    requires w'.log == w.log + [n] && w'.run == w.run
    ensures LogOk(w')
  {
    hide EnqueueAll;
    assert n !in w.log;
    forall x | x in w'.records && IsTerminal(w'.records[x].status) && w.run.Alive? ensures x in w'.log {
      if x != n { assert x in w.records && w.records[x] == w'.records[x]; }
    }
  }

  /** A commit that leaves nothing to revisit has queued every dependent. */
  lemma CommitExamines(g: Graph, w: World, p: Proc, w': World)
    requires p.work.Planning? && PlanOk(g, w, p) && p.work.k == |PlanDeps(g, p)| && !p.work.revisit
    requires Advances(g, p.node, p.outcome.status)
    requires w'.records == EnqueueAll(w.records[p.node := p.outcome], p.work.enqueue)
    ensures AllExamined(g, w', |w'.log|, p.node, |Outgoing(g.edges, p.node)|)
  {
    var deps := Outgoing(g.edges, p.node);
    forall i | 0 <= i < |deps| ensures Examined(g, w', |w'.log|, deps[i]) {
      assert deps[i] in p.work.enqueue;
    }
  }

  lemma HeadIsMember(xs: seq<string>)
    ensures xs == [] || xs[0] in xs
  {
  }

  lemma CommitProc(g: Graph, w: World, pid: nat, p: Proc)
    requires p.work.Planning? && PlanOk(g, w, p) && p.work.k == |PlanDeps(g, p)|
    requires Interleaving.Pending(w.records, p.node)
    ensures var w' := Commit(g, w, pid, p); ProcOk(g, w', w'.procs[pid]) && !Owes(w'.procs[pid])
  {
    var w' := Commit(g, w, pid, p);
    var p' := w'.procs[pid];
    assert w'.log[|w'.log| - 1] == p.node && Committed(g, w', p');
    if w.run.Alive? {
      if p.work.revisit {
        RevisitProc(g, w, p, w', p');
      } else if Advances(g, p.node, p.outcome.status) {
        CommitExamines(g, w, p, w');
        hide AllExamined, PlanOk, EnqueueAll, FailurePropagates, Outgoing;
        assert ProcOk(g, w', p');
      } else {
        HeadIsMember(p.work.enqueue);
        hide AllExamined, FailurePropagates, Outgoing;
        assert PropagatingFailure(g, w'.records, p.node);
        assert ProcOk(g, w', p');
      }
    }
  }

  lemma RevisitProc(g: Graph, w: World, p: Proc, w': World, p': Proc)
    requires p.work.Planning? && PlanOk(g, w, p) && Committed(g, w', p') && p.work.revisit
    requires w'.records == EnqueueAll(w.records[p.node := p.outcome], p.work.enqueue)
    requires p'.node == p.node && p'.outcome == p.outcome && p'.check.Idle?
    requires p'.work.Dispatching? && p'.work == Dispatching(map[p.node := Some(p.outcome)], [Frame(p.node, 0)], p'.work.queued)
    requires Advances(g, p.node, p.outcome.status)
    ensures ProcOk(g, w', p')
  {
  }

  lemma CommitKeepsInv(g: Graph, w: World, pid: nat)
    requires Inv(g, w) && Wired(g) && pid in w.procs && w.procs[pid].work.Planning?
    requires w.procs[pid].work.k >= |PlanDeps(g, w.procs[pid])|
    ensures Inv(g, Commit(g, w, pid, w.procs[pid]))
  {
    hide Inv, LogOk, TerminalsOk, NoParking, Justified, RunOk, Later, EnqueueAll, PlanDeps;
    var p, w' := w.procs[pid], Commit(g, w, pid, w.procs[pid]);
    InvProc(g, w, pid);
    if !Interleaving.Pending(w.records, p.node) {
      QuietMove(g, w, pid, p.(work := Done));
    } else {
      var p' := w'.procs[pid];
      CommitStore(g, w, p, w');
      CommitProc(g, w, pid, p);
      SameDebts(w, pid, p', w');
      MovesKeepInv(g, w, pid, p', w');
    }
  }

  lemma WritingKeepsInv(g: Graph, w: World, pid: nat)
    requires Inv(g, w) && pid in w.procs && (w.procs[pid].work.Writing? || w.procs[pid].work.SkipWriting?)
    ensures Inv(g, TickWriting(g, w, pid, w.procs[pid]))
  {
    hide Inv, LogOk, TerminalsOk, NoParking, Justified, RunOk, Later;
    var p, w' := w.procs[pid], TickWriting(g, w, pid, w.procs[pid]);
    InvProc(g, w, pid);
    if !Interleaving.Pending(w.records, p.node) {
      QuietMove(g, w, pid, p.(work := Done));
    } else {
      var p' := w'.procs[pid];
      UpdateLater(g, w, p.node, p.outcome, w');
      assert w'.log[|w'.log| - 1] == p.node && Committed(g, w', p');
      assert ProcOk(g, w', p');
      SameDebts(w, pid, p', w');
      MovesKeepInv(g, w, pid, p', w');
    }
  }

  lemma CheckingKeepsInv(g: Graph, w: World, pid: nat)
    requires Inv(g, w) && pid in w.procs && w.procs[pid].work.Checking?
    ensures Inv(g, TickChecking(g, w, pid, w.procs[pid]))
  {
    hide Inv, LogOk, TerminalsOk, NoParking, Justified, FailurePropagates;
    var p := w.procs[pid];
    InvProc(g, w, pid);
    if w.run.Ended? {
      QuietMove(g, w, pid, p.(work := Done));
    } else if Advances(g, p.node, p.outcome.status) {
      QuietMove(g, w, pid, p.(work := Dispatching(map[], [Frame(p.node, 0)], false)));
    } else {
      assert PropagatingFailure(g, w.records, p.node);
      QuietMove(g, w, pid, p.(work := Done, check := Conclude(g, p.node, p.outcome)));
    }
  }

  // ----- dispatching

  lemma BumpKeepsRoot(stack: seq<Frame>)
    requires stack != []
    ensures |Bump(stack)| == |stack| && Bump(stack)[0].node == stack[0].node
    ensures Bump(stack)[0].k == if |stack| == 1 then stack[0].k + 1 else stack[0].k
  {
  }

  /** One more dependent of the root has been dealt with, or the root loop has not moved. */
  lemma RootAdvances(g: Graph, w: World, p: Proc)
    requires p.work.Dispatching? && DispatchOk(g, w, p)
    requires var top := p.work.stack[|p.work.stack| - 1]; var deps := Outgoing(g.edges, top.node);
             top.k < |deps| && (|p.work.stack| == 1 ==> Examined(g, w, p.epoch, deps[top.k]))
    ensures AllExamined(g, w, p.epoch, p.node, Bump(p.work.stack)[0].k)
  {
    BumpKeepsRoot(p.work.stack);
  }

  lemma DispatchReadKeeps(g: Graph, w: World, p: Proc, x: string)
    requires p.work.Dispatching? && DispatchOk(g, w, p) && NoParking(w.records) && LogOk(w)
    ensures DispatchOk(g, w, p.(work := p.work.(memo := p.work.memo[x := Lookup(w.records, x)])))
  {
    MemoRead(w.records, p.work.memo, x);
  }

  /** Waiting is justified: the unfinished predecessor cannot have been finished before this call wrote. */
  lemma WaitIsExamined(g: Graph, w: World, p: Proc, d: string)
    requires p.work.Dispatching? && DispatchOk(g, w, p) && NextProbe(p.work.memo, Incoming(g.edges, d)).Waits?
    ensures Examined(g, w, p.epoch, d)
  {
    var e :| e in Incoming(g.edges, d) && e.from in p.work.memo && Unfinished(p.work.memo[e.from]);
    assert e in g.edges && e.to == d && e.from !in w.log[..p.epoch];
  }

  lemma PopKeepsInv(g: Graph, w: World, pid: nat)
    requires Inv(g, w) && pid in w.procs && w.procs[pid].work.Dispatching? && w.procs[pid].check.Idle?
    requires w.procs[pid].work.stack != []
    requires var top := w.procs[pid].work.stack[|w.procs[pid].work.stack| - 1];
             top.k >= |Outgoing(g.edges, top.node)|
    ensures Inv(g, TickPop(g, w, pid, w.procs[pid]))
  {
    hide Inv, LogOk, TerminalsOk, NoParking, Justified, FailurePropagates, Examined;
    var p := w.procs[pid];
    InvProc(g, w, pid);
    var p' := TickPop(g, w, pid, p).procs[pid];
    PopProc(g, w, pid, p);
    QuietMove(g, w, pid, p');
  }

  lemma PopProc(g: Graph, w: World, pid: nat, p: Proc)
    requires p.work.Dispatching? && p.check.Idle? && DispatchOk(g, w, p)
    requires var top := p.work.stack[|p.work.stack| - 1]; top.k >= |Outgoing(g.edges, top.node)|
    ensures var p' := TickPop(g, w, pid, p).procs[pid]; ProcOk(g, w, p') && !Owes(p')
  {
  }

  /** Recording a dependent: the store after it, and the call that did it. */
  lemma AddLater(g: Graph, w: World, d: string, rec: Record, w': World)
    requires Inv(g, w) && d !in w.records && d in Ids(g.nodes)
    requires (rec == QUEUED && DecideNode(g, w.records, d).DepEnqueue?) || (rec == SKIPPED && DecideNode(g, w.records, d).DepSkipped?)
    requires w'.records == w.records[d := rec] && w'.run == w.run
    requires w'.log == if rec == SKIPPED then w.log + [d] else w.log
    ensures Later(w, w') && Justified(g, w'.records) && LogOk(w') && RunOk(g, w')
  {
    JustifiedAdd(g, w.records, d, rec);
    AddLog(w, d, rec, w');
    hide LogOk, Justified, Decide;
    if w.run.Ended? { EndLater(g, w.records, w'.records, w.run.status, w.run.cause); }
  }

  lemma AddLog(w: World, d: string, rec: Record, w': World)
    requires LogOk(w) && d !in w.records && (rec == QUEUED || rec == SKIPPED)
    requires w'.records == w.records[d := rec] && w'.run == w.run
    requires w'.log == if rec == SKIPPED then w.log + [d] else w.log
    ensures LogOk(w')
  {
    assert d !in w.log;
  }

  /** The call after a decided dependent, in the new store. */
  lemma DecidedProc(g: Graph, w: World, pid: nat, p: Proc, d: string, decision: Decision)
    requires p.work.Dispatching? && p.check.Idle? && DispatchOk(g, w, p)
    requires var top := p.work.stack[|p.work.stack| - 1]; var deps := Outgoing(g.edges, top.node);
             top.k < |deps| && deps[top.k] == d
    requires Later(w, TickDecided(g, w, pid, p, d, decision))
    ensures var w' := TickDecided(g, w, pid, p, d, decision);
            ProcOk(g, w', w'.procs[pid]) && !Owes(w'.procs[pid])
  {
    var w' := TickDecided(g, w, pid, p, d, decision);
    var p' := w'.procs[pid];
    ProcLater(g, w, w', p);
    assert d in w'.records && Examined(g, w', p.epoch, d);
    RootAdvances(g, w', p);
    BumpKeepsRoot(p.work.stack);
  }

  lemma DecidedKeepsInv(g: Graph, w: World, pid: nat, d: string)
    requires Inv(g, w) && pid in w.procs && w.procs[pid].work.Dispatching? && w.procs[pid].check.Idle?
    requires w.procs[pid].work.stack != [] && d in Ids(g.nodes)
    requires var p := w.procs[pid]; var top := p.work.stack[|p.work.stack| - 1]; var deps := Outgoing(g.edges, top.node);
             top.k < |deps| && deps[top.k] == d && NextProbe(p.work.memo, Incoming(g.edges, d)).Settled?
    ensures Inv(g, TickDecided(g, w, pid, w.procs[pid], d, Decide(View(w.procs[pid].work.memo), Incoming(g.edges, d))))
  {
    hide Inv, LogOk, TerminalsOk, NoParking, Justified, RunOk, Later, Outgoing, Incoming, Open, AllExamined, MemoFresh;
    InvProc(g, w, pid);
    var p, inc := w.procs[pid], Incoming(g.edges, d);
    SettledNeverWaits(p.work.memo, inc);
    SettledDecides(w.records, p.work.memo, inc);
    var decision := Decide(View(p.work.memo), inc);
    var w' := TickDecided(g, w, pid, p, d, decision);
    var p' := w'.procs[pid];
    if d in w.records {
      StillLater(g, w, w');
    } else {
      AddLater(g, w, d, w'.records[d], w');
    }
    DecidedProc(g, w, pid, p, d, decision);
    SameDebts(w, pid, p', w');
    MovesKeepInv(g, w, pid, p', w');
  }

  lemma SettledNeverWaits(memo: Memo, inc: seq<Edge>)
    requires NextProbe(memo, inc).Settled?
    ensures !Decide(View(memo), inc).DepWaiting?
  {
  }

  lemma DispatchingKeepsInv(g: Graph, w: World, pid: nat)
    requires Inv(g, w) && Wired(g) && pid in w.procs && w.procs[pid].work.Dispatching? && w.procs[pid].check.Idle?
    ensures Inv(g, TickDispatching(g, w, pid, w.procs[pid]))
  {
    hide Inv, LogOk, TerminalsOk, NoParking, Justified, Incoming, Open, MemoTrue, MemoFresh, Decide;
    InvProc(g, w, pid);
    var p := w.procs[pid];
    var stack := p.work.stack;
    var top := stack[|stack| - 1];
    var deps := Outgoing(g.edges, top.node);
    if top.k >= |deps| {
      PopKeepsInv(g, w, pid);
    } else {
      var d := deps[top.k];
      match NextProbe(p.work.memo, Incoming(g.edges, d)) {
        case Read(x) =>
          DispatchReadKeeps(g, w, p, x);
          QuietMove(g, w, pid, p.(work := p.work.(memo := p.work.memo[x := Lookup(w.records, x)])));
        case Waits =>
          WaitIsExamined(g, w, p, d);
          RootAdvances(g, w, p);
          BumpKeepsRoot(stack);
          QuietMove(g, w, pid, p.(work := p.work.(stack := Bump(stack))));
        case Settled =>
          assert d in Ids(g.nodes) by { assert d in deps; }
          DecidedKeepsInv(g, w, pid, d);
      }
    }
  }

  // ----- cancelling and returning

  lemma FlippingKeepsInv(g: Graph, w: World, pid: nat)
    requires Inv(g, w) && pid in w.procs && w.procs[pid].work.Flipping?
    ensures Inv(g, TickFlipping(w, pid, w.procs[pid]))
  {
    hide Inv, LogOk, TerminalsOk, NoParking, Justified, RunOk, Later;
    InvProc(g, w, pid);
    var p, w' := w.procs[pid], TickFlipping(w, pid, w.procs[pid]);
    if w.run.Ended? {
      QuietMove(g, w, pid, p.(work := Done));
    } else {
      var p' := w'.procs[pid];
      NewDebt(w, pid, p', w');
      EndRunLater(g, w, Cancelled, OnCancel, w');
      MovesKeepInv(g, w, pid, p', w');
    }
  }

  lemma SweepingKeepsInv(g: Graph, w: World, pid: nat)
    requires Inv(g, w) && pid in w.procs && w.procs[pid].work.Sweeping?
    ensures Inv(g, TickSweeping(g, w, pid, w.procs[pid]))
  {
    hide Inv, LogOk, TerminalsOk, NoParking, Justified, RunOk, Later;
    InvProc(g, w, pid);
    var p, w' := w.procs[pid], TickSweeping(g, w, pid, w.procs[pid]);
    var p' := w'.procs[pid];
    if p.work.k >= |g.nodes| {
      QuietMove(g, w, pid, p');
    } else {
      var n := g.nodes[p.work.k].id;
      if Interleaving.Pending(w.records, n) {
        UpdateLater(g, w, n, CANCELLED, w');
      } else {
        StillLater(g, w, w');
      }
      assert ProcOk(g, w', p');
      SameDebts(w, pid, p', w');
      MovesKeepInv(g, w, pid, p', w');
    }
  }

  lemma ReturnKeepsInv(g: Graph, w: World, pid: nat)
    requires Inv(g, w) && pid in w.procs && w.procs[pid].work.Done? && w.procs[pid].check.Idle?
    ensures Inv(g, Return(w, pid, w.procs[pid]))
  {
    var p, w' := w.procs[pid], Return(w, pid, w.procs[pid]);
    assert ProcOk(g, w, p);
    assert Later(w, w');
    forall i | i in w'.procs ensures ProcOk(g, w', w'.procs[i]) {
      ProcLater(g, w, w', w.procs[i]);
    }
    ReturnedGrows(g, w, w', p);
    FewerDebts(w, pid, w');
  }

  lemma FewerDebts(w: World, pid: nat, w': World)
    requires TerminalsOk(w) && pid in w.procs && !Owes(w.procs[pid])
    requires w'.procs == w.procs - {pid} && w'.run == w.run && w'.terminals == w.terminals
    ensures TerminalsOk(w')
  {
    if w.run.Ended? && w.terminals == [] {
      var i :| i in w.procs && Owes(w.procs[i]);
      assert i in w'.procs;
    }
  }

  lemma ReturnedGrows(g: Graph, w: World, w': World, p: Proc)
    requires ReturnedOk(g, w) && LogOk(w) && WorkOk(g, w, p) && p.work.Done? && p.check.Idle?
    requires w'.records == w.records && w'.log == w.log && w'.run == w.run
    requires w'.returned == if p.epoch > 0 then w.returned + {p.node} else w.returned
    ensures ReturnedOk(g, w')
  {
    if w.run.Alive? {
      forall i | 0 <= i < |w'.log| && w'.log[i] in w'.returned
        ensures AllExamined(g, w', i + 1, w'.log[i], |Outgoing(g.edges, w'.log[i])|)
      {
        if w.log[i] in w.returned {
          assert AllExamined(g, w, i + 1, w.log[i], |Outgoing(g.edges, w.log[i])|);
        } else {
          assert w.log[p.epoch - 1] == p.node && i == p.epoch - 1;
        }
      }
    }
  }

  // ----- all steps

  lemma WorkKeepsInv(g: Graph, w: World, pid: nat)
    requires Inv(g, w) && Wired(g) && pid in w.procs && w.procs[pid].check.Idle?
    ensures Inv(g, TickWork(g, w, pid, w.procs[pid]))
  {
    hide Inv;
    match w.procs[pid].work
    case Planning(_, _, _, _) =>
      if w.procs[pid].work.k >= |PlanDeps(g, w.procs[pid])| { CommitKeepsInv(g, w, pid); } else { PlanningKeepsInv(g, w, pid); }
    case Writing => WritingKeepsInv(g, w, pid);
    case SkipWriting => WritingKeepsInv(g, w, pid);
    case Checking => CheckingKeepsInv(g, w, pid);
    case Dispatching(_, _, _) => DispatchingKeepsInv(g, w, pid);
    case Flipping => FlippingKeepsInv(g, w, pid);
    case Sweeping(_) => SweepingKeepsInv(g, w, pid);
    case Done => ReturnKeepsInv(g, w, pid);
  }

  /** A new call enters. */
  lemma SpawnKeepsInv(g: Graph, w: World, pid: nat, p: Proc)
    requires Inv(g, w) && pid !in w.procs && ProcOk(g, w, p) && !Owes(p)
    ensures Inv(g, WithProc(w, pid, p))
  {
    var w' := WithProc(w, pid, p);
    StillLater(g, w, w');
    ProcLater(g, w, w', p);
    SameDebts(w, pid, p, w');
    hide Justified, LogOk, RunOk, Later, ProcOk, TerminalsOk;
    MovesKeepInv(g, w, pid, p, w');
  }

  /** A worker claims, requeues or refuses a node. */
  lemma UpdateKeepsInv(g: Graph, w: World, n: string, rec: Record)
    requires Inv(g, w) && Interleaving.Pending(w.records, n) && !rec.status.Awaiting?
    requires IsTerminal(rec.status) ==> w.run.Ended?
    ensures Inv(g, w.(records := w.records[n := rec]))
  {
    var w' := w.(records := w.records[n := rec]);
    UpdateLater(g, w, n, rec, w');
    ReturnedLater(g, w, w');
    forall i | i in w'.procs ensures ProcOk(g, w', w'.procs[i]) {
      ProcLater(g, w, w', w.procs[i]);
    }
  }

  lemma EventKeepsInv(g: Graph, w: World, ev: Event)
    requires Inv(g, w) && Wired(g) && Enabled(g, w, ev)
    ensures Inv(g, Apply(g, w, ev))
  {
    hide Inv;
    match ev
    case Plan(pid, n, o) => SpawnKeepsInv(g, w, pid, Proc(n, o, 0, Planning(map[n := Some(o)], 0, [], false), Idle));
    case Advance(pid, n, o) => SpawnKeepsInv(g, w, pid, Proc(n, o, 0, Writing, Idle));
    case SwitchOff(pid, n) => SpawnKeepsInv(g, w, pid, Proc(n, SKIPPED, 0, SkipWriting, Idle));
    case Cancel(pid) => SpawnKeepsInv(g, w, pid, Proc("", SKIPPED, 0, Flipping, Idle));
    case Reap(pid) => SpawnKeepsInv(g, w, pid, Proc("", SKIPPED, 0, Done, Listing));
    case Abandon(pid) => SpawnKeepsInv(g, w, pid, Proc("", SKIPPED, 0, Done, Finalizing(Failed, OnAbandon)));
    case Claim(n) => UpdateKeepsInv(g, w, n, Record(Running, None));
    case Requeue(n) => UpdateKeepsInv(g, w, n, QUEUED);
    case Refuse(n) => UpdateKeepsInv(g, w, n, CANCELLED);
    case Tick(pid) =>
      if w.procs[pid].check.Idle? { WorkKeepsInv(g, w, pid); } else { CheckKeepsInv(g, w, pid); }
  }

  lemma InitInv(g: Graph, w: World)
    requires Init(g, w)
    ensures Inv(g, w)
  {
  }

  lemma NextKeepsInv(g: Graph, w: World, w': World)
    requires Inv(g, w) && Wired(g) && Next(g, w, w')
    ensures Inv(g, w')
  {
    var ev :| Enabled(g, w, ev) && w' == Apply(g, w, ev);
    EventKeepsInv(g, w, ev);
  }

  /** Every reachable world satisfies the invariant, whatever the interleaving. */
  lemma {:induction false} ExecutionKeepsInv(g: Graph, tr: seq<World>, i: nat)
    requires Wired(g) && IsExecution(g, tr) && i < |tr|
    ensures Inv(g, tr[i])
  {
    if i == 0 {
      InitInv(g, tr[0]);
    } else {
      ExecutionKeepsInv(g, tr, i - 1);
      NextKeepsInv(g, tr[i - 1], tr[i]);
    }
  }
}
