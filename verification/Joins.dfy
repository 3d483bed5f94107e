/**
  When an interleaved run records a join whose predecessors are all finished: exactly when some call
  in flight still has the join ahead of it and has not read one of the predecessors as unfinished.
 */
module Joins {
  import opened Graphs
  import opened Decisions
  import opened RunStores
  import opened Interleaving
  import opened InterleavingInvariant
  import opened InterleavedRuns
  import opened Cancelling

  /** `x` has an edge to `j`. */
  ghost predicate Precedes(g: Graph, x: string, j: string) {
    exists e :: e in g.edges && e.from == x && e.to == j
  }

  /** All predecessors of `j` are finished, and `j` has no record. */
  ghost predicate Overdue(g: Graph, w: World, j: string) {
    j !in w.records && forall x :: Precedes(g, x, j) ==> x in w.records && IsTerminal(w.records[x].status)
  }

  /** The memo holds a predecessor of `j` as unfinished. */
  ghost predicate Stale(g: Graph, memo: Memo, j: string) {
    exists x :: x in memo && Precedes(g, x, j) && Unfinished(memo[x])
  }

  /** The loop of this frame has yet to look at `j`. */
  ghost predicate Ahead(g: Graph, f: Frame, j: string) {
    var deps := Outgoing(g.edges, f.node);
    exists m :: f.k <= m < |deps| && deps[m] == j
  }

  ghost predicate SomeAhead(g: Graph, stack: seq<Frame>, j: string) {
    exists f :: 0 <= f < |stack| && Ahead(g, stack[f], j)
  }

  /** This call will look at `j` with fresh eyes. */
  ghost predicate Wakes(g: Graph, p: Proc, j: string) {
    match p.work
    case Checking => Precedes(g, p.node, j) && Advances(g, p.node, p.outcome.status)
    case Dispatching(memo, stack, _) => !Stale(g, memo, j) && SomeAhead(g, stack, j)
    case _ => false
  }

  lemma OutgoingPrecedes(g: Graph, x: string, j: string)
    ensures j in Outgoing(g.edges, x) <==> Precedes(g, x, j)
  {
  }

  lemma RootAhead(g: Graph, x: string, j: string)
    ensures Ahead(g, Frame(x, 0), j) <==> Precedes(g, x, j)
  {
    OutgoingPrecedes(g, x, j);
    var deps := Outgoing(g.edges, x);
    if j in deps { var m :| 0 <= m < |deps| && deps[m] == j; }
  }

  /** Passing over another dependent leaves `j` ahead. */
  lemma BumpAhead(g: Graph, stack: seq<Frame>, j: string)
    requires stack != []
    requires var top := stack[|stack| - 1]; top.k < |Outgoing(g.edges, top.node)|
    ensures SomeAhead(g, Bump(stack), j) ==> SomeAhead(g, stack, j)
    ensures Outgoing(g.edges, stack[|stack| - 1].node)[stack[|stack| - 1].k] != j ==>
              (SomeAhead(g, stack, j) ==> SomeAhead(g, Bump(stack), j))
  {
    hide Outgoing;
    var last := |stack| - 1;
    var top, deps := stack[last], Outgoing(g.edges, stack[last].node);
    if f :| 0 <= f < |Bump(stack)| && Ahead(g, Bump(stack)[f], j) {
      if f == last {
        var m :| Bump(stack)[f].k <= m < |deps| && deps[m] == j;
      }
      assert Ahead(g, stack[f], j);
    }
    if deps[top.k] != j && SomeAhead(g, stack, j) {
      var f :| 0 <= f < |stack| && Ahead(g, stack[f], j);
      if f == last {
        var m :| stack[f].k <= m < |deps| && deps[m] == j;
        assert m != top.k;
      }
      assert Ahead(g, Bump(stack)[f], j);
    }
  }

  lemma PushAhead(g: Graph, stack: seq<Frame>, d: string, j: string)
    requires !Precedes(g, d, j)
    ensures SomeAhead(g, stack + [Frame(d, 0)], j) <==> SomeAhead(g, stack, j)
  {
    RootAhead(g, d, j);
    hide Ahead;
    var more := stack + [Frame(d, 0)];
    if f :| 0 <= f < |stack| && Ahead(g, stack[f], j) { assert Ahead(g, more[f], j); }
    if f :| 0 <= f < |more| && Ahead(g, more[f], j) { assert f < |stack| && Ahead(g, stack[f], j); }
  }

  lemma PopAhead(g: Graph, stack: seq<Frame>, j: string)
    requires stack != []
    requires var top := stack[|stack| - 1]; top.k >= |Outgoing(g.edges, top.node)|
    ensures SomeAhead(g, stack[..|stack| - 1], j) <==> SomeAhead(g, stack, j)
  {
    var less := stack[..|stack| - 1];
    if f :| 0 <= f < |stack| && Ahead(g, stack[f], j) { assert f < |less| && Ahead(g, less[f], j); }
  }

  /** What a look at `j` finds. */
  lemma StaleNeverSettles(g: Graph, memo: Memo, r: Records, j: string)
    requires Stale(g, memo, j) && MemoTrue(r, memo)
    ensures !NextProbe(memo, Incoming(g.edges, j)).Settled?
  {
    var x :| x in memo && Precedes(g, x, j) && Unfinished(memo[x]);
    var e :| e in g.edges && e.from == x && e.to == j;
    assert e in Incoming(g.edges, j);
  }

  lemma WaitingIsStale(g: Graph, memo: Memo, j: string)
    requires NextProbe(memo, Incoming(g.edges, j)).Waits?
    ensures Stale(g, memo, j)
  {
    var e :| e in Incoming(g.edges, j) && e.from in memo && Unfinished(memo[e.from]);
    assert Precedes(g, e.from, j);
  }

  /** Reading a record keeps a memo as fresh or as stale as it is. */
  lemma ReadStale(g: Graph, w: World, memo: Memo, x: string, j: string)
    requires Overdue(g, w, j) && x !in memo
    ensures Stale(g, memo[x := Lookup(w.records, x)], j) <==> Stale(g, memo, j)
  {
    var memo' := memo[x := Lookup(w.records, x)];
    if Stale(g, memo, j) {
      var y :| y in memo && Precedes(g, y, j) && Unfinished(memo[y]);
      assert y in memo' && memo'[y] == memo[y];
    }
    if Stale(g, memo', j) {
      var y :| y in memo' && Precedes(g, y, j) && Unfinished(memo'[y]);
      assert y != x;
    }
  }

  lemma PutStale(g: Graph, memo: Memo, d: string, v: Option<Record>, j: string)
    requires !Precedes(g, d, j)
    ensures Stale(g, memo[d := v], j) <==> Stale(g, memo, j)
  {
    if Stale(g, memo, j) {
      var y :| y in memo && Precedes(g, y, j) && Unfinished(memo[y]);
      assert y in memo[d := v] && memo[d := v][y] == memo[y];
    }
  }

  // ----- one step

  /** In an open run call `pid` wakes `j` exactly as before, unless `j` has its record now. */
  ghost predicate SameWake(g: Graph, w: World, w': World, pid: nat, j: string)
    requires pid in w.procs
  {
    if Wakes(g, w.procs[pid], j) then w.run.Alive? ==> j in w'.records || (pid in w'.procs && Wakes(g, w'.procs[pid], j))
    else j !in w'.records && (pid in w'.procs ==> !Wakes(g, w'.procs[pid], j))
  }

  lemma DecidedSameWake(g: Graph, w: World, pid: nat, j: string, d: string, decision: Decision)
    requires Overdue(g, w, j) && pid in w.procs && w.procs[pid].work.Dispatching? && MemoTrue(w.records, w.procs[pid].work.memo)
    requires var stack := w.procs[pid].work.stack; stack != [] && var top := stack[|stack| - 1];
             top.k < |Outgoing(g.edges, top.node)| && Outgoing(g.edges, top.node)[top.k] == d
    requires NextProbe(w.procs[pid].work.memo, Incoming(g.edges, d)).Settled?
    ensures SameWake(g, w, TickDecided(g, w, pid, w.procs[pid], d, decision), pid, j)
  {
    hide Stale, SomeAhead, Outgoing, Incoming, Precedes, Bump, NextProbe;
    var p, memo, stack := w.procs[pid], w.procs[pid].work.memo, w.procs[pid].work.stack;
    if d == j {
      assert !Stale(g, memo, j) by { if Stale(g, memo, j) { StaleNeverSettles(g, memo, w.records, j); } }
      assert SomeAhead(g, stack, j) by { TopAhead(g, stack, j); }
    } else {
      BumpAhead(g, stack, j);
      if d !in w.records {
        assert !Precedes(g, d, j);
        PutStale(g, memo, d, Some(SKIPPED), j);
        PushAhead(g, Bump(stack), d, j);
      }
    }
  }

  lemma TopAhead(g: Graph, stack: seq<Frame>, j: string)
    requires stack != []
    requires var top := stack[|stack| - 1]; top.k < |Outgoing(g.edges, top.node)| && Outgoing(g.edges, top.node)[top.k] == j
    ensures SomeAhead(g, stack, j)
  {
    assert Ahead(g, stack[|stack| - 1], j);
  }

  lemma DispatchSameWake(g: Graph, w: World, pid: nat, j: string)
    requires Overdue(g, w, j) && pid in w.procs && w.procs[pid].work.Dispatching? && MemoTrue(w.records, w.procs[pid].work.memo)
    requires w.procs[pid].work.stack != []
    ensures SameWake(g, w, TickDispatching(g, w, pid, w.procs[pid]), pid, j)
  {
    hide Stale, SomeAhead, Outgoing, Incoming, Precedes, Bump, NextProbe, TickDecided, Decide, Open;
    var p, memo, stack := w.procs[pid], w.procs[pid].work.memo, w.procs[pid].work.stack;
    var top := stack[|stack| - 1];
    var deps := Outgoing(g.edges, top.node);
    if top.k >= |deps| {
      PopAhead(g, stack, j);
      NoneAhead(g, j);
    } else {
      var d := deps[top.k];
      var inc := Incoming(g.edges, d);
      match NextProbe(memo, inc)
      case Read(x) =>
        ReadIsNew(memo, inc);
        ReadStale(g, w, memo, x, j);
      case Waits =>
        if d == j { WaitingIsStale(g, memo, j); }
        BumpAhead(g, stack, j);
      case Settled => DecidedSameWake(g, w, pid, j, d, Decide(View(memo), inc));
    }
  }

  lemma NoneAhead(g: Graph, j: string)
    ensures !SomeAhead(g, [], j)
  {
  }

  /** A pending node is not a predecessor of an overdue one. */
  lemma PendingIsNoPredecessor(g: Graph, w: World, n: string, j: string)
    requires Overdue(g, w, j) && Interleaving.Pending(w.records, n)
    ensures !Precedes(g, n, j) && n != j && !SomeAhead(g, [Frame(n, 0)], j)
  {
    RootAhead(g, n, j);
  }

  lemma CommitSameWake(g: Graph, w: World, pid: nat, j: string)
    requires Overdue(g, w, j) && pid in w.procs && w.procs[pid].work.Planning? && PlanOk(g, w, w.procs[pid])
    ensures SameWake(g, w, Commit(g, w, pid, w.procs[pid]), pid, j)
  {
    hide Precedes, SomeAhead, Stale, Conclude, FailurePropagates;
    var p := w.procs[pid];
    if Interleaving.Pending(w.records, p.node) {
      PendingIsNoPredecessor(g, w, p.node, j);
      OutgoingPrecedes(g, p.node, j);
      assert j !in p.work.enqueue;
    }
  }

  lemma PlanningSameWake(g: Graph, w: World, pid: nat, j: string)
    requires Overdue(g, w, j) && pid in w.procs && w.procs[pid].work.Planning? && PlanOk(g, w, w.procs[pid])
    ensures SameWake(g, w, TickPlanning(g, w, pid, w.procs[pid]), pid, j)
  {
    CommitSameWake(g, w, pid, j);
    hide Commit, Precedes, PlanOk, Decide, View, NextProbe;
  }

  lemma WritingSameWake(g: Graph, w: World, pid: nat, j: string)
    requires Overdue(g, w, j) && pid in w.procs && (w.procs[pid].work.Writing? || w.procs[pid].work.SkipWriting?)
    ensures SameWake(g, w, TickWriting(g, w, pid, w.procs[pid]), pid, j)
  {
    hide Precedes, SomeAhead, Stale;
    var p := w.procs[pid];
    if Interleaving.Pending(w.records, p.node) { PendingIsNoPredecessor(g, w, p.node, j); }
  }

  lemma CheckingSameWake(g: Graph, w: World, pid: nat, j: string)
    requires Overdue(g, w, j) && pid in w.procs && w.procs[pid].work.Checking?
    ensures SameWake(g, w, TickChecking(g, w, pid, w.procs[pid]), pid, j)
  {
    hide Precedes, Ahead, FailurePropagates;
    var p := w.procs[pid];
    RootAhead(g, p.node, j);
    assert !Stale(g, map[], j);
    assert SomeAhead(g, [Frame(p.node, 0)], j) <==> Precedes(g, p.node, j) by {
      assert [Frame(p.node, 0)][0] == Frame(p.node, 0);
    }
  }

  lemma TickSameWake(g: Graph, w: World, pid: nat, j: string)
    requires Inv(g, w) && Overdue(g, w, j) && pid in w.procs
    ensures SameWake(g, w, Apply(g, w, Tick(pid)), pid, j)
  {
    hide Inv, Precedes, TickPlanning, TickWriting, TickChecking, TickDispatching, SomeAhead, Stale;
    InvProc(g, w, pid);
    var p := w.procs[pid];
    if p.check.Idle? {
      match p.work
      case Planning(_, _, _, _) => PlanningSameWake(g, w, pid, j);
      case Writing => WritingSameWake(g, w, pid, j);
      case SkipWriting => WritingSameWake(g, w, pid, j);
      case Checking => CheckingSameWake(g, w, pid, j);
      case Dispatching(_, _, _) => DispatchSameWake(g, w, pid, j);
      case _ =>
    }
  }

  /** Calls that start, and workers that claim, requeue or refuse, neither wake nor record. */
  lemma OtherEventSleeps(g: Graph, w: World, ev: Event, j: string)
    requires Overdue(g, w, j) && Enabled(g, w, ev) && !ev.Tick?
    ensures j !in Apply(g, w, ev).records
    ensures forall i :: i in Apply(g, w, ev).procs ==>
              if i in w.procs then Apply(g, w, ev).procs[i] == w.procs[i] else !Wakes(g, Apply(g, w, ev).procs[i], j)
  {
    hide Precedes;
  }

  lemma OverdueNext(g: Graph, w: World, w': World, j: string)
    requires Overdue(g, w, j) && Onward(w, w') && j !in w'.records
    ensures Overdue(g, w', j)
  {
    hide Precedes;
  }

  /** If nothing wakes `j` no step records it, and nothing wakes it afterwards. */
  lemma AsleepNext(g: Graph, w: World, w': World, j: string)
    requires Inv(g, w) && Next(g, w, w') && Overdue(g, w, j) && forall i :: i in w.procs ==> !Wakes(g, w.procs[i], j)
    ensures Overdue(g, w', j) && forall i :: i in w'.procs ==> !Wakes(g, w'.procs[i], j)
  {
    OnwardNext(g, w, w, w');
    var ev :| Enabled(g, w, ev) && w' == Apply(g, w, ev);
    hide Inv, Wakes, Apply, Onward, Overdue;
    if ev.Tick? {
      TickSameWake(g, w, ev.pid, j);
      forall i | i in w'.procs ensures !Wakes(g, w'.procs[i], j) {
        if i != ev.pid { TickStands(g, w, ev.pid, i); }
      }
    } else {
      OtherEventSleeps(g, w, ev, j);
    }
    OverdueNext(g, w, w', j);
  }

  lemma TickStands(g: Graph, w: World, pid: nat, i: nat)
    requires pid in w.procs && i != pid
    ensures var w' := Apply(g, w, Tick(pid)); (i in w'.procs <==> i in w.procs) && (i in w.procs ==> w'.procs[i] == w.procs[i])
  {
    hide NextProbe, Decide, View, Lookup, RunVerdict, EnqueueAll, Advances, Conclude, Incoming, Outgoing, Bump;
  }

  /** A call that wakes `j` in an open run goes on doing so until `j` has its record. */
  lemma AwakeNext(g: Graph, w: World, w': World, pid: nat, j: string)
    requires Inv(g, w) && Next(g, w, w') && w.run.Alive? && Overdue(g, w, j) && pid in w.procs && Wakes(g, w.procs[pid], j)
    ensures j in w'.records || (Overdue(g, w', j) && pid in w'.procs && Wakes(g, w'.procs[pid], j))
  {
    OnwardNext(g, w, w, w');
    var ev :| Enabled(g, w, ev) && w' == Apply(g, w, ev);
    hide Inv, Wakes, Apply, Onward, Overdue;
    if ev == Tick(pid) { TickSameWake(g, w, pid, j); } else { OthersStand(g, w, ev, pid); }
    if j !in w'.records { OverdueNext(g, w, w', j); }
  }

  // ----- whole executions

  lemma {:induction false} WokenUntilRecorded(g: Graph, tr: seq<World>, i: nat, n: nat, pid: nat, j: string)
    requires Wired(g) && IsExecution(g, tr) && i <= n < |tr| && tr[n].run.Alive?
    requires Overdue(g, tr[i], j) && pid in tr[i].procs && Wakes(g, tr[i].procs[pid], j)
    ensures j in tr[n].records || (Overdue(g, tr[n], j) && pid in tr[n].procs && Wakes(g, tr[n].procs[pid], j))
  {
    hide Next, Wakes, Overdue, Inv;
    if i < n {
      TraceOnward(g, tr, n - 1, n);
      WokenUntilRecorded(g, tr, i, n - 1, pid, j);
      ExecutionKeepsInv(g, tr, n - 1);
      if j !in tr[n - 1].records { AwakeNext(g, tr[n - 1], tr[n], pid, j); }
    }
  }

  lemma {:induction false} AsleepForGood(g: Graph, tr: seq<World>, i: nat, n: nat, j: string)
    requires Wired(g) && IsExecution(g, tr) && i <= n < |tr|
    requires Overdue(g, tr[i], j) && forall p :: p in tr[i].procs ==> !Wakes(g, tr[i].procs[p], j)
    ensures Overdue(g, tr[n], j) && forall p :: p in tr[n].procs ==> !Wakes(g, tr[n].procs[p], j)
  {
    hide Next, Wakes, Overdue, Inv;
    if i < n {
      AsleepForGood(g, tr, i, n - 1, j);
      ExecutionKeepsInv(g, tr, n - 1);
      AsleepNext(g, tr[n - 1], tr[n], j);
    }
  }

  /**
    The exact condition at a join. When all predecessors of `j` are finished and `j` has no record, then
    in any continuation that lets every call return in an open run, `j` is recorded if and only if some
    call in flight now has `j` ahead of it and holds no predecessor of `j` as unfinished. If none does,
    `j` is never recorded, whatever happens.
   */
  lemma JoinRecordedExactlyIfWoken(g: Graph, tr: seq<World>, i: nat, n: nat, j: string)
    requires Wired(g) && IsExecution(g, tr) && i <= n < |tr| && Overdue(g, tr[i], j)
    ensures (forall p :: p in tr[i].procs ==> !Wakes(g, tr[i].procs[p], j)) ==> j !in tr[n].records
    ensures tr[n].run.Alive? && tr[n].procs == map[] ==>
              (j in tr[n].records <==> exists p :: p in tr[i].procs && Wakes(g, tr[i].procs[p], j))
  {
    hide Wakes, IsExecution;
    if forall p :: p in tr[i].procs ==> !Wakes(g, tr[i].procs[p], j) {
      AsleepForGood(g, tr, i, n, j);
    } else if tr[n].run.Alive? {
      var p :| p in tr[i].procs && Wakes(g, tr[i].procs[p], j);
      WokenUntilRecorded(g, tr, i, n, p, j);
    }
  }

  // ----- who wakes a join

  /** `d` is the one predecessor of `j` that is not finished yet, and `j` has no record. */
  ghost predicate LastOpen(g: Graph, w: World, d: string, j: string) {
    && j !in w.records && Precedes(g, d, j) && d != j && !(d in w.records && IsTerminal(w.records[d].status))
    && forall x :: Precedes(g, x, j) && x != d ==> x in w.records && IsTerminal(w.records[x].status)
  }

  /** The call is about to skip `d` in a cascade. */
  ghost predicate AboutToSkip(g: Graph, r: Records, p: Proc, d: string) {
    && p.check.Idle? && p.work.Dispatching? && p.work.stack != []
    && var top := p.work.stack[|p.work.stack| - 1];
       var deps := Outgoing(g.edges, top.node);
       && top.k < |deps| && deps[top.k] == d && d !in r
       && NextProbe(p.work.memo, Incoming(g.edges, d)).Settled?
       && Decide(View(p.work.memo), Incoming(g.edges, d)).DepSkipped?
  }

  /** The memo holds a predecessor of `j` other than `d` as unfinished. */
  ghost predicate StaleBut(g: Graph, memo: Memo, d: string, j: string) {
    exists x :: x in memo && x != d && Precedes(g, x, j) && Unfinished(memo[x])
  }

  lemma PutLast(g: Graph, memo: Memo, d: string, j: string)
    ensures Stale(g, memo[d := Some(SKIPPED)], j) <==> StaleBut(g, memo, d, j)
  {
    hide Precedes;
    var memo' := memo[d := Some(SKIPPED)];
    if x :| x in memo && x != d && Precedes(g, x, j) && Unfinished(memo[x]) { assert x in memo' && memo'[x] == memo[x]; }
    if x :| x in memo' && Precedes(g, x, j) && Unfinished(memo'[x]) { assert x != d && x in memo; }
  }

  /** A cascade that finishes a join's last predecessor wakes the join unless it took another one for unfinished. */
  lemma CascadeWakesUnlessStale(g: Graph, w: World, pid: nat, d: string, j: string)
    requires pid in w.procs && AboutToSkip(g, w.records, w.procs[pid], d) && LastOpen(g, w, d, j)
    ensures var w' := Apply(g, w, Tick(pid));
            && Overdue(g, w', j) && pid in w'.procs
            && (Wakes(g, w'.procs[pid], j) <==> !StaleBut(g, w.procs[pid].work.memo, d, j))
  {
    hide Precedes, Stale, StaleBut, Outgoing, Incoming, NextProbe, Decide, View, Ahead;
    var p, w' := w.procs[pid], Apply(g, w, Tick(pid));
    PutLast(g, p.work.memo, d, j);
    var stack := Bump(p.work.stack) + [Frame(d, 0)];
    assert stack[|stack| - 1] == Frame(d, 0);
    RootAhead(g, d, j);
    assert SomeAhead(g, stack, j);
  }

  /** `j` has its record, or call `pid` wakes it. */
  ghost predicate Noticed(g: Graph, w: World, pid: nat, j: string) {
    j in w.records || (Overdue(g, w, j) && pid in w.procs && Wakes(g, w.procs[pid], j))
  }

  lemma FinishedOverdue(g: Graph, w: World, w': World, n: string, o: Record, j: string)
    requires LastOpen(g, w, n, j) && IsTerminal(o.status) && j !in w'.records
    requires forall x :: x in w.records[n := o] ==> x in w'.records && w'.records[x] == w.records[n := o][x]
    ensures Overdue(g, w', j)
  {
    hide Precedes;
  }

  lemma FreshStart(g: Graph, n: string, o: Record, j: string)
    requires Precedes(g, n, j) && IsTerminal(o.status)
    ensures !Stale(g, map[], j) && !Stale(g, map[n := Some(o)], j) && SomeAhead(g, [Frame(n, 0)], j)
  {
    RootAhead(g, n, j);
    OneFrame(g, Frame(n, 0), j);
  }

  /** A call that finishes a join's last predecessor itself wakes the join, if it advances at all. */
  lemma WriterWakes(g: Graph, w: World, pid: nat, j: string)
    requires pid in w.procs && (w.procs[pid].work.Writing? || w.procs[pid].work.SkipWriting?)
    requires Interleaving.Pending(w.records, w.procs[pid].node) && IsTerminal(w.procs[pid].outcome.status)
    requires LastOpen(g, w, w.procs[pid].node, j)
    requires w.procs[pid].work.Writing? ==> Advances(g, w.procs[pid].node, w.procs[pid].outcome.status)
    ensures Noticed(g, TickWriting(g, w, pid, w.procs[pid]), pid, j)
  {
    var p := w.procs[pid];
    FreshStart(g, p.node, p.outcome, j);
    hide Precedes, Stale, SomeAhead, Advances;
    FinishedOverdue(g, w, TickWriting(g, w, pid, p), p.node, p.outcome, j);
  }

  lemma PlannerWakes(g: Graph, w: World, pid: nat, j: string)
    requires w.run.Alive? && pid in w.procs && w.procs[pid].work.Planning? && PlanOk(g, w, w.procs[pid])
    requires w.procs[pid].work.k >= |PlanDeps(g, w.procs[pid])|
    requires Interleaving.Pending(w.records, w.procs[pid].node) && LastOpen(g, w, w.procs[pid].node, j)
    requires Advances(g, w.procs[pid].node, w.procs[pid].outcome.status)
    ensures Noticed(g, Commit(g, w, pid, w.procs[pid]), pid, j)
  {
    var p := w.procs[pid];
    var w' := Commit(g, w, pid, p);
    FreshStart(g, p.node, p.outcome, j);
    if !p.work.revisit { PlannedIsQueued(g, p, w, j); }
    hide Precedes, Stale, SomeAhead, Advances, PlanOk, Conclude;
    if j !in w'.records { FinishedOverdue(g, w, w', p.node, p.outcome, j); }
  }

  lemma PlannedIsQueued(g: Graph, p: Proc, w: World, j: string)
    requires p.work.Planning? && PlanOk(g, w, p) && p.work.k >= |PlanDeps(g, p)| && !p.work.revisit
    requires Precedes(g, p.node, j) && Advances(g, p.node, p.outcome.status)
    ensures j in p.work.enqueue
  {
    OutgoingPrecedes(g, p.node, j);
    var deps := Outgoing(g.edges, p.node);
    var m :| 0 <= m < |deps| && deps[m] == j;
    assert deps[m] in p.work.enqueue;
  }

  lemma OneFrame(g: Graph, f: Frame, j: string)
    ensures SomeAhead(g, [f], j) <==> Ahead(g, f, j)
  {
    assert [f][0] == f;
  }

  /**
    A join whose last predecessor is skipped in a cascade. If the call held no other predecessor as
    unfinished, then once it has returned in an open run the join is recorded. If it did, and no other
    call in flight wakes the join, every continuation leaves the join without a record for good.
   */
  lemma CascadeAtJoin(g: Graph, tr: seq<World>, i: nat, n: nat, pid: nat, d: string, j: string)
    requires Wired(g) && IsExecution(g, tr) && i < n < |tr|
    requires pid in tr[i].procs && AboutToSkip(g, tr[i].records, tr[i].procs[pid], d) && LastOpen(g, tr[i], d, j)
    requires tr[i + 1] == Apply(g, tr[i], Tick(pid))
    ensures !StaleBut(g, tr[i].procs[pid].work.memo, d, j) && tr[n].run.Alive? && pid !in tr[n].procs ==> j in tr[n].records
    ensures StaleBut(g, tr[i].procs[pid].work.memo, d, j) && OthersSleep(g, tr[i], pid, j) ==> j !in tr[n].records
  {
    CascadeWakesUnlessStale(g, tr[i], pid, d, j);
    var w, w' := tr[i], tr[i + 1];
    hide Wakes, IsExecution, Overdue, StaleBut, LastOpen, AboutToSkip;
    if !StaleBut(g, w.procs[pid].work.memo, d, j) {
      if tr[n].run.Alive? { WokenUntilRecorded(g, tr, i + 1, n, pid, j); }
    } else if OthersSleep(g, w, pid, j) {
      forall q | q in w'.procs ensures !Wakes(g, w'.procs[q], j) {
        if q != pid { TickStands(g, w, pid, q); }
      }
      AsleepForGood(g, tr, i + 1, n, j);
      StillUnrecorded(g, tr[n], j);
    }
  }

  ghost predicate OthersSleep(g: Graph, w: World, pid: nat, j: string) {
    forall q :: q in w.procs && q != pid ==> !Wakes(g, w.procs[q], j)
  }

  lemma StillUnrecorded(g: Graph, w: World, j: string)
    requires Overdue(g, w, j)
    ensures j !in w.records
  {
  }
}
