/**
  A call of the interleaved dispatcher that nothing disturbs does what the dispatcher's methods do: its steps,
  taken in a row, are one pass.
 */
module SoloCalls {
  import opened Graphs
  import opened Decisions
  import opened Passes
  import opened RunStores
  import opened Dispatcher
  import opened Interleaving
  import opened Joins

  /** The store as the methods see it. */
  function Seen(w: World): RunState {
    RunState(w.records, if w.run.Ended? then w.run.status else Running, w.terminals)
  }

  // ----- inside the dispatch loop

  /** Every record added since `r` is one its predecessors demand, of a dependent of `n` or below a new skip. */
  ghost predicate Grown(g: Graph, r: Records, r': Records, n: string) {
    && (forall x :: x in r ==> x in r' && r'[x] == r[x])
    && (forall d :: d in r' && d !in r ==> Earned(g, r, r', n, d))
  }

  ghost predicate Earned(g: Graph, r: Records, r': Records, n: string, d: string)
    requires d in r'
  {
    && d in Ids(g.nodes) && (d in Targets(g, n) || BelowNewSkip(g, r, r', d))
    && !DecideNode(g, r', d).DepWaiting? && r'[d] == RecordFor(DecideNode(g, r', d))
  }

  /** The memo shows the store, except that what it missed may have been queued since. */
  ghost predicate Matches(r: Records, memo: Memo) {
    forall x :: x in memo ==> if memo[x].Some? then x in r && r[x] == memo[x].value else x in r ==> r[x] == QUEUED
  }

  /** A node whose dependents this pass is to look at. */
  ghost predicate Spreads(r: Records, r': Records, n: string, x: string) {
    x == n || (x in r' && x !in r && r'[x] == SKIPPED)
  }

  /** Each such dependent is recorded, has to wait, or is still ahead. */
  ghost predicate Looked(g: Graph, r: Records, r': Records, n: string, stack: seq<Frame>) {
    forall x, d :: Spreads(r, r', n, x) && d in Outgoing(g.edges, x) ==> d in r' || DecideNode(g, r', d).DepWaiting? || SomeAhead(g, stack, d)
  }

  ghost predicate FramesOk(r: Records, r': Records, n: string, stack: seq<Frame>) {
    forall i :: 0 <= i < |stack| ==> Spreads(r, r', n, stack[i].node)
  }

  /** The run record has not moved, or has ended as the records demand, or is on the way there. */
  ghost predicate MovedOk(g: Graph, s: RunState, w: World, check: Check) {
    match check
    case Publishing(v) => w.run.Ended? && w.run.status == v && RunVerdict(g, w.records) == Some(v) && w.terminals == s.terminals
    case Finalizing(v, _) => RunVerdict(g, w.records) == Some(v) && Quiet(g, s, w)
    case _ => Quiet(g, s, w)
  }

  ghost predicate Quiet(g: Graph, s: RunState, w: World) {
    if w.run.Alive? then w.terminals == s.terminals
    else RunVerdict(g, w.records) == Some(w.run.status) && w.terminals == s.terminals + [w.run.status]
  }

  ghost predicate Underway(g: Graph, s: RunState, n: string, o: Record, w: World, p: Proc)
    requires p.work.Dispatching?
  {
    var r := s.records[n := o];
    && Grown(g, r, w.records, n) && Matches(w.records, p.work.memo) && Looked(g, r, w.records, n, p.work.stack)
    && p.work.stack != [] && FramesOk(r, w.records, n, p.work.stack)
    && (p.work.queued ==> Queueing(g, w.records)) && MovedOk(g, s, w, p.check)
  }

  // ----- looks

  lemma MatchesDecides(r: Records, memo: Memo, inc: seq<Edge>)
    requires Matches(r, memo) && NextProbe(memo, inc).Settled?
    ensures Decide(View(memo), inc) == Decide(r, inc) && !Decide(r, inc).DepWaiting?
  {
    forall e | e in inc ensures e.from in View(memo) && e.from in r && View(memo)[e.from] == r[e.from] && !Open(View(memo), e) { }
    SameEvidenceSameDecision(View(memo), r, inc);
  }

  lemma {:induction false} MatchesWaits(r: Records, memo: Memo, inc: seq<Edge>)
    requires Matches(r, memo) && NextProbe(memo, inc).Waits?
    ensures exists e :: e in inc && Open(r, e)
  {
    if inc[0].from in memo && (memo[inc[0].from].None? || Open(View(memo), inc[0])) {
      assert inc[0] in inc && Open(r, inc[0]);
    } else {
      MatchesWaits(r, memo, inc[1..]);
      var e :| e in inc[1..] && Open(r, e);
    }
  }

  lemma ReadMatches(r: Records, memo: Memo, x: string)
    requires Matches(r, memo)
    ensures Matches(r, memo[x := Lookup(r, x)])
  {
  }

  // ----- what recording a dependent keeps

  lemma AddGrown(g: Graph, r: Records, r1: Records, n: string, x: string, d: string, rec: Record)
    requires Grown(g, r, r1, n) && Spreads(r, r1, n, x) && d in Outgoing(g.edges, x) && d in Ids(g.nodes)
    requires d !in r1 && !DecideNode(g, r1, d).DepWaiting? && rec == RecordFor(DecideNode(g, r1, d))
    ensures Grown(g, r, r1[d := rec], n)
  {
    hide Earned, DecideNode, Spreads, Outgoing;
    NewEarned(g, r, r1, n, x, d);
    forall y | y in r1 && y !in r ensures Earned(g, r, r1[d := rec], n, y) { EarnedStays(g, r, r1, n, y, d, rec); }
  }

  lemma EarnedStays(g: Graph, r: Records, r1: Records, n: string, y: string, d: string, rec: Record)
    requires y in r1 && Earned(g, r, r1, n, y) && d !in r1
    ensures Earned(g, r, r1[d := rec], n, y)
  {
    var r' := r1[d := rec];
    PassKeepsDecision(g, r1, r', y);
    hide DecideNode;
    if BelowNewSkip(g, r, r1, y) {
      var e :| e in g.edges && e.to == y && e.from !in r && e.from in r1 && r1[e.from] == SKIPPED;
      assert e.from in r' && r'[e.from] == SKIPPED;
    }
  }

  lemma NewEarned(g: Graph, r: Records, r1: Records, n: string, x: string, d: string)
    requires Spreads(r, r1, n, x) && d in Outgoing(g.edges, x) && d in Ids(g.nodes) && d !in r1 && !DecideNode(g, r1, d).DepWaiting?
    ensures Earned(g, r, r1[d := RecordFor(DecideNode(g, r1, d))], n, d)
  {
    var r' := r1[d := RecordFor(DecideNode(g, r1, d))];
    PassKeepsDecision(g, r1, r', d);
    hide DecideNode;
    if x != n {
      var e :| e in g.edges && e.from == x && e.to == d;
      assert BelowNewSkip(g, r, r', d);
    }
  }

  lemma AddMatches(r: Records, memo: Memo, d: string)
    requires Matches(r, memo) && d !in r
    ensures Matches(r[d := QUEUED], memo) && Matches(r[d := SKIPPED], memo[d := Some(SKIPPED)])
  {
  }

  lemma PushedAhead(g: Graph, stack: seq<Frame>, f: Frame, d: string)
    ensures SomeAhead(g, stack + [f], d) <==> SomeAhead(g, stack, d) || Ahead(g, f, d)
  {
    hide Ahead;
    var longer := stack + [f];
    if SomeAhead(g, stack, d) { var i :| 0 <= i < |stack| && Ahead(g, stack[i], d); assert Ahead(g, longer[i], d); }
    if Ahead(g, f, d) { assert Ahead(g, longer[|stack|], d); }
  }

  /** A waiting dependent of `y` that a new record lets go is a dependent of the new record's node. */
  lemma LetGo(g: Graph, r: Records, d: string, rec: Record, y: string)
    requires d !in r && DecideNode(g, r, y).DepWaiting? && !DecideNode(g, r[d := rec], y).DepWaiting?
    ensures y in Outgoing(g.edges, d) && (rec.status.Queued? || rec.status.Running? ==> false)
  {
    var inc := Incoming(g.edges, y);
    var e := OpenEdge(r, inc);
    ClosedEdge(r[d := rec], inc, e);
  }

  /** After recording `d` every look owed is still ahead: behind the bumped loop, or in the new frame of a skip. */
  lemma AddLooked(g: Graph, r: Records, r1: Records, n: string, stack: seq<Frame>, d: string, rec: Record, stack': seq<Frame>)
    requires Looked(g, r, r1, n, stack) && d !in r1 && (rec == QUEUED || rec == SKIPPED) && d !in r
    requires forall y :: y != d && SomeAhead(g, stack, y) ==> SomeAhead(g, stack', y)
    requires rec == SKIPPED ==> forall y :: y in Outgoing(g.edges, d) ==> SomeAhead(g, stack', y)
    ensures Looked(g, r, r1[d := rec], n, stack')
  {
    hide SomeAhead, DecideNode, Outgoing;
    var r' := r1[d := rec];
    forall x, y | Spreads(r, r', n, x) && y in Outgoing(g.edges, x)
      ensures y in r' || DecideNode(g, r', y).DepWaiting? || SomeAhead(g, stack', y)
    {
      if y !in r' && !DecideNode(g, r', y).DepWaiting? {
        if DecideNode(g, r1, y).DepWaiting? { LetGo(g, r1, d, rec, y); }
        else if x != d || x == n { assert Spreads(r, r1, n, x); }
      }
    }
  }

  lemma BumpLooked(g: Graph, r: Records, r': Records, n: string, stack: seq<Frame>, d: string)
    requires stack != [] && Looked(g, r, r', n, stack)
    requires var top := stack[|stack| - 1]; top.k < |Outgoing(g.edges, top.node)| && Outgoing(g.edges, top.node)[top.k] == d
    requires d in r' || DecideNode(g, r', d).DepWaiting?
    ensures Looked(g, r, r', n, Bump(stack))
  {
    forall y | SomeAhead(g, stack, y) && y != d ensures SomeAhead(g, Bump(stack), y) { BumpAhead(g, stack, y); }
    hide SomeAhead, DecideNode, Bump;
  }

  lemma PopLooked(g: Graph, r: Records, r': Records, n: string, stack: seq<Frame>)
    requires stack != [] && Looked(g, r, r', n, stack)
    requires var top := stack[|stack| - 1]; top.k >= |Outgoing(g.edges, top.node)|
    ensures Looked(g, r, r', n, stack[..|stack| - 1])
  {
    forall y ensures SomeAhead(g, stack[..|stack| - 1], y) <==> SomeAhead(g, stack, y) { PopAhead(g, stack, y); }
    hide SomeAhead, DecideNode;
  }

  /** Once nothing is ahead the pass is complete. */
  lemma LookedIsSpread(g: Graph, r: Records, r': Records, n: string)
    requires Grown(g, r, r', n) && Looked(g, r, r', n, [])
    ensures Spread(g, r, r', Targets(g, n), Targets(g, n))
  {
    hide DecideNode;
    forall d | (d in Targets(g, n) || BelowNewSkip(g, r, r', d)) && !DecideNode(g, r', d).DepWaiting? ensures d in r' {
      if d in Targets(g, n) { assert Spreads(r, r', n, n); }
      else {
        var e :| e in g.edges && e.to == d && e.from !in r && e.from in r' && r'[e.from] == SKIPPED;
        assert Spreads(r, r', n, e.from) && d in Outgoing(g.edges, e.from);
      }
      NoneAhead(g, d);
    }
  }

  // ----- the stages of a call

  ghost predicate IsFatal(g: Graph, n: string, o: Record) {
    o.status.Failed? && FailurePropagates(g, n)
  }

  /** The pass is over; the completion check may still be on its way. */
  ghost predicate Finished(g: Graph, s: RunState, n: string, o: Record, w: World, check: Check) {
    var r := s.records[n := o];
    if IsTerminal(s.status) then check.Idle? && Seen(w) == s.(records := r)
    else if IsFatal(g, n, o) then
      && w.records == r
      && match check
         case Finalizing(v, _) => v == Failed && w.run.Alive? && w.terminals == s.terminals
         case Publishing(v) => v == Failed && w.run.Ended? && w.run.status == Failed && w.terminals == s.terminals
         case Idle => w.run.Ended? && w.run.status == Failed && w.terminals == s.terminals + [Failed]
         case Listing => false
    else
      && Spread(g, r, w.records, Targets(g, n), Targets(g, n)) && MovedOk(g, s, w, check)
      && (check.Idle? ==> Concluded(g, s, Seen(w)))
  }

  lemma FinishedIsPass(g: Graph, s: RunState, n: string, o: Record, w: World)
    requires Finished(g, s, n, o, w, Idle) && n in s.records && !IsTerminal(s.records[n].status)
    ensures PassStep(g, s, n, o, Seen(w))
  {
    hide Spread, Concluded, FailurePropagates, MovedOk;
  }

  /** A plan in the making: what it has read is what there is, and it queues what the completion will release. */
  ghost predicate Planned(g: Graph, r: Records, p: Proc)
    requires p.work.Planning?
  {
    var deps := PlanDeps(g, p);
    && p.node in p.work.seen && p.work.seen[p.node] == Some(p.outcome)
    && (forall x :: x in p.work.seen && x != p.node ==> p.work.seen[x] == Lookup(r, x))
    && p.work.k <= |deps| && (p.work.revisit ==> deps != [])
    && (forall d :: d in p.work.enqueue ==> d in deps && DecideNode(g, r[p.node := p.outcome], d).DepEnqueue?)
    && (p.work.revisit || forall i :: 0 <= i < p.work.k ==> deps[i] in p.work.enqueue)
  }

  /** Call `pid`, started in the state `s` to finish `n` with `o`, has got this far. */
  ghost predicate Stage(g: Graph, s: RunState, n: string, o: Record, w: World, pid: nat) {
    && pid in w.procs && w.procs[pid].node == n && w.procs[pid].outcome == o
    && (w.run.Ended? ==> IsTerminal(w.run.status)) && (Executed(o) || (o == SKIPPED && !IsTerminal(s.status)))
    && var p := w.procs[pid];
       match p.work
       case Writing => p.check.Idle? && Seen(w) == s && Executed(o)
       case SkipWriting => p.check.Idle? && Seen(w) == s && o == SKIPPED
       case Planning(_, _, _, _) => p.check.Idle? && Seen(w) == s && Executed(o) && Planned(g, w.records, p)
       case Checking => p.check.Idle? && Seen(w) == s.(records := s.records[n := o]) && Executed(o)
       case Dispatching(_, _, _) => !IsTerminal(s.status) && !IsFatal(g, n, o) && Underway(g, s, n, o, w, p)
       case Done => Finished(g, s, n, o, w, p.check)
       case _ => false
  }

  lemma AliveIsOpen(w: World, s: RunState)
    requires Seen(w).status == s.status && (w.run.Ended? ==> IsTerminal(w.run.status))
    ensures w.run.Alive? <==> !IsTerminal(s.status)
  {
  }

  /** A dispatch loop that starts where nothing is skipped yet has everything ahead. */
  lemma LoopStarts(g: Graph, s: RunState, n: string, o: Record, w: World, p: Proc)
    requires p.work.Dispatching? && p.work.stack == [Frame(n, 0)] && p.check.Idle? && w.run.Alive? && w.terminals == s.terminals
    requires Grown(g, s.records[n := o], w.records, n) && Matches(w.records, p.work.memo) && (p.work.queued ==> Queueing(g, w.records))
    requires forall x :: x in w.records && x !in s.records[n := o] ==> w.records[x] == QUEUED
    ensures Underway(g, s, n, o, w, p)
  {
    forall d | d in Outgoing(g.edges, n) ensures SomeAhead(g, [Frame(n, 0)], d) {
      RootAhead(g, n, d);
      OutgoingPrecedes(g, n, d);
      OneFrame(g, Frame(n, 0), d);
    }
    hide SomeAhead, DecideNode, Outgoing, Grown, Matches, Queueing;
  }

  lemma NothingGrown(g: Graph, r: Records, n: string)
    ensures Grown(g, r, r, n) && Matches(r, map[])
  {
  }

  lemma WritingStage(g: Graph, s: RunState, n: string, o: Record, w: World, pid: nat, w': World)
    requires Stage(g, s, n, o, w, pid) && n in s.records && !IsTerminal(s.records[n].status)
    requires (w.procs[pid].work.Writing? || w.procs[pid].work.SkipWriting?) && w' == TickWriting(g, w, pid, w.procs[pid])
    ensures Stage(g, s, n, o, w', pid)
  {
    AliveIsOpen(w, s);
    if w.procs[pid].work.SkipWriting? {
      NothingGrown(g, s.records[n := o], n);
      LoopStarts(g, s, n, o, w', w'.procs[pid]);
    }
    hide Underway, Finished, Planned, FailurePropagates;
  }

  lemma CheckingStage(g: Graph, s: RunState, n: string, o: Record, w: World, pid: nat, w': World)
    requires Stage(g, s, n, o, w, pid) && w.procs[pid].work.Checking? && w' == TickChecking(g, w, pid, w.procs[pid])
    ensures Stage(g, s, n, o, w', pid)
  {
    AliveIsOpen(w, s.(records := s.records[n := o]));
    if w.run.Alive? && Advances(g, n, o.status) {
      NothingGrown(g, s.records[n := o], n);
      LoopStarts(g, s, n, o, w', w'.procs[pid]);
    }
    hide Underway, Planned, FailurePropagates, Spread, MovedOk, Concluded;
  }

  // ----- the completion check

  lemma GrowsQuiet(g: Graph, s: RunState, w: World, w': World)
    requires Quiet(g, s, w) && w'.run == w.run && w'.terminals == w.terminals && Grows(w.records, w'.records)
    ensures Quiet(g, s, w')
  {
    if w.run.Ended? { VerdictIsFinal(g, g.nodes, w.records, w'.records); }
  }

  lemma CheckMoves(g: Graph, s: RunState, w: World, pid: nat, w': World)
    requires pid in w.procs && MovedOk(g, s, w, w.procs[pid].check) && !w.procs[pid].check.Idle?
    requires w' == TickCheck(g, w, pid, w.procs[pid])
    ensures w'.records == w.records && pid in w'.procs && w'.procs[pid] == w.procs[pid].(check := w'.procs[pid].check)
    ensures MovedOk(g, s, w', w'.procs[pid].check) && (w'.run == w.run || (w'.run.Ended? && RunVerdict(g, w.records) == Some(w'.run.status)))
    ensures w'.procs[pid].check.Idle? && w.procs[pid].check.Listing? ==> RunVerdict(g, w.records).None?
    ensures w'.procs[pid].check.Idle? && !w.procs[pid].check.Listing? ==> w'.run.Ended?
  {
    hide RunVerdict;
  }

  lemma VerdictKinds(g: Graph, r: Records)
    ensures RunVerdict(g, r).Some? ==> IsTerminal(RunVerdict(g, r).value)
  {
  }

  /** A check that is through leaves the run as its records demand. */
  lemma CheckedIsConcluded(g: Graph, s: RunState, w: World)
    requires Quiet(g, s, w) && !IsTerminal(s.status) && s.status == Running
    requires w.run.Ended? || RunVerdict(g, w.records).None? || Queueing(g, w.records)
    ensures Concluded(g, s, Seen(w))
  {
    hide RunVerdict, Queueing;
  }

  lemma CheckStage(g: Graph, s: RunState, n: string, o: Record, w: World, pid: nat, w': World)
    requires Stage(g, s, n, o, w, pid) && !w.procs[pid].check.Idle? && w' == TickCheck(g, w, pid, w.procs[pid])
    requires !IsTerminal(s.status) ==> s.status == Running
    ensures Stage(g, s, n, o, w', pid)
  {
    VerdictKinds(g, w.records);
    if !IsTerminal(s.status) && !IsFatal(g, n, o) {
      CheckMoves(g, s, w, pid, w');
      if w.procs[pid].work.Done? && w'.procs[pid].check.Idle? { CheckedIsConcluded(g, s, w'); }
      hide MovedOk, Quiet, Concluded, RunVerdict, Grown, Matches, Looked, FramesOk, Queueing, Spread, TickCheck, FailurePropagates, Planned;
    } else {
      hide RunVerdict, Underway, Planned, FailurePropagates, Spread;
    }
  }

  // ----- the dispatch loop

  /** The next dependent the loop looks at, and whose it is. */
  ghost predicate LooksAt(g: Graph, p: Proc, x: string, d: string) {
    && p.work.Dispatching? && p.work.stack != []
    && var top := p.work.stack[|p.work.stack| - 1];
       top.node == x && top.k < |Outgoing(g.edges, x)| && Outgoing(g.edges, x)[top.k] == d
  }

  lemma FramesGrow(r: Records, r1: Records, n: string, stack: seq<Frame>, d: string, rec: Record)
    requires stack != [] && FramesOk(r, r1, n, stack) && d !in r1
    ensures FramesOk(r, r1[d := rec], n, Bump(stack))
    ensures rec == SKIPPED && d !in r ==> FramesOk(r, r1[d := rec], n, Bump(stack) + [Frame(d, 0)])
  {
    var r', moved := r1[d := rec], Bump(stack);
    forall i | 0 <= i < |moved| ensures Spreads(r, r', n, moved[i].node) { assert Spreads(r, r1, n, stack[i].node); }
  }

  lemma FramesBump(r: Records, r': Records, n: string, stack: seq<Frame>)
    requires stack != [] && FramesOk(r, r', n, stack)
    ensures FramesOk(r, r', n, Bump(stack))
  {
    var moved := Bump(stack);
    forall i | 0 <= i < |moved| ensures Spreads(r, r', n, moved[i].node) { assert Spreads(r, r', n, stack[i].node); }
  }

  lemma BumpKeepsOthers(g: Graph, stack: seq<Frame>, d: string)
    requires stack != []
    requires var top := stack[|stack| - 1]; top.k < |Outgoing(g.edges, top.node)| && Outgoing(g.edges, top.node)[top.k] == d
    ensures forall y :: y != d && SomeAhead(g, stack, y) ==> SomeAhead(g, Bump(stack), y)
  {
    forall y | y != d && SomeAhead(g, stack, y) ensures SomeAhead(g, Bump(stack), y) { BumpAhead(g, stack, y); }
  }

  lemma SkipAhead(g: Graph, stack: seq<Frame>, d: string)
    ensures forall y :: SomeAhead(g, stack, y) ==> SomeAhead(g, stack + [Frame(d, 0)], y)
    ensures forall y :: y in Outgoing(g.edges, d) ==> SomeAhead(g, stack + [Frame(d, 0)], y)
  {
    forall y ensures SomeAhead(g, stack, y) ==> SomeAhead(g, stack + [Frame(d, 0)], y) { PushedAhead(g, stack, Frame(d, 0), y); }
    forall y | y in Outgoing(g.edges, d) ensures SomeAhead(g, stack + [Frame(d, 0)], y) {
      PushedAhead(g, stack, Frame(d, 0), y);
      RootAhead(g, d, y);
      OutgoingPrecedes(g, d, y);
    }
  }

  lemma KeepsQueueing(g: Graph, r: Records, d: string, rec: Record)
    requires d !in r
    ensures Queueing(g, r) ==> Queueing(g, r[d := rec])
    ensures d in Ids(g.nodes) && rec == QUEUED ==> Queueing(g, r[d := rec])
  {
    var r' := r[d := rec];
    if Queueing(g, r) { var x :| x in r && x in Ids(g.nodes) && r[x] == QUEUED; assert x in r' && r'[x] == QUEUED; }
    if d in Ids(g.nodes) && rec == QUEUED { assert d in r' && r'[d] == QUEUED; }
  }

  /** The loop writes the record of a dependent that has none. */
  lemma WritesUnderway(g: Graph, s: RunState, n: string, o: Record, w: World, p: Proc, x: string, d: string, rec: Record, w': World, p': Proc)
    requires p.work.Dispatching? && Underway(g, s, n, o, w, p) && p.check.Idle? && LooksAt(g, p, x, d) && d in Ids(g.nodes)
    requires d !in w.records && !DecideNode(g, w.records, d).DepWaiting? && rec == RecordFor(DecideNode(g, w.records, d))
    requires w'.records == w.records[d := rec] && w'.run == w.run && w'.terminals == w.terminals
    requires p'.work.Dispatching? && p'.check.Idle?
    requires if rec == QUEUED then p'.work.memo == p.work.memo && p'.work.stack == Bump(p.work.stack)
             else p'.work.memo == p.work.memo[d := Some(SKIPPED)] && p'.work.stack == Bump(p.work.stack) + [Frame(d, 0)]
    requires p'.work.queued ==> p.work.queued || rec == QUEUED
    ensures Underway(g, s, n, o, w', p')
  {
    var r, stack := s.records[n := o], p.work.stack;
    assert d !in r && Spreads(r, w.records, n, x) && d in Outgoing(g.edges, x) && (rec == QUEUED || rec == SKIPPED);
    assert Grows(w.records, w'.records);
    hide Grown, Matches, Looked, FramesOk, Queueing, Quiet, SomeAhead, DecideNode, Outgoing, Bump, Spreads;
    AddGrown(g, r, w.records, n, x, d, rec);
    AddMatches(w.records, p.work.memo, d);
    BumpKeepsOthers(g, stack, d);
    SkipAhead(g, Bump(stack), d);
    AddLooked(g, r, w.records, n, stack, d, rec, p'.work.stack);
    FramesGrow(r, w.records, n, stack, d, rec);
    KeepsQueueing(g, w.records, d, rec);
    GrowsQuiet(g, s, w, w');
  }

  /** The loop passes over a dependent that is recorded or has to wait. */
  lemma PassesUnderway(g: Graph, s: RunState, n: string, o: Record, w: World, p: Proc, x: string, d: string, p': Proc)
    requires p.work.Dispatching? && Underway(g, s, n, o, w, p) && p.check.Idle? && LooksAt(g, p, x, d)
    requires d in w.records || DecideNode(g, w.records, d).DepWaiting?
    requires p' == p.(work := p.work.(stack := Bump(p.work.stack)))
    ensures Underway(g, s, n, o, w, p')
  {
    var r := s.records[n := o];
    BumpLooked(g, r, w.records, n, p.work.stack, d);
    FramesBump(r, w.records, n, p.work.stack);
    hide Grown, Matches, Looked, FramesOk, Queueing, Quiet, DecideNode;
  }

  /** Nothing `Underway` looks at changes with the calls in flight. */
  lemma SameUnderway(g: Graph, s: RunState, n: string, o: Record, w: World, w': World, p: Proc)
    requires p.work.Dispatching? && Underway(g, s, n, o, w, p) && w'.records == w.records && w'.run == w.run && w'.terminals == w.terminals
    ensures Underway(g, s, n, o, w', p)
  {
    hide Grown, Matches, Looked, FramesOk, Queueing, RunVerdict;
  }

  lemma DecidedUnderway(g: Graph, s: RunState, n: string, o: Record, w: World, pid: nat, x: string, d: string, w': World)
    requires pid in w.procs && w.procs[pid].work.Dispatching? && w.procs[pid].check.Idle? && Underway(g, s, n, o, w, w.procs[pid])
    requires LooksAt(g, w.procs[pid], x, d) && d in Ids(g.nodes)
    requires NextProbe(w.procs[pid].work.memo, Incoming(g.edges, d)).Settled?
    requires w' == TickDecided(g, w, pid, w.procs[pid], d, Decide(View(w.procs[pid].work.memo), Incoming(g.edges, d)))
    ensures pid in w'.procs && w'.run == w.run && w'.procs[pid] == w.procs[pid].(work := w'.procs[pid].work)
    ensures w'.procs[pid].work.Dispatching? && Underway(g, s, n, o, w', w'.procs[pid])
  {
    var p := w.procs[pid];
    assert Matches(w.records, p.work.memo);
    MatchesDecides(w.records, p.work.memo, Incoming(g.edges, d));
    hide Underway, Decide, View, NextProbe, Bump, Incoming;
    if d in w.records {
      var p' := p.(work := p.work.(stack := Bump(p.work.stack)));
      PassesUnderway(g, s, n, o, w, p, x, d, p');
      SameUnderway(g, s, n, o, w, w', p');
    } else {
      WritesUnderway(g, s, n, o, w, p, x, d, RecordFor(DecideNode(g, w.records, d)), w', w'.procs[pid]);
    }
  }

  lemma StageIsUnderway(g: Graph, s: RunState, n: string, o: Record, w: World, pid: nat)
    requires Stage(g, s, n, o, w, pid) && w.procs[pid].work.Dispatching?
    ensures !IsTerminal(s.status) && !IsFatal(g, n, o) && Underway(g, s, n, o, w, w.procs[pid])
  {
  }

  lemma UnderwayIsStage(g: Graph, s: RunState, n: string, o: Record, w: World, pid: nat, w': World)
    requires Stage(g, s, n, o, w, pid) && w.procs[pid].work.Dispatching? && w'.run == w.run
    requires pid in w'.procs && w'.procs[pid].node == n && w'.procs[pid].outcome == o
    requires w'.procs[pid].work.Dispatching? && Underway(g, s, n, o, w', w'.procs[pid])
    ensures Stage(g, s, n, o, w', pid)
  {
    hide Underway, IsFatal;
  }

  lemma FinishedIsStage(g: Graph, s: RunState, n: string, o: Record, w: World, pid: nat, w': World)
    requires Stage(g, s, n, o, w, pid) && w'.run == w.run
    requires pid in w'.procs && w'.procs[pid].node == n && w'.procs[pid].outcome == o
    requires w'.procs[pid].work.Done? && Finished(g, s, n, o, w', w'.procs[pid].check)
    ensures Stage(g, s, n, o, w', pid)
  {
    hide Underway, Finished, Planned;
  }

  /** An inner loop is left, with a completion check. */
  lemma PopInner(g: Graph, s: RunState, n: string, o: Record, w: World, p: Proc, w': World)
    requires p.work.Dispatching? && Underway(g, s, n, o, w, p) && p.check.Idle? && |p.work.stack| > 1
    requires p.work.stack[|p.work.stack| - 1].k >= |Outgoing(g.edges, p.work.stack[|p.work.stack| - 1].node)|
    requires w'.records == w.records && w'.run == w.run && w'.terminals == w.terminals
    ensures Underway(g, s, n, o, w', p.(work := p.work.(stack := p.work.stack[..|p.work.stack| - 1]), check := Listing))
  {
    var r, stack := s.records[n := o], p.work.stack;
    PopLooked(g, r, w.records, n, stack);
    FramesPop(r, w.records, n, stack);
    hide Grown, Matches, Looked, FramesOk, Queueing, RunVerdict;
  }

  lemma FramesPop(r: Records, r': Records, n: string, stack: seq<Frame>)
    requires stack != [] && FramesOk(r, r', n, stack)
    ensures FramesOk(r, r', n, stack[..|stack| - 1])
  {
  }

  /** The outer loop is left: the pass is complete, and checked unless it queued work. */
  lemma PopLast(g: Graph, s: RunState, n: string, o: Record, w: World, p: Proc, w': World)
    requires p.work.Dispatching? && Underway(g, s, n, o, w, p) && p.check.Idle? && |p.work.stack| == 1
    requires p.work.stack[0].k >= |Outgoing(g.edges, p.work.stack[0].node)|
    requires w'.records == w.records && w'.run == w.run && w'.terminals == w.terminals
    requires !IsTerminal(s.status) && s.status == Running && !IsFatal(g, n, o)
    ensures Finished(g, s, n, o, w', Listing) && (p.work.queued ==> Finished(g, s, n, o, w', Idle))
  {
    UnderwayHas(g, s, n, o, w, p);
    hide Spread, Concluded, RunVerdict, IsFatal, Underway, Queueing, Outgoing, Grown, Looked;
    LastSpread(g, s.records[n := o], w.records, n, p.work.stack);
    if p.work.queued { CheckedIsConcluded(g, s, w'); }
  }

  lemma UnderwayHas(g: Graph, s: RunState, n: string, o: Record, w: World, p: Proc)
    requires p.work.Dispatching? && Underway(g, s, n, o, w, p) && p.check.Idle?
    ensures Grown(g, s.records[n := o], w.records, n) && Looked(g, s.records[n := o], w.records, n, p.work.stack)
    ensures Quiet(g, s, w) && (p.work.queued ==> Queueing(g, w.records))
  {
    hide Grown, Matches, Looked, FramesOk, Queueing, Quiet;
  }

  lemma LastSpread(g: Graph, r: Records, r': Records, n: string, stack: seq<Frame>)
    requires |stack| == 1 && stack[0].k >= |Outgoing(g.edges, stack[0].node)| && Grown(g, r, r', n) && Looked(g, r, r', n, stack)
    ensures Spread(g, r, r', Targets(g, n), Targets(g, n))
  {
    hide *;
    PopLooked(g, r, r', n, stack);
    assert stack[..0] == [];
    LookedIsSpread(g, r, r', n);
  }

  lemma PopStage(g: Graph, s: RunState, n: string, o: Record, w: World, pid: nat, w': World)
    requires Stage(g, s, n, o, w, pid) && w.procs[pid].work.Dispatching? && w.procs[pid].check.Idle? && s.status == Running
    requires var stack := w.procs[pid].work.stack; stack != [] && stack[|stack| - 1].k >= |Outgoing(g.edges, stack[|stack| - 1].node)|
    requires w' == TickPop(g, w, pid, w.procs[pid])
    ensures Stage(g, s, n, o, w', pid)
  {
    var p := w.procs[pid];
    assert p.node == n && p.outcome == o;
    StageIsUnderway(g, s, n, o, w, pid);
    hide Stage, Underway, Finished, Outgoing;
    if |p.work.stack| > 1 {
      PopInner(g, s, n, o, w, p, w');
      UnderwayIsStage(g, s, n, o, w, pid, w');
    } else {
      PopLast(g, s, n, o, w, p, w');
      FinishedIsStage(g, s, n, o, w, pid, w');
    }
  }

  /** The loop reads a predecessor. */
  lemma ReadUnderway(g: Graph, s: RunState, n: string, o: Record, w: World, p: Proc, x: string)
    requires p.work.Dispatching? && Underway(g, s, n, o, w, p)
    ensures Underway(g, s, n, o, w, p.(work := p.work.(memo := p.work.memo[x := Lookup(w.records, x)])))
  {
    ReadMatches(w.records, p.work.memo, x);
    hide Grown, Matches, Looked, FramesOk, Queueing, RunVerdict;
  }

  lemma LookUnderway(g: Graph, s: RunState, n: string, o: Record, w: World, pid: nat, x: string, d: string, w': World)
    requires pid in w.procs && w.procs[pid].work.Dispatching? && w.procs[pid].check.Idle? && Underway(g, s, n, o, w, w.procs[pid])
    requires LooksAt(g, w.procs[pid], x, d) && d in Ids(g.nodes) && w' == TickDispatching(g, w, pid, w.procs[pid])
    ensures pid in w'.procs && w'.run == w.run && w'.procs[pid] == w.procs[pid].(work := w'.procs[pid].work)
    ensures w'.procs[pid].work.Dispatching? && Underway(g, s, n, o, w', w'.procs[pid])
  {
    var p := w.procs[pid];
    assert Matches(w.records, p.work.memo);
    hide Underway, Outgoing, Incoming, Decide, View, Ids, Bump, TickDecided;
    match NextProbe(p.work.memo, Incoming(g.edges, d)) {
      case Read(y) =>
        ReadUnderway(g, s, n, o, w, p, y);
        SameUnderway(g, s, n, o, w, w', w'.procs[pid]);
      case Waits =>
        MatchesWaits(w.records, p.work.memo, Incoming(g.edges, d));
        OpenWaits(g, w.records, d);
        PassesUnderway(g, s, n, o, w, p, x, d, p.(work := p.work.(stack := Bump(p.work.stack))));
        SameUnderway(g, s, n, o, w, w', w'.procs[pid]);
      case Settled =>
        DecidedUnderway(g, s, n, o, w, pid, x, d, w');
    }
  }

  lemma DispatchStage(g: Graph, s: RunState, n: string, o: Record, w: World, pid: nat, w': World)
    requires Wired(g) && Stage(g, s, n, o, w, pid) && w.procs[pid].work.Dispatching? && w.procs[pid].check.Idle? && s.status == Running
    requires w' == TickDispatching(g, w, pid, w.procs[pid])
    ensures Stage(g, s, n, o, w', pid)
  {
    var p := w.procs[pid];
    assert p.node == n && p.outcome == o && p.work.stack != [];
    StageIsUnderway(g, s, n, o, w, pid);
    var top := p.work.stack[|p.work.stack| - 1];
    var deps := Outgoing(g.edges, top.node);
    if top.k < |deps| { assert deps[top.k] in deps && deps[top.k] in Ids(g.nodes); }
    hide Stage, Underway, Outgoing, Ids;
    if top.k >= |deps| {
      hide TickPop;
      PopStage(g, s, n, o, w, pid, w');
    } else {
      assert LooksAt(g, p, top.node, deps[top.k]);
      hide TickDispatching, LooksAt;
      LookUnderway(g, s, n, o, w, pid, top.node, deps[top.k], w');
      UnderwayIsStage(g, s, n, o, w, pid, w');
    }
  }

  lemma OpenWaits(g: Graph, r: Records, d: string)
    requires exists e :: e in Incoming(g.edges, d) && Open(r, e)
    ensures DecideNode(g, r, d).DepWaiting?
  {
  }

  // ----- planning and committing

  lemma PlanMatches(g: Graph, r: Records, p: Proc)
    requires p.work.Planning? && Planned(g, r, p)
    ensures Matches(r[p.node := p.outcome], p.work.seen)
  {
  }

  lemma PlanReads(g: Graph, r: Records, p: Proc, x: string)
    requires p.work.Planning? && Planned(g, r, p) && x !in p.work.seen
    ensures Planned(g, r, p.(work := p.work.(seen := p.work.seen[x := Lookup(r, x)])))
  {
    hide DecideNode, PlanDeps;
    var p' := p.(work := p.work.(seen := p.work.seen[x := Lookup(r, x)]));
    SameDeps(g, p, p');
  }

  lemma SameDeps(g: Graph, p: Proc, p': Proc)
    requires p'.node == p.node && p'.outcome == p.outcome
    ensures PlanDeps(g, p') == PlanDeps(g, p)
  {
  }

  lemma PlanDefers(g: Graph, r: Records, p: Proc)
    requires p.work.Planning? && Planned(g, r, p) && p.work.k < |PlanDeps(g, p)|
    ensures Planned(g, r, p.(work := p.work.(k := p.work.k + 1, revisit := true)))
  {
    hide DecideNode, PlanDeps;
    SameDeps(g, p, p.(work := p.work.(k := p.work.k + 1, revisit := true)));
  }

  lemma PlanQueues(g: Graph, r: Records, p: Proc, d: string)
    requires p.work.Planning? && Planned(g, r, p) && p.work.k < |PlanDeps(g, p)| && d == PlanDeps(g, p)[p.work.k]
    requires DecideNode(g, r[p.node := p.outcome], d).DepEnqueue?
    ensures Planned(g, r, p.(work := p.work.(k := p.work.k + 1, enqueue := p.work.enqueue + [d])))
  {
    hide DecideNode, PlanDeps;
    SameDeps(g, p, p.(work := p.work.(k := p.work.k + 1, enqueue := p.work.enqueue + [d])));
  }

  lemma ProbeReadsNew(memo: Memo, inc: seq<Edge>)
    ensures NextProbe(memo, inc).Read? ==> NextProbe(memo, inc).id !in memo && exists e :: e in inc && e.from == NextProbe(memo, inc).id
  {
    if inc != [] && inc[0].from in memo && !(memo[inc[0].from].None? || Open(View(memo), inc[0])) {
      ProbeReadsNew(memo, inc[1..]);
      if NextProbe(memo, inc[1..]).Read? { var e :| e in inc[1..] && e.from == NextProbe(memo, inc[1..]).id; assert e in inc; }
    } else if inc != [] { assert inc[0] in inc; }
  }

  lemma StageIsPlanned(g: Graph, s: RunState, n: string, o: Record, w: World, pid: nat)
    requires Stage(g, s, n, o, w, pid) && w.procs[pid].work.Planning?
    ensures w.procs[pid].node == n && w.procs[pid].outcome == o && Planned(g, w.records, w.procs[pid])
    ensures Matches(w.records[n := o], w.procs[pid].work.seen)
  {
    PlanMatches(g, w.records, w.procs[pid]);
    hide Planned;
  }

  lemma PlannedIsStage(g: Graph, s: RunState, n: string, o: Record, w: World, pid: nat, w': World)
    requires Stage(g, s, n, o, w, pid) && w.procs[pid].work.Planning? && pid in w'.procs && w'.procs[pid].work.Planning?
    requires w'.records == w.records && w'.run == w.run && w'.terminals == w.terminals
    requires w'.procs[pid] == w.procs[pid].(work := w'.procs[pid].work) && Planned(g, w.records, w'.procs[pid])
    ensures Stage(g, s, n, o, w', pid)
  {
    hide Planned;
  }

  lemma PlanningStage(g: Graph, s: RunState, n: string, o: Record, w: World, pid: nat, w': World)
    requires Stage(g, s, n, o, w, pid) && w.procs[pid].work.Planning? && w.procs[pid].work.k < |PlanDeps(g, w.procs[pid])|
    requires w' == TickPlanning(g, w, pid, w.procs[pid])
    ensures Stage(g, s, n, o, w', pid)
  {
    StageIn(g, s, n, o, w, pid);
    StageIsPlanned(g, s, n, o, w, pid);
    var p := w.procs[pid];
    var d := PlanDeps(g, p)[p.work.k];
    var inc := Incoming(g.edges, d);
    hide Stage, Incoming, Decide, View, PlanDeps, Planned, Lookup, NextProbe, Matches;
    match NextProbe(p.work.seen, inc) {
      case Read(x) =>
        ProbeReadsNew(p.work.seen, inc);
        PlanReads(g, w.records, p, x);
      case Waits => PlanDefers(g, w.records, p);
      case Settled =>
        MatchesDecides(w.records[n := o], p.work.seen, inc);
        if Decide(View(p.work.seen), inc).DepEnqueue? { PlanQueues(g, w.records, p, d); } else { PlanDefers(g, w.records, p); }
    }
    PlannedIsStage(g, s, n, o, w, pid, w');
  }

  /** What a commit queues is what its completion releases. */
  lemma CommitGrown(g: Graph, r: Records, n: string, enqueue: seq<string>)
    requires Wired(g) && forall d :: d in enqueue ==> d in Outgoing(g.edges, n) && DecideNode(g, r, d).DepEnqueue?
    ensures Grown(g, r, EnqueueAll(r, enqueue), n)
  {
    var r' := EnqueueAll(r, enqueue);
    forall d | d in r' && d !in r ensures Earned(g, r, r', n, d) {
      assert d in enqueue && r'[d] == QUEUED && d in Outgoing(g.edges, n);
      PassKeepsDecision(g, r, r', d);
    }
  }

  lemma CommitSpread(g: Graph, r: Records, n: string, enqueue: seq<string>)
    requires Grown(g, r, EnqueueAll(r, enqueue), n) && forall d :: d in Outgoing(g.edges, n) ==> d in enqueue
    ensures Spread(g, r, EnqueueAll(r, enqueue), Targets(g, n), Targets(g, n))
  {
    var r' := EnqueueAll(r, enqueue);
    hide DecideNode, EnqueueAll;
    forall x | x in r' && x !in r ensures r'[x] == QUEUED { }
  }

  lemma SameKeys(r: Records, r': Records)
    requires forall x :: x in r <==> x in r'
    ensures r'.Keys == r.Keys
  {
  }

  lemma CommitQueues(g: Graph, r: Records, n: string, enqueue: seq<string>)
    requires Wired(g) && forall d :: d in enqueue ==> d in Outgoing(g.edges, n)
    ensures EnqueueAll(r, enqueue).Keys != r.Keys ==> Queueing(g, EnqueueAll(r, enqueue))
  {
    var r' := EnqueueAll(r, enqueue);
    if r'.Keys != r.Keys {
      assert exists x :: x in r' && x !in r by { if forall x :: x in r' ==> x in r { SameKeys(r, r'); } }
      var x :| x in r' && x !in r;
      assert x in Outgoing(g.edges, n) && x in Ids(g.nodes) && r'[x] == QUEUED;
    }
  }

  lemma NothingEnqueued(r: Records, enqueue: seq<string>)
    requires enqueue == []
    ensures EnqueueAll(r, enqueue) == r
  {
  }

  /** What the commit of a completion that advances the run writes. */
  lemma CommitWrites(g: Graph, w: World, p: Proc, n: string, o: Record)
    requires Wired(g) && p.work.Planning? && p.node == n && p.outcome == o && Planned(g, w.records, p) && PlanDeps(g, p) == Outgoing(g.edges, n)
    ensures var r := w.records[n := o];
            var r' := EnqueueAll(r, p.work.enqueue);
            && Grown(g, r, r', n) && (r'.Keys != r.Keys ==> Queueing(g, r')) && Matches(r', map[n := Some(o)])
            && (forall x :: x in r' && x !in r ==> r'[x] == QUEUED)
            && (!p.work.revisit && p.work.k == |PlanDeps(g, p)| ==> Spread(g, r, r', Targets(g, n), Targets(g, n)))
  {
    var r := w.records[n := o];
    hide DecideNode, Spread, Targets;
    CommitGrown(g, r, n, p.work.enqueue);
    CommitQueues(g, r, n, p.work.enqueue);
    if !p.work.revisit && p.work.k == |PlanDeps(g, p)| {
      forall d | d in Outgoing(g.edges, n) ensures d in p.work.enqueue {
        var i :| 0 <= i < |Outgoing(g.edges, n)| && Outgoing(g.edges, n)[i] == d;
      }
      CommitSpread(g, r, n, p.work.enqueue);
    }
  }

  /** A commit of a completion that advances the run. */
  lemma CommitAdvances(g: Graph, s: RunState, n: string, o: Record, w: World, pid: nat, w': World)
    requires Wired(g) && Stage(g, s, n, o, w, pid) && w.procs[pid].work.Planning? && w.procs[pid].work.k == |PlanDeps(g, w.procs[pid])|
    requires Interleaving.Pending(w.records, n) && w.run.Alive? && !IsFatal(g, n, o) && s.status == Running
    requires w' == Commit(g, w, pid, w.procs[pid])
    ensures Stage(g, s, n, o, w', pid)
  {
    var p := w.procs[pid];
    assert PlanDeps(g, p) == Outgoing(g.edges, n) && Advances(g, n, o.status) && p.node == n && p.outcome == o && Executed(o);
    assert w.records == s.records && w.terminals == s.terminals && Planned(g, w.records, p);
    hide Grown, Matches, EnqueueAll, Outgoing, DecideNode, Queueing, Planned, FailurePropagates, Spread, RunVerdict, Concluded, PlanDeps, Underway, Advances;
    CommitWrites(g, w, p, n, o);
    hide Stage;
    if p.work.revisit {
      hide Finished;
      LoopStarts(g, s, n, o, w', w'.procs[pid]);
      LoopStage(g, s, n, o, w', pid);
    } else {
      if w'.procs[pid].check.Idle? { CheckedIsConcluded(g, s, w'); }
      DoneStage(g, s, n, o, w', pid);
    }
  }

  lemma LoopStage(g: Graph, s: RunState, n: string, o: Record, w: World, pid: nat)
    requires pid in w.procs && w.procs[pid].node == n && w.procs[pid].outcome == o && w.run.Alive? && Executed(o)
    requires w.procs[pid].work.Dispatching? && !IsTerminal(s.status) && !IsFatal(g, n, o) && Underway(g, s, n, o, w, w.procs[pid])
    ensures Stage(g, s, n, o, w, pid)
  {
    hide Underway, IsFatal;
  }

  lemma DoneStage(g: Graph, s: RunState, n: string, o: Record, w: World, pid: nat)
    requires pid in w.procs && w.procs[pid].node == n && w.procs[pid].outcome == o && w.run.Alive? && Executed(o)
    requires w.procs[pid].work.Done? && Finished(g, s, n, o, w, w.procs[pid].check)
    ensures Stage(g, s, n, o, w, pid)
  {
    hide Finished;
  }

  lemma CommitStage(g: Graph, s: RunState, n: string, o: Record, w: World, pid: nat, w': World)
    requires Wired(g) && Stage(g, s, n, o, w, pid) && w.procs[pid].work.Planning? && w.procs[pid].work.k >= |PlanDeps(g, w.procs[pid])|
    requires n in s.records && !IsTerminal(s.records[n].status) && (!IsTerminal(s.status) ==> s.status == Running)
    requires w' == Commit(g, w, pid, w.procs[pid])
    ensures Stage(g, s, n, o, w', pid)
  {
    AliveIsOpen(w, s);
    var p := w.procs[pid];
    if w.run.Alive? && !IsFatal(g, n, o) {
      CommitAdvances(g, s, n, o, w, pid, w');
    } else {
      if w.run.Alive? {
        assert PlanDeps(g, p) == [];
        HeadIn(p.work.enqueue);
        NothingEnqueued(s.records[n := o], p.work.enqueue);
      }
      hide EnqueueAll, Underway, FailurePropagates, Outgoing, DecideNode;
    }
  }

  lemma HeadIn(xs: seq<string>)
    ensures xs == [] || xs[0] in xs
  {
  }

  // ----- the whole call

  lemma TickStage(g: Graph, s: RunState, n: string, o: Record, w: World, pid: nat, w': World)
    requires Wired(g) && Stage(g, s, n, o, w, pid) && n in s.records && !IsTerminal(s.records[n].status)
    requires (!IsTerminal(s.status) ==> s.status == Running) && !(w.procs[pid].work.Done? && w.procs[pid].check.Idle?)
    requires w' == Apply(g, w, Tick(pid))
    ensures Stage(g, s, n, o, w', pid)
  {
    var p := w.procs[pid];
    WorkKinds(g, s, n, o, w, pid);
    hide Stage, TickCheck, TickPlanning, Commit, TickWriting, TickChecking, TickDispatching;
    if !p.check.Idle? {
      CheckStage(g, s, n, o, w, pid, w');
    } else {
      match p.work
      case Planning(_, _, _, _) => PlanTick(g, s, n, o, w, pid, w');
      case Writing => WritingStage(g, s, n, o, w, pid, w');
      case SkipWriting => WritingStage(g, s, n, o, w, pid, w');
      case Checking => CheckingStage(g, s, n, o, w, pid, w');
      case Dispatching(_, _, _) => DispatchStage(g, s, n, o, w, pid, w');
    }
  }

  lemma PlanTick(g: Graph, s: RunState, n: string, o: Record, w: World, pid: nat, w': World)
    requires Wired(g) && Stage(g, s, n, o, w, pid) && n in s.records && !IsTerminal(s.records[n].status)
    requires (!IsTerminal(s.status) ==> s.status == Running) && w.procs[pid].work.Planning? && w' == TickPlanning(g, w, pid, w.procs[pid])
    ensures Stage(g, s, n, o, w', pid)
  {
    StageIn(g, s, n, o, w, pid);
    hide Stage, Commit, PlanDeps;
    if w.procs[pid].work.k >= |PlanDeps(g, w.procs[pid])| { CommitStage(g, s, n, o, w, pid, w'); }
    else { PlanningStage(g, s, n, o, w, pid, w'); }
  }

  lemma WorkKinds(g: Graph, s: RunState, n: string, o: Record, w: World, pid: nat)
    requires Stage(g, s, n, o, w, pid)
    ensures var p := w.procs[pid];
            && (p.work.Dispatching? ==> !IsTerminal(s.status))
            && (p.work.Planning? || p.work.Writing? || p.work.SkipWriting? || p.work.Checking? || p.work.Dispatching? || p.work.Done?)
  {
  }

  /** Only call `pid` moves, until it returns or the stretch ends. */
  ghost predicate Solo(g: Graph, tr: seq<World>, pid: nat) {
    tr != [] && forall i, j :: 0 <= i < j < |tr| && j == i + 1 ==> Moves(g, tr[i], tr[j], pid)
  }

  ghost predicate Moves(g: Graph, w: World, w': World, pid: nat) {
    pid in w.procs && w' == Apply(g, w, Tick(pid))
  }

  /** How a call is started. */
  ghost predicate StartsCall(g: Graph, w: World, w': World, pid: nat, n: string, o: Record) {
    || (Enabled(g, w, Event.Plan(pid, n, o)) && w' == Apply(g, w, Event.Plan(pid, n, o)))
    || (Enabled(g, w, Advance(pid, n, o)) && w' == Apply(g, w, Advance(pid, n, o)))
    || (Enabled(g, w, SwitchOff(pid, n)) && w' == Apply(g, w, SwitchOff(pid, n)) && o == SKIPPED)
  }

  lemma StartStage(g: Graph, w: World, w': World, pid: nat, n: string, o: Record)
    requires StartsCall(g, w, w', pid, n, o) && (w.run.Ended? ==> IsTerminal(w.run.status))
    ensures Stage(g, Seen(w), n, o, w', pid)
  {
    hide Underway, Finished;
  }

  lemma {:induction false} SoloStages(g: Graph, s: RunState, n: string, o: Record, tr: seq<World>, pid: nat, i: nat)
    requires Wired(g) && Solo(g, tr, pid) && Stage(g, s, n, o, tr[0], pid) && n in s.records && !IsTerminal(s.records[n].status)
    requires (!IsTerminal(s.status) ==> s.status == Running) && i < |tr| && pid in tr[i].procs
    ensures Stage(g, s, n, o, tr[i], pid)
  {
    hide Stage, Apply;
    if i > 0 {
      assert Moves(g, tr[i - 1], tr[i], pid);
      SoloStages(g, s, n, o, tr, pid, i - 1);
      StillIn(g, tr[i - 1], pid);
      TickStage(g, s, n, o, tr[i - 1], pid, tr[i]);
    }
  }

  /** A call leaves exactly when it is done and has no check on its way. */
  lemma StillIn(g: Graph, w: World, pid: nat)
    requires pid in w.procs
    ensures pid in Apply(g, w, Tick(pid)).procs <==> !(w.procs[pid].work.Done? && w.procs[pid].check.Idle?)
    ensures w.procs[pid].work.Done? && w.procs[pid].check.Idle? ==> Seen(Apply(g, w, Tick(pid))) == Seen(w)
  {
    hide NextProbe, Decide, View, Lookup, RunVerdict, EnqueueAll, Advances, Conclude, Incoming, Outgoing, Bump;
  }

  /**
    The refinement: from any state of the store, with whatever other calls standing still, a call that is started
    for a pending node and takes its steps until it returns is one `PassStep`, as the methods
    `CompleteThenAdvance`, `CompleteInOneTransaction` and `SkipNode` are.
   */
  lemma SoloCallIsPass(g: Graph, w: World, tr: seq<World>, pid: nat, n: string, o: Record)
    requires Wired(g) && Interleaving.Pending(w.records, n) && (w.run.Ended? ==> IsTerminal(w.run.status))
    requires Solo(g, tr, pid) && StartsCall(g, w, tr[0], pid, n, o) && pid !in tr[|tr| - 1].procs
    ensures PassStep(g, Seen(w), n, o, Seen(tr[|tr| - 1]))
  {
    StartStage(g, w, tr[0], pid, n, o);
    hide Stage, Apply, StartsCall, PassStep;
    var i := |tr| - 2;
    assert pid in tr[0].procs by { StageIn(g, Seen(w), n, o, tr[0], pid); }
    assert Moves(g, tr[i], tr[i + 1], pid);
    SoloStages(g, Seen(w), n, o, tr, pid, i);
    StillIn(g, tr[i], pid);
    StageFinished(g, Seen(w), n, o, tr[i], pid);
    FinishedIsPass(g, Seen(w), n, o, tr[i]);
  }

  lemma StageIn(g: Graph, s: RunState, n: string, o: Record, w: World, pid: nat)
    requires Stage(g, s, n, o, w, pid)
    ensures pid in w.procs
  {
  }

  lemma StageFinished(g: Graph, s: RunState, n: string, o: Record, w: World, pid: nat)
    requires Stage(g, s, n, o, w, pid) && w.procs[pid].work.Done? && w.procs[pid].check.Idle?
    ensures Finished(g, s, n, o, w, Idle)
  {
  }
}
