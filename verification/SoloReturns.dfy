/**
  Every call of the interleaved dispatcher that keeps getting turns returns, whatever the others do meanwhile; and
  what it has done then if nothing disturbed it: a completion or a switch-off one pass, a cancel the cancellation of
  what was pending.
 */
module SoloReturns {
  import opened Graphs
  import opened Decisions
  import opened RunStores
  import opened Dispatcher
  import opened Interleaving
  import opened SoloCalls

  // ----- every call returns

  function WorkRank(work: Work): nat {
    match work
    case Planning(_, _, _, _) => 4
    case Writing => 3
    case SkipWriting => 3
    case Flipping => 3
    case Checking => 2
    case Dispatching(_, _, _) => 1
    case Sweeping(_) => 1
    case Done => 0
  }

  function CheckRank(check: Check): nat {
    match check
    case Idle => 0
    case Publishing(_) => 1
    case Finalizing(_, _) => 2
    case Listing => 3
  }

  /** What the loops on the stack still have to look at, and their own ends. */
  function StackRest(g: Graph, stack: seq<Frame>): nat {
    if stack == [] then 0
    else
      var top := stack[|stack| - 1];
      var deps := |Outgoing(g.edges, top.node)|;
      StackRest(g, stack[..|stack| - 1]) + 1 + (if top.k < deps then deps - top.k else 0)
  }

  function Froms(g: Graph): set<string> {
    set e | e in g.edges :: e.from
  }

  function Unread(g: Graph, memo: Memo): nat {
    |Froms(g) - memo.Keys|
  }

  function Unwritten(g: Graph, r: Records): nat {
    |Ids(g.nodes) - r.Keys|
  }

  function Beyond(k: nat, n: nat): nat {
    if k < n then n - k else 0
  }

  datatype Rest = Rest(work: nat, writes: nat, looks: nat, fetches: nat, check: nat)

  function RestOf(g: Graph, r: Records, p: Proc): (m: Rest)
    ensures m.work == WorkRank(p.work) && m.check == CheckRank(p.check)
  {
    match p.work
    case Planning(seen, k, _, _) => Rest(WorkRank(p.work), 0, Beyond(k, |PlanDeps(g, p)|), Unread(g, seen), CheckRank(p.check))
    case Dispatching(memo, stack, _) => Rest(WorkRank(p.work), Unwritten(g, r), StackRest(g, stack), Unread(g, memo), CheckRank(p.check))
    case Sweeping(k) => Rest(WorkRank(p.work), 0, Beyond(k, |g.nodes|), 0, CheckRank(p.check))
    case _ => Rest(WorkRank(p.work), 0, 0, 0, CheckRank(p.check))
  }

  predicate Less(a: Rest, b: Rest) {
    || a.work < b.work
    || (a.work == b.work && a.writes < b.writes)
    || (a.work == b.work && a.writes == b.writes && a.looks < b.looks)
    || (a.work == b.work && a.writes == b.writes && a.looks == b.looks && a.fetches < b.fetches)
    || (a.work == b.work && a.writes == b.writes && a.looks == b.looks && a.fetches == b.fetches && a.check < b.check)
  }

  lemma FewerLeft(s: set<string>, seen: set<string>, x: string)
    requires x in s && x !in seen
    ensures |s - (seen + {x})| < |s - seen|
  {
    assert s - (seen + {x}) == (s - seen) - {x};
  }

  lemma BumpRest(g: Graph, stack: seq<Frame>)
    requires stack != [] && stack[|stack| - 1].k < |Outgoing(g.edges, stack[|stack| - 1].node)|
    ensures StackRest(g, Bump(stack)) < StackRest(g, stack)
  {
    var moved := Bump(stack);
    assert moved[..|moved| - 1] == stack[..|stack| - 1];
    hide Outgoing;
  }

  /** A look reads a predecessor it has not read yet. */
  lemma ProbeReadsLess(g: Graph, memo: Memo, d: string, v: Option<Record>)
    requires NextProbe(memo, Incoming(g.edges, d)).Read?
    ensures Unread(g, memo[NextProbe(memo, Incoming(g.edges, d)).id := v]) < Unread(g, memo)
  {
    ProbeReadsNew(memo, Incoming(g.edges, d));
    var x := NextProbe(memo, Incoming(g.edges, d)).id;
    var e :| e in Incoming(g.edges, d) && e.from == x;
    assert e in g.edges && x in Froms(g);
    assert memo[x := v].Keys == memo.Keys + {x};
    FewerLeft(Froms(g), memo.Keys, x);
  }

  lemma WritesLess(g: Graph, r: Records, d: string, rec: Record)
    requires d in Ids(g.nodes) && d !in r
    ensures Unwritten(g, r[d := rec]) < Unwritten(g, r)
  {
    assert r[d := rec].Keys == r.Keys + {d};
    FewerLeft(Ids(g.nodes), r.Keys, d);
  }

  lemma CheckRests(g: Graph, r: Records, p: Proc, p': Proc)
    requires p' == p.(check := p'.check) && CheckRank(p'.check) < CheckRank(p.check)
    ensures Less(RestOf(g, r, p'), RestOf(g, r, p))
  {
    SameDeps(g, p, p');
    hide PlanDeps, StackRest, Unread, Unwritten, CheckRank, WorkRank;
  }

  lemma WorkRests(g: Graph, r: Records, r': Records, p: Proc, p': Proc)
    requires WorkRank(p'.work) < WorkRank(p.work)
    ensures Less(RestOf(g, r', p'), RestOf(g, r, p))
  {
    hide PlanDeps, StackRest, Unread, Unwritten, WorkRank, CheckRank, RestOf;
  }

  lemma PlanRests(g: Graph, r: Records, p: Proc, p': Proc)
    requires p.work.Planning? && p'.work.Planning? && p'.node == p.node && p'.outcome == p.outcome
    requires || (p.work.k < |PlanDeps(g, p)| && p'.work.k == p.work.k + 1)
             || (p'.work.k == p.work.k && Unread(g, p'.work.seen) < Unread(g, p.work.seen))
    ensures Less(RestOf(g, r, p'), RestOf(g, r, p))
  {
    SameDeps(g, p, p');
    hide PlanDeps, Unread, CheckRank;
  }

  lemma DispatchRests(g: Graph, r: Records, r': Records, p: Proc, p': Proc)
    requires p.work.Dispatching? && p'.work.Dispatching?
    requires || Unwritten(g, r') < Unwritten(g, r)
             || (r' == r && StackRest(g, p'.work.stack) < StackRest(g, p.work.stack))
             || (r' == r && p'.work.stack == p.work.stack && Unread(g, p'.work.memo) < Unread(g, p.work.memo))
    ensures Less(RestOf(g, r', p'), RestOf(g, r, p))
  {
    hide StackRest, Unread, Unwritten, CheckRank;
  }

  ghost predicate Lighter(g: Graph, w: World, p: Proc, w': World, pid: nat) {
    pid in w'.procs && Less(RestOf(g, w'.records, w'.procs[pid]), RestOf(g, w.records, p))
  }

  lemma CheckTickRests(g: Graph, w: World, pid: nat, p: Proc, w': World)
    requires !p.check.Idle? && w' == TickCheck(g, w, pid, p)
    ensures Lighter(g, w, p, w', pid)
  {
    hide RunVerdict, RestOf, Less;
    CheckRests(g, w.records, p, w'.procs[pid]);
  }

  lemma PlanTickRests(g: Graph, w: World, pid: nat, p: Proc, w': World)
    requires p.work.Planning? && w' == TickPlanning(g, w, pid, p)
    ensures Lighter(g, w, p, w', pid)
  {
    var deps := PlanDeps(g, p);
    hide PlanDeps, EnqueueAll, Conclude, Decide, View, RestOf, Less, Incoming, Lookup, NextProbe, Unread, Outgoing;
    if p.work.k < |deps| {
      var inc := Incoming(g.edges, deps[p.work.k]);
      if NextProbe(p.work.seen, inc).Read? {
        ProbeReadsLess(g, p.work.seen, deps[p.work.k], Lookup(w.records, NextProbe(p.work.seen, inc).id));
      }
      PlanRests(g, w.records, p, w'.procs[pid]);
    } else {
      WorkRests(g, w.records, w'.records, p, w'.procs[pid]);
    }
  }

  lemma DecidedTickRests(g: Graph, w: World, pid: nat, p: Proc, d: string, decision: Decision, w': World)
    requires p.work.Dispatching? && p.work.stack != [] && d in Ids(g.nodes) && w' == TickDecided(g, w, pid, p, d, decision)
    requires StackRest(g, Bump(p.work.stack)) < StackRest(g, p.work.stack)
    ensures Lighter(g, w, p, w', pid)
  {
    hide StackRest, Bump, Ids, Unread, Unwritten, RestOf, Less;
    if d !in w.records {
      WritesLess(g, w.records, d, QUEUED);
      WritesLess(g, w.records, d, SKIPPED);
    }
    DispatchRests(g, w.records, w'.records, p, w'.procs[pid]);
  }

  lemma LookTickRests(g: Graph, w: World, pid: nat, p: Proc, x: string, d: string, w': World)
    requires p.work.Dispatching? && LooksAt(g, p, x, d) && d in Ids(g.nodes) && w' == TickDispatching(g, w, pid, p)
    ensures Lighter(g, w, p, w', pid)
  {
    BumpRest(g, p.work.stack);
    hide Decide, View, StackRest, Incoming, Outgoing, Lookup, NextProbe, Bump, Ids, Unread, Unwritten, RestOf, Less, TickDecided;
    match NextProbe(p.work.memo, Incoming(g.edges, d)) {
      case Read(y) =>
        ProbeReadsLess(g, p.work.memo, d, Lookup(w.records, y));
        DispatchRests(g, w.records, w'.records, p, w'.procs[pid]);
      case Waits =>
        DispatchRests(g, w.records, w'.records, p, w'.procs[pid]);
      case Settled =>
        hide Lighter;
        DecidedTickRests(g, w, pid, p, d, Decide(View(p.work.memo), Incoming(g.edges, d)), w');
    }
  }

  lemma PopTickRests(g: Graph, w: World, pid: nat, p: Proc, w': World)
    requires p.work.Dispatching? && p.work.stack != [] && w' == TickPop(g, w, pid, p)
    ensures Lighter(g, w, p, w', pid)
  {
    hide Conclude, Outgoing, Unread, Unwritten, RestOf, Less;
    if |p.work.stack| > 1 { DispatchRests(g, w.records, w'.records, p, w'.procs[pid]); }
    else { WorkRests(g, w.records, w'.records, p, w'.procs[pid]); }
  }

  lemma DispatchTickRests(g: Graph, w: World, pid: nat, p: Proc, w': World)
    requires Wired(g) && p.work.Dispatching? && w' == TickDispatching(g, w, pid, p)
    ensures Lighter(g, w, p, w', pid)
  {
    var stack := p.work.stack;
    if stack == [] {
      hide RestOf, Less;
      WorkRests(g, w.records, w'.records, p, w'.procs[pid]);
    } else {
      var top := stack[|stack| - 1];
      var deps := Outgoing(g.edges, top.node);
      if top.k < |deps| {
        assert deps[top.k] in deps && deps[top.k] in Ids(g.nodes) && LooksAt(g, p, top.node, deps[top.k]);
        hide *;
        LookTickRests(g, w, pid, p, top.node, deps[top.k], w');
      } else {
        assert w' == TickPop(g, w, pid, p);
        hide *;
        PopTickRests(g, w, pid, p, w');
      }
    }
  }

  /** Each step of a call leaves it less to do. */
  lemma TickRests(g: Graph, w: World, pid: nat, p: Proc, w': World)
    requires Wired(g) && pid in w.procs && w.procs[pid] == p && w' == Apply(g, w, Tick(pid))
    ensures pid in w'.procs ==> Lighter(g, w, p, w', pid)
  {
    hide RestOf, Less, TickPlanning, TickDispatching, TickCheck, Advances, Conclude;
    if !p.check.Idle? {
      CheckTickRests(g, w, pid, p, w');
    } else {
      match p.work
      case Planning(_, _, _, _) => PlanTickRests(g, w, pid, p, w');
      case Dispatching(_, _, _) => DispatchTickRests(g, w, pid, p, w');
      case Sweeping(k) => SweepTickRests(g, w, pid, p, w');
      case Done =>
      case _ => WorkRests(g, w.records, w'.records, p, w'.procs[pid]);
    }
  }

  lemma SweepTickRests(g: Graph, w: World, pid: nat, p: Proc, w': World)
    requires p.work.Sweeping? && w' == TickSweeping(g, w, pid, p)
    ensures Lighter(g, w, p, w', pid)
  {
  }

  // ----- under any schedule that is fair to it

  /** Steps of others leave a call as it is, and only ever add records. */
  lemma OtherEvent(g: Graph, w: World, ev: Event, w': World, pid: nat)
    requires Enabled(g, w, ev) && w' == Apply(g, w, ev) && pid in w.procs && ev != Tick(pid)
    ensures pid in w'.procs && w'.procs[pid] == w.procs[pid] && w.records.Keys <= w'.records.Keys
  {
    hide RunVerdict, PlanDeps, EnqueueAll, Conclude, Decide, View, Incoming, Outgoing, Lookup, NextProbe, Bump, Advances;
    match ev {
      case Tick(other) =>
        var p := w.procs[other];
        if p.check.Idle? && p.work.Planning? && p.work.k >= |PlanDeps(g, p)| {
          EnqueueGrows(w.records[p.node := p.outcome], p.work.enqueue);
        }
      case _ =>
    }
  }

  lemma EnqueueGrows(r: Records, ids: seq<string>)
    ensures r.Keys <= EnqueueAll(r, ids).Keys
  {
  }

  lemma MoreWritten(g: Graph, r: Records, r': Records, p: Proc)
    requires r.Keys <= r'.Keys
    ensures RestOf(g, r', p) == RestOf(g, r, p) || Less(RestOf(g, r', p), RestOf(g, r, p))
  {
    FewerUnwritten(g, r, r');
    hide StackRest, Unread, Unwritten, PlanDeps, CheckRank;
  }

  lemma FewerUnwritten(g: Graph, r: Records, r': Records)
    requires r.Keys <= r'.Keys
    ensures Unwritten(g, r') <= Unwritten(g, r)
  {
    var a, b := Ids(g.nodes) - r'.Keys, Ids(g.nodes) - r.Keys;
    SubsetSize(a, b);
  }

  lemma SubsetSize(a: set<string>, b: set<string>)
    requires a <= b
    ensures |a| <= |b|
  {
    assert b == a + (b - a) && a !! (b - a);
    assert |b| == |a| + |b - a|;
  }

  /** At step `j` call `pid` has returned or takes its turn. */
  ghost predicate TurnAt(g: Graph, tr: nat -> World, pid: nat, j: nat) {
    pid !in tr(j).procs || Moves(g, tr(j), tr(j + 1), pid)
  }

  ghost predicate TurnFrom(g: Graph, tr: nat -> World, pid: nat, i: nat) {
    exists j: nat :: i <= j && TurnAt(g, tr, pid, j)
  }

  ghost predicate StepAt(g: Graph, tr: nat -> World, j: nat) {
    Next(g, tr(j), tr(j + 1))
  }

  /** A schedule without end in which call `pid` always gets another turn. */
  ghost predicate FairTo(g: Graph, tr: nat -> World, pid: nat) {
    && (forall j: nat :: StepAt(g, tr, j))
    && (forall i: nat :: TurnFrom(g, tr, pid, i))
  }

  /** No step gives a call more to do, and its own steps leave it less. */
  lemma StepRests(g: Graph, w: World, w': World, pid: nat, m: Rest, m': Rest)
    requires Wired(g) && Next(g, w, w') && pid in w.procs && pid in w'.procs
    requires m == RestOf(g, w.records, w.procs[pid]) && m' == RestOf(g, w'.records, w'.procs[pid])
    ensures (m' == m && !Moves(g, w, w', pid)) || Less(m', m)
  {
    if Moves(g, w, w', pid) {
      TickRests(g, w, pid, w.procs[pid], w');
      hide *;
      LighterIs(g, w, w.procs[pid], w', pid, m, m');
    } else {
      var ev :| Enabled(g, w, ev) && w' == Apply(g, w, ev);
      OtherEvent(g, w, ev, w', pid);
      hide *;
      MoreWritten(g, w.records, w'.records, w.procs[pid]);
    }
  }

  lemma LighterIs(g: Graph, w: World, p: Proc, w': World, pid: nat, m: Rest, m': Rest)
    requires Lighter(g, w, p, w', pid) && m == RestOf(g, w.records, p) && m' == RestOf(g, w'.records, w'.procs[pid])
    ensures Less(m', m)
  {
    hide RestOf, Less;
  }

  lemma FairTurn(g: Graph, tr: nat -> World, pid: nat, i: nat) returns (turn: nat)
    requires FairTo(g, tr, pid)
    ensures i <= turn && TurnAt(g, tr, pid, turn) && StepAt(g, tr, i)
  {
    hide TurnAt, StepAt;
    assert TurnFrom(g, tr, pid, i);
    turn :| i <= turn && TurnAt(g, tr, pid, turn);
  }

  lemma {:induction false} ReturnsBy(g: Graph, tr: nat -> World, pid: nat, i: nat, turn: nat, m: Rest) returns (k: nat)
    requires Wired(g) && FairTo(g, tr, pid) && i <= turn && TurnAt(g, tr, pid, turn)
    requires pid in tr(i).procs && m == RestOf(g, tr(i).records, tr(i).procs[pid])
    ensures i <= k && pid !in tr(k).procs
    decreases m.work, m.writes, m.looks, m.fetches, m.check, turn - i
  {
    hide Moves, Next, RestOf, FairTo;
    var w, w' := tr(i), tr(i + 1);
    var _ := FairTurn(g, tr, pid, i);
    var later := FairTurn(g, tr, pid, i + 1);
    if pid !in w'.procs {
      k := i + 1;
    } else {
      var m' := RestOf(g, w'.records, w'.procs[pid]);
      StepRests(g, w, w', pid, m, m');
      k := ReturnsBy(g, tr, pid, i + 1, if Less(m', m) then later else turn, m');
    }
  }

  /** Whatever the other calls do meanwhile, a call that always gets another turn returns. */
  lemma EveryCallReturns(g: Graph, tr: nat -> World, pid: nat, i: nat)
    requires Wired(g) && FairTo(g, tr, pid)
    ensures exists k: nat :: i <= k && pid !in tr(k).procs
  {
    hide FairTo, TurnAt, RestOf;
    if pid in tr(i).procs {
      var turn := FairTurn(g, tr, pid, i);
      var k := ReturnsBy(g, tr, pid, i, turn, RestOf(g, tr(i).records, tr(i).procs[pid]));
    }
  }

  // ----- alone

  /** Call `pid`, moving alone from `w` on, has returned. */
  ghost predicate Returns(g: Graph, tr: seq<World>, w: World, pid: nat) {
    Solo(g, tr, pid) && tr[0] == w && pid !in tr[|tr| - 1].procs
  }

  /** Any call of any kind, left to itself, returns. */
  lemma {:induction false} SoloCallReturns(g: Graph, w: World, pid: nat, m: Rest) returns (tr: seq<World>)
    requires Wired(g) && pid in w.procs && m == RestOf(g, w.records, w.procs[pid])
    ensures Returns(g, tr, w, pid)
    decreases m.work, m.writes, m.looks, m.fetches, m.check
  {
    var w' := Apply(g, w, Tick(pid));
    TickRests(g, w, pid, w.procs[pid], w');
    hide Apply, RestOf;
    if pid in w'.procs {
      hide Returns;
      var rest := SoloCallReturns(g, w', pid, RestOf(g, w'.records, w'.procs[pid]));
      tr := [w] + rest;
      ReturnsLater(g, w, w', pid, rest);
    } else {
      tr := [w, w'];
    }
  }

  lemma ReturnsLater(g: Graph, w: World, w': World, pid: nat, rest: seq<World>)
    requires pid in w.procs && w' == Apply(g, w, Tick(pid)) && Returns(g, rest, w', pid)
    ensures Returns(g, [w] + rest, w, pid)
  {
    assert Moves(g, w, w', pid);
    hide Moves;
    var tr := [w] + rest;
    assert tr[0] == w && tr[|tr| - 1] == rest[|rest| - 1] && tr[1] == rest[0];
    forall i, j | 0 <= i < j < |tr| && j == i + 1 ensures Moves(g, tr[i], tr[j], pid) {
      if i > 0 { assert tr[i] == rest[i - 1] && tr[j] == rest[j - 1]; } else { assert tr[i] == w && tr[j] == w'; }
    }
  }

  /** Every call for a pending node can run through by itself, and is then one `PassStep`. */
  lemma CallRunsAsPass(g: Graph, w: World, w0: World, pid: nat, n: string, o: Record) returns (tr: seq<World>)
    requires Wired(g) && Pending(w.records, n) && (w.run.Ended? ==> IsTerminal(w.run.status))
    requires StartsCall(g, w, w0, pid, n, o)
    ensures Returns(g, tr, w0, pid) && PassStep(g, Seen(w), n, o, Seen(tr[|tr| - 1]))
  {
    StartStage(g, w, w0, pid, n, o);
    StageIn(g, Seen(w), n, o, w0, pid);
    hide Stage, StartsCall, PassStep, RestOf;
    tr := SoloCallReturns(g, w0, pid, RestOf(g, w0.records, w0.procs[pid]));
    SoloCallIsPass(g, w, tr, pid, n, o);
  }

  // ----- a cancel

  /** The records once the sweep has visited the first `k` nodes. */
  ghost predicate SweptTo(g: Graph, r: Records, r': Records, k: nat)
    requires k <= |g.nodes|
  {
    && r'.Keys == r.Keys
    && forall n :: n in r ==> r'[n] == if n in Ids(g.nodes[..k]) && Pending(r, n) then Record(Cancelled, None) else r[n]
  }

  ghost predicate CancelStage(g: Graph, w: World, w': World, pid: nat) {
    && pid in w'.procs
    && var p := w'.procs[pid];
       match p.work
       case Flipping => p.check.Idle? && Seen(w') == Seen(w) && w'.run == w.run
       case Sweeping(k) =>
         && p.check.Idle? && w.run.Alive? && w'.run == Ended(Cancelled, OnCancel) && w'.terminals == w.terminals
         && k <= |g.nodes| && SweptTo(g, w.records, w'.records, k)
       case Done =>
         if w.run.Ended? then p.check.Idle? && Seen(w') == Seen(w) && w'.run == w.run
         else
           && w'.run == Ended(Cancelled, OnCancel) && SweptTo(g, w.records, w'.records, |g.nodes|)
           && (p.check == Publishing(Cancelled) || p.check.Idle?)
           && w'.terminals == if p.check.Idle? then w.terminals + [Cancelled] else w.terminals
       case _ => false
  }

  lemma SweepGoesOn(g: Graph, r: Records, r': Records, k: nat)
    requires k < |g.nodes| && SweptTo(g, r, r', k)
    ensures var n := g.nodes[k].id;
            SweptTo(g, r, if Pending(r', n) then r'[n := CANCELLED] else r', k + 1)
  {
    var n := g.nodes[k].id;
    forall x ensures x in Ids(g.nodes[..k + 1]) <==> x in Ids(g.nodes[..k]) || x == n {
      if x in Ids(g.nodes[..k + 1]) {
        var i :| 0 <= i < k + 1 && g.nodes[..k + 1][i].id == x;
        if i < k { assert g.nodes[..k][i].id == x; }
      }
      if x in Ids(g.nodes[..k]) {
        var i :| 0 <= i < k && g.nodes[..k][i].id == x;
        assert g.nodes[..k + 1][i].id == x;
      }
      assert g.nodes[..k + 1][k].id == n;
    }
    hide Ids;
  }

  lemma CancelTick(g: Graph, w: World, w1: World, pid: nat, w2: World)
    requires CancelStage(g, w, w1, pid) && w2 == Apply(g, w1, Tick(pid)) && pid in w2.procs
    ensures CancelStage(g, w, w2, pid)
  {
    var p := w1.procs[pid];
    if p.work.Sweeping? && p.work.k < |g.nodes| { SweepGoesOn(g, w.records, w1.records, p.work.k); }
    hide SweptTo, Pending, TickPlanning, TickDispatching, TickWriting, TickChecking, RunVerdict;
    if p.work.Flipping? && w.run.Alive? { SweepStarts(g, w.records); }
  }

  lemma SweepStarts(g: Graph, r: Records)
    ensures SweptTo(g, r, r, 0)
  {
  }

  lemma {:induction false} SoloCancelStages(g: Graph, w: World, tr: seq<World>, pid: nat, i: nat)
    requires Solo(g, tr, pid) && CancelStage(g, w, tr[0], pid) && i < |tr| && pid in tr[i].procs
    ensures CancelStage(g, w, tr[i], pid)
  {
    hide CancelStage, Apply;
    if i > 0 {
      assert Moves(g, tr[i - 1], tr[i], pid);
      SoloCancelStages(g, w, tr, pid, i - 1);
      CancelTick(g, w, tr[i - 1], pid, tr[i]);
    }
  }

  /**
    A cancel that nothing disturbs: a run that is over stays as it is; a run that is not becomes Cancelled with
    each of its pending nodes, its finished nodes keep their records, and one event says so.
   */
  lemma SoloCancel(g: Graph, w: World, pid: nat) returns (tr: seq<World>)
    requires Wired(g) && Enabled(g, w, Cancel(pid))
    ensures Returns(g, tr, Apply(g, w, Cancel(pid)), pid)
    ensures var w' := tr[|tr| - 1];
            if w.run.Ended? then w'.run == w.run && w'.records == w.records && w'.terminals == w.terminals
            else
              && w'.run == Ended(Cancelled, OnCancel) && w'.terminals == w.terminals + [Cancelled] && w'.records.Keys == w.records.Keys
              && forall n :: n in w.records ==>
                   w'.records[n] == if n in Ids(g.nodes) && Pending(w.records, n) then Record(Cancelled, None) else w.records[n]
  {
    var w0 := Apply(g, w, Cancel(pid));
    tr := SoloCallReturns(g, w0, pid, RestOf(g, w0.records, w0.procs[pid]));
    assert CancelStage(g, w, tr[0], pid);
    hide Apply, RestOf, SweptTo;
    var i := |tr| - 2;
    assert Moves(g, tr[i], tr[i + 1], pid);
    SoloCancelStages(g, w, tr, pid, i);
    StillIn(g, tr[i], pid);
    SameRun(g, tr[i], pid);
    CancelEnds(g, w, tr[i], pid);
  }

  lemma SameRun(g: Graph, w: World, pid: nat)
    requires pid in w.procs && w.procs[pid].work.Done? && w.procs[pid].check.Idle?
    ensures var w' := Apply(g, w, Tick(pid)); w'.run == w.run && w'.records == w.records && w'.terminals == w.terminals
  {
  }

  lemma CancelEnds(g: Graph, w: World, w': World, pid: nat)
    requires CancelStage(g, w, w', pid) && w'.procs[pid].work.Done? && w'.procs[pid].check.Idle?
    ensures if w.run.Ended? then w'.run == w.run && w'.records == w.records && w'.terminals == w.terminals
            else
              && w'.run == Ended(Cancelled, OnCancel) && w'.terminals == w.terminals + [Cancelled] && w'.records.Keys == w.records.Keys
              && forall n :: n in w.records ==>
                   w'.records[n] == if n in Ids(g.nodes) && Pending(w.records, n) then Record(Cancelled, None) else w.records[n]
  {
    assert g.nodes[..|g.nodes|] == g.nodes;
    hide Ids, Pending;
  }
}
