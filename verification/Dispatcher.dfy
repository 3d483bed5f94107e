/**
  The dispatcher's two ways of finishing a node: write the record and advance, or
  plan first and write everything in one transaction. Both run as one pass here,
  with nobody else writing in between; interleaved runs are in module Interleaving.
 */
module Dispatcher {
  import opened Graphs
  import opened Decisions
  import opened Passes
  import opened RunStores
  import opened Topologies

  /** `store` seen through a memo of `records` and known `misses`. */
  ghost function Overlay(records: Records, misses: set<string>, store: Records): Records {
    map x | x in records.Keys + (store.Keys - misses) :: if x in records then records[x] else store[x]
  }

  /** The predecessors one pass has read, and those it found missing. */
  class DispatchIndex {
    const topo: Topology
    var records: Records
    var misses: set<string>

    constructor (topo: Topology)
      ensures this.topo == topo && records == map[] && misses == {}
    {
      this.topo, records, misses := topo, map[], {};
    }

    /** The store as this index shows it: the memo first, the store for the rest. */
    ghost function View(store: Records): Records
      reads this
    {
      Overlay(records, misses, store)
    }

    /** Reading through the memo changes nothing that later reads can see. */
    method Pred(store: RunStore, id: string) returns (r: Option<Record>)
      modifies this
      ensures View(store.records) == old(View(store.records))
      ensures r == if id in View(store.records) then Some(View(store.records)[id]) else None
    {
      if id in records { return Some(records[id]); }
      if id in misses { return None; }
      if id !in store.records {
        misses := misses + {id};
        return None;
      }
      records := records[id := store.records[id]];
      return Some(records[id]);
    }

    method Put(id: string, rec: Record)
      modifies this
      ensures records == old(records)[id := rec] && misses == old(misses) - {id}
    {
      records, misses := records[id := rec], misses - {id};
    }
  }

  /** The memo may lag behind the store only where lagging cannot change a decision. */
  ghost predicate Coherent(view: Records, store: Records) {
    && (forall x :: x in view ==> x in store && view[x] == store[x])
    && (forall x :: x in store && x !in view ==> !IsTerminal(store[x].status) && !store[x].status.Awaiting?)
  }

  lemma OverlayOwnRecord(store: Records, c: string)
    requires c in store
    ensures Overlay(map[c := store[c]], {} - {c}, store) == store && Coherent(store, store)
  {
  }

  lemma CoherentEnqueue(records: Records, misses: set<string>, store: Records, d: string)
    requires Coherent(Overlay(records, misses, store), store) && d !in store
    ensures Coherent(Overlay(records, misses, store[d := QUEUED]), store[d := QUEUED])
  {
    assert forall x :: x in records ==> x in Overlay(records, misses, store);
  }

  lemma CoherentSkip(records: Records, misses: set<string>, store: Records, d: string)
    requires Coherent(Overlay(records, misses, store), store) && d !in store
    ensures Coherent(Overlay(records[d := SKIPPED], misses - {d}, store[d := SKIPPED]), store[d := SKIPPED])
  {
    assert forall x :: x in records ==> x in Overlay(records, misses, store);
    assert forall x :: x in store && x !in Overlay(records, misses, store) ==> x in misses;
  }

  lemma CoherentDecides(view: Records, store: Records, inc: seq<Edge>)
    requires Coherent(view, store)
    ensures Decide(view, inc) == Decide(store, inc)
  {
    forall e | e in inc ensures Open(view, e) == Open(store, e) {}
    if forall e :: e in inc ==> !Open(view, e) {
      forall e | e in inc ensures view[e.from] == store[e.from] {}
    }
  }

  /** What a scan of `es` has seen so far. */
  ghost predicate Tallied(view: Records, es: seq<Edge>, active: bool, refused: bool) {
    && (forall e :: e in es ==> !Open(view, e))
    && (active <==> exists e :: e in es && ClassifyEdge(view[e.from], e).Active?)
    && (refused <==> exists e :: e in es && Refuses(view[e.from], e))
  }

  lemma TallyStep(view: Records, es: seq<Edge>, e: Edge, active: bool, refused: bool)
    requires Tallied(view, es, active, refused) && !Open(view, e)
    ensures Tallied(view, es + [e], active || ClassifyEdge(view[e.from], e).Active?,
                    refused || Refuses(view[e.from], e))
  {
    var es' := es + [e];
    assert e in es' && forall x :: x in es' <==> x in es || x == e;
  }

  lemma TallyDecides(view: Records, inc: seq<Edge>, active: bool, refused: bool)
    requires Tallied(view, inc, active, refused)
    ensures Decide(view, inc) == if !refused && active then DepEnqueue else DepSkipped
  {
  }

  lemma OpenEdgeWaits(view: Records, inc: seq<Edge>, e: Edge)
    requires e in inc && Open(view, e)
    ensures Decide(view, inc) == DepWaiting
  {
  }

  /** One look at a dependent decides as a scan of all edges over everything the pass knows. */
  method AnalyzeDependent(g: Graph, store: RunStore, dep: string, ix: DispatchIndex) returns (d: Decision)
    requires Indexes(ix.topo, g.edges)
    modifies ix
    ensures ix.View(store.records) == old(ix.View(store.records))
    ensures d == DecideNode(g, ix.View(store.records), dep)
    ensures d.DepWaiting? <==> UndecidedInto(g, ix.View(store.records), dep)
    ensures d.DepEnqueue? <==> LiveInto(g, ix.View(store.records), dep)
  {
    var inc := At(ix.topo.incoming, dep);
    assert inc == Incoming(g.edges, dep);
    ghost var view := ix.View(store.records);
    var anyActive, anyBlocked, anyNotRouted := false, false, false;
    assert Tallied(view, inc[..0], false, false);
    hide Incoming, Overlay, ClassifyEdge, Tallied, Decide, Indexes, UndecidedInto, LiveInto;
    EnqueuedExactlyIfLive(g, view, dep);
    for k := 0 to |inc|
      invariant ix.View(store.records) == view
      invariant Tallied(view, inc[..k], anyActive, anyBlocked || anyNotRouted)
    {
      var e := inc[k];
      assert inc[..k + 1] == inc[..k] + [e];
      var pred := ix.Pred(store, e.from);
      if pred.None? {
        OpenEdgeWaits(view, inc, e);
        return DepWaiting;
      }
      var parked := pred.value.status.Awaiting?;
      if !IsTerminal(pred.value.status) && !parked {
        OpenEdgeWaits(view, inc, e);
        return DepWaiting;
      }
      if parked && ClassifyEdge(pred.value, e).Blocking? {
        OpenEdgeWaits(view, inc, e);
        return DepWaiting;
      }
      TallyStep(view, inc[..k], e, anyActive, anyBlocked || anyNotRouted);
      match ClassifyEdge(pred.value, e)
      case Active => anyActive := true;
      case Dormant =>
      case NotRouted => anyNotRouted := true;
      case Blocking => anyBlocked := true;
    }
    assert inc[..|inc|] == inc;
    TallyDecides(view, inc, anyActive, anyBlocked || anyNotRouted);
    if anyBlocked || anyNotRouted { return DepSkipped; }
    if !anyActive { return DepSkipped; }
    return DepEnqueue;
  }

  function Targets(g: Graph, n: string): set<string> {
    set x | x in Outgoing(g.edges, n)
  }

  /** A completion check inside a pass left the run alone, or ended it as the records demand. */
  ghost predicate RunMoved(g: Graph, s: RunState, s': RunState) {
    || (s'.status == s.status && s'.terminals == s.terminals)
    || (&& !IsTerminal(s.status) && RunVerdict(g, s'.records) == Some(s'.status)
        && s'.terminals == s.terminals + [s'.status])
  }

  lemma RunMovedCompose(g: Graph, a: RunState, b: RunState, c: RunState)
    requires Grows(b.records, c.records) && RunMoved(g, a, b) && RunMoved(g, b, c)
    ensures RunMoved(g, a, c)
  {
    if RunVerdict(g, b.records).Some? {
      VerdictIsFinal(g, g.nodes, b.records, c.records);
    }
  }

  ghost predicate Queueing(g: Graph, r: Records) {
    exists x :: x in r && x in Ids(g.nodes) && r[x] == QUEUED
  }

  /** The completion check: blame the failed node, or scan the records in node order. */
  method MaybeCompleteGraph(g: Graph, store: RunStore, last: string, lastStatus: Status)
    requires UniqueIds(g.nodes)
    modifies store
    ensures store.records == old(store.records)
    ensures var v := if lastStatus.Failed? && FailurePropagates(g, last) then Some(Failed)
                     else RunVerdict(g, store.records);
            if v.Some? && !IsTerminal(old(store.status))
            then store.status == v.value && store.terminals == old(store.terminals) + [v.value]
            else store.status == old(store.status) && store.terminals == old(store.terminals)
    ensures !IsTerminal(old(store.status)) && lastStatus.Failed? && Fatal(g, last) ==> store.status == Failed
    ensures && !IsTerminal(old(store.status)) && (lastStatus.Failed? ==> Tolerated(g, last))
            && (forall n :: n in g.nodes ==> Harmless(g, store.records, n.id))
            ==> store.status == Succeeded
  {
    VerdictOnFailures(g, store.records, last);
    hide Tolerated, FailurePropagates, Fatal, Harmless;
    var propagates := ScanFailurePropagates(g, last);
    if lastStatus.Failed? && propagates {
      FinalizeGraph(store, Failed);
      return;
    }
    var recs := store.records;
    for k := 0 to |g.nodes|
      invariant store.State() == old(store.State())
      invariant RunVerdict(g, recs) == Verdict(g, g.nodes[k..], recs)
    {
      var n := g.nodes[k];
      assert g.nodes[k..][0] == n && g.nodes[k..][1..] == g.nodes[k + 1..];
      if n.id !in recs || !IsTerminal(recs[n.id].status) {
        return;
      }
      var p := ScanFailurePropagates(g, n.id);
      if recs[n.id].status.Failed? && p {
        FinalizeGraph(store, Failed);
        return;
      }
    }
    FinalizeGraph(store, Succeeded);
  }

  /** The node is finished, and did not fail unless it may. */
  ghost predicate Harmless(g: Graph, r: Records, id: string) {
    id in r && IsTerminal(r[id].status) && (r[id].status.Failed? ==> Tolerated(g, id))
  }

  lemma VerdictOnFailures(g: Graph, r: Records, last: string)
    ensures Fatal(g, last) <==> FailurePropagates(g, last)
    ensures Tolerated(g, last) <==> !FailurePropagates(g, last)
    ensures (forall n :: n in g.nodes ==> Harmless(g, r, n.id)) ==> RunVerdict(g, r) == Some(Succeeded)
  {
    FatalOrTolerated(g, last);
    forall n | n in g.nodes ensures Tolerated(g, n.id) <==> !FailurePropagates(g, n.id) { FatalOrTolerated(g, n.id); }
    hide Tolerated, FailurePropagates, Fatal;
  }

  method FinalizeGraph(store: RunStore, s: Status)
    requires IsTerminal(s)
    modifies store
    ensures store.records == old(store.records)
    ensures if IsTerminal(old(store.status))
            then store.status == old(store.status) && store.terminals == old(store.terminals)
            else store.status == s && store.terminals == old(store.terminals) + [s]
  {
    var won := store.CompleteRun(s);
    if won { store.PublishTerminal(s); }
  }

  lemma SpreadGrows(g: Graph, r: Records, r': Records, t: set<string>, s: set<string>)
    requires Spread(g, r, r', t, s)
    ensures Grows(r, r')
  {
  }

  lemma SpreadKeepsQueueing(g: Graph, r: Records, r': Records, t: set<string>, s: set<string>)
    requires Spread(g, r, r', t, s) && Queueing(g, r)
    ensures Queueing(g, r')
  {
  }

  lemma SpreadPresent(g: Graph, r: Records, d: string)
    requires d in r
    ensures Spread(g, r, r, {d}, {d})
  {
  }

  lemma SpreadWaiting(g: Graph, r: Records, t: set<string>, d: string)
    requires DecideNode(g, r, d).DepWaiting?
    ensures Spread(g, r, r, t, {d})
  {
  }

  /** Queueing one dependent whose decision is "run". */
  lemma SpreadEnqueue(g: Graph, r: Records, r': Records, t: set<string>, d: string)
    requires d in t && d in Ids(g.nodes)
    requires d in r ==> r' == r
    requires d !in r ==> r' == r[d := QUEUED] && DecideNode(g, r, d).DepEnqueue?
    ensures Spread(g, r, r', t, {d})
  {
    if d !in r {
      PassKeepsDecision(g, r, r', d);
    }
  }

  /** Skipping one dependent and then passing over everything below it. */
  lemma SpreadSkip(g: Graph, r: Records, m: Records, r': Records, n: string)
    requires n in Ids(g.nodes) && n !in r && m == r[n := SKIPPED] && DecideNode(g, r, n).DepSkipped?
    requires Spread(g, m, r', Targets(g, n), Targets(g, n))
    ensures Spread(g, r, r', {n}, {n})
  {
    assert forall x :: x in r ==> x in m && x in r' && r'[x] == r[x];
    PassKeepsDecision(g, r, r', n);
    assert n in m && r'[n] == SKIPPED;
    forall d | d in r' && d !in r && d != n
      ensures BelowNewSkip(g, r, r', d)
    {
      assert d !in m;
      if d in Targets(g, n) {
        var e :| e in g.edges && e.from == n && e.to == d;
      } else {
        var e :| e in g.edges && e.to == d && e.from !in m && e.from in r' && r'[e.from] == SKIPPED;
      }
    }
    forall d | BelowNewSkip(g, r, r', d) && !DecideNode(g, r', d).DepWaiting?
      ensures d in r'
    {
      var e :| e in g.edges && e.to == d && e.from !in r && e.from in r' && r'[e.from] == SKIPPED;
      if e.from == n {
        assert d in Targets(g, n);
      } else {
        assert BelowNewSkip(g, m, r', d);
      }
    }
  }

  lemma FewerUnrecorded(g: Graph, r: Records, r': Records)
    requires r.Keys <= r'.Keys
    ensures |Ids(g.nodes) - r'.Keys| <= |Ids(g.nodes) - r.Keys|
    ensures (exists x :: x in Ids(g.nodes) && x in r' && x !in r) ==>
              |Ids(g.nodes) - r'.Keys| < |Ids(g.nodes) - r.Keys|
  {
    Smaller(Ids(g.nodes) - r'.Keys, Ids(g.nodes) - r.Keys);
  }

  lemma {:induction false} Smaller<T>(a: set<T>, b: set<T>)
    requires a <= b
    ensures |a| <= |b|
    ensures a != b ==> |a| < |b|
  {
    if a != b {
      var x :| x in b && x !in a;
      Smaller(a, b - {x});
    }
  }

  /** A stretch of a pass: records spread, and the run record moved only as the records demand. */
  ghost predicate Passed(g: Graph, s: RunState, s': RunState, touched: set<string>, settled: set<string>) {
    Spread(g, s.records, s'.records, touched, settled) && RunMoved(g, s, s')
  }

  lemma PassedNothing(g: Graph, s: RunState, t: set<string>)
    ensures Passed(g, s, s, t, {})
  {
    SpreadNothing(g, s.records, t);
  }

  lemma PassedGrows(g: Graph, a: RunState, b: RunState, t: set<string>, s: set<string>)
    requires Passed(g, a, b, t, s)
    ensures a.records.Keys <= b.records.Keys
  {
  }

  lemma PassedCompose(g: Graph, a: RunState, b: RunState, c: RunState,
                      t: set<string>, s1: set<string>, s2: set<string>)
    requires Passed(g, a, b, t, s1) && Passed(g, b, c, t, s2)
    ensures Passed(g, a, c, t, s1 + s2)
  {
    SpreadGrows(g, b.records, c.records, t, s2);
    RunMovedCompose(g, a, b, c);
    SpreadCompose(g, a.records, b.records, c.records, t, s1, s2);
  }

  function Elements(xs: seq<string>): set<string> {
    set x | x in xs
  }

  lemma ElementsSnoc(xs: seq<string>, k: nat)
    requires k < |xs|
    ensures Elements(xs[..k + 1]) == Elements(xs[..k]) + {xs[k]}
  {
    assert xs[..k + 1] == xs[..k] + [xs[k]];
  }

  /** The precondition of every dispatch method: a validated graph, its index, a truthful memo. */
  ghost predicate Ready(g: Graph, store: RunStore, ix: DispatchIndex)
    reads store, ix
  {
    && UniqueIds(g.nodes) && Wired(g) && Indexes(ix.topo, g.edges)
    && Coherent(ix.View(store.records), store.records)
  }

  lemma TargetsOf(g: Graph, topo: Topology, n: string)
    requires Indexes(topo, g.edges) && Wired(g)
    ensures var deps := At(topo.outgoing, n);
            && Elements(deps) == Targets(g, n)
            && Elements(deps[..0]) == {}
            && forall k :: 0 <= k < |deps| ==> deps[k] in Targets(g, n) && deps[k] in Ids(g.nodes)
  {
    var deps := At(topo.outgoing, n);
    assert deps == Outgoing(g.edges, n);
    forall k | 0 <= k < |deps| ensures deps[k] in Targets(g, n) && deps[k] in Ids(g.nodes) {
      assert deps[k] in Outgoing(g.edges, n);
    }
  }

  method DispatchReady(g: Graph, store: RunStore, done: string, ix: DispatchIndex) returns (enqueued: nat)
    requires Ready(g, store, ix)
    modifies store, ix
    ensures Ready(g, store, ix)
    ensures Passed(g, old(store.State()), store.State(), Targets(g, done), Targets(g, done))
    ensures enqueued > 0 ==> Queueing(g, store.records)
    decreases |Ids(g.nodes) - store.records.Keys|, 4
  {
    var deps := At(ix.topo.outgoing, done);
    TargetsOf(g, ix.topo, done);
    enqueued := DispatchAll(g, store, deps, Targets(g, done), ix);
  }

  /** The loop over the dependents. */
  method DispatchAll(g: Graph, store: RunStore, deps: seq<string>, ghost t: set<string>, ix: DispatchIndex) returns (enqueued: nat)
    requires Ready(g, store, ix) && forall k :: 0 <= k < |deps| ==> deps[k] in t && deps[k] in Ids(g.nodes)
    modifies store, ix
    ensures Ready(g, store, ix)
    ensures Passed(g, old(store.State()), store.State(), t, Elements(deps))
    ensures enqueued > 0 ==> Queueing(g, store.records)
    decreases |Ids(g.nodes) - store.records.Keys|, 3
  {
    enqueued := 0;
    ghost var s0 := store.State();
    assert s0.records == store.records;
    assert Elements(deps[..0]) == {};
    PassedNothing(g, s0, t);
    hide *;
    for k := 0 to |deps|
      invariant Ready(g, store, ix)
      invariant Passed(g, s0, store.State(), t, Elements(deps[..k]))
      invariant enqueued > 0 ==> Queueing(g, store.records)
    {
      var added := DispatchNext(g, store, deps, k, t, ix, s0);
      if added { enqueued := enqueued + 1; }
    }
    assert deps[..|deps|] == deps;
  }

  /** The next turn of the dispatch loop, joined to the turns before it. */
  method DispatchNext(g: Graph, store: RunStore, deps: seq<string>, k: nat, ghost t: set<string>, ix: DispatchIndex,
                      ghost s0: RunState) returns (added: bool)
    requires Ready(g, store, ix) && k < |deps| && deps[k] in t && deps[k] in Ids(g.nodes)
    requires Passed(g, s0, store.State(), t, Elements(deps[..k]))
    modifies store, ix
    ensures Ready(g, store, ix)
    ensures Passed(g, s0, store.State(), t, Elements(deps[..k + 1]))
    ensures added || Queueing(g, old(store.records)) ==> Queueing(g, store.records)
    decreases |Ids(g.nodes) - s0.records.Keys|, 2
  {
    hide Ready, Passed, Queueing, Ids, Elements;
    ElementsSnoc(deps, k);
    ghost var s1 := store.State();
    PassedGrows(g, s0, s1, t, Elements(deps[..k]));
    FewerUnrecorded(g, s0.records, s1.records);
    added := DispatchOne(g, store, deps[k], t, ix);
    PassedCompose(g, s0, s1, store.State(), t, Elements(deps[..k]), {deps[k]});
  }

  /** One turn of the dispatch loop; `added` says the dependent became new runnable work. */
  method DispatchOne(g: Graph, store: RunStore, dep: string, ghost t: set<string>, ix: DispatchIndex)
    returns (added: bool)
    requires Ready(g, store, ix) && dep in t && dep in Ids(g.nodes)
    modifies store, ix
    ensures Ready(g, store, ix)
    ensures Passed(g, old(store.State()), store.State(), t, {dep})
    ensures added || Queueing(g, old(store.records)) ==> Queueing(g, store.records)
    decreases |Ids(g.nodes) - store.records.Keys|, 1
  {
    hide Spread, Coherent, Overlay, Indexes, Decide, RunVerdict, UniqueIds, Wired;
    added := false;
    ghost var r := store.records;
    CoherentDecides(ix.View(r), r, Incoming(g.edges, dep));
    var decision := AnalyzeDependent(g, store, dep, ix);
    match decision {
      case DepEnqueue =>
        if dep !in r { CoherentEnqueue(ix.records, ix.misses, r, dep); }
        added := store.Enqueue(dep, QUEUED);
        SpreadEnqueue(g, r, store.records, t, dep);
      case DepSkipped =>
        RecordSkipped(g, store, dep, ix);
        SpreadWiden(g, r, store.records, {dep}, {dep}, t);
      case DepWaiting =>
        SpreadWaiting(g, r, t, dep);
    }
    if Queueing(g, r) {
      SpreadKeepsQueueing(g, r, store.records, t, {dep});
    }
  }

  method RecordSkipped(g: Graph, store: RunStore, n: string, ix: DispatchIndex)
    requires Ready(g, store, ix)
    requires n in Ids(g.nodes) && DecideNode(g, store.records, n).DepSkipped?
    modifies store, ix
    ensures Ready(g, store, ix)
    ensures Passed(g, old(store.State()), store.State(), {n}, {n})
    decreases |Ids(g.nodes) - store.records.Keys|, 0
  {
    hide Spread, Coherent, Overlay, Indexes, Decide, RunVerdict, UniqueIds, Wired;
    ghost var s0 := store.State();
    if n in s0.records { SpreadPresent(g, s0.records, n); }
    if n !in s0.records { CoherentSkip(ix.records, ix.misses, s0.records, n); }
    var ok := store.Enqueue(n, SKIPPED);
    if !ok { return; }
    ix.Put(n, SKIPPED);
    ghost var s1 := store.State();
    FewerUnrecorded(g, s0.records, s1.records);
    var _ := DispatchReady(g, store, n, ix);
    ghost var s2 := store.State();
    SpreadGrows(g, s1.records, s2.records, Targets(g, n), Targets(g, n));
    SpreadSkip(g, s0.records, s1.records, s2.records, n);
    MaybeCompleteGraph(g, store, n, Skipped);
    RunMovedCompose(g, s1, s2, store.State());
  }

  /** The run record after a pass: untouched, or ended exactly as the records demand. */
  ghost predicate Concluded(g: Graph, s: RunState, s': RunState) {
    match RunVerdict(g, s'.records)
    case None => s'.status == s.status && s'.terminals == s.terminals
    case Some(v) =>
      || (s'.status == v && s'.terminals == s.terminals + [v])
      || (s'.status == s.status && s'.terminals == s.terminals && Queueing(g, s'.records))
  }

  /** One finished node and everything that follows from it. */
  ghost predicate PassStep(g: Graph, s: RunState, c: string, rec: Record, s': RunState) {
    && c in s.records && !IsTerminal(s.records[c].status)
    && var r := s.records[c := rec];
       if IsTerminal(s.status) then
         s' == s.(records := r)
       else if rec.status.Failed? && FailurePropagates(g, c) then
         s' == RunState(r, Failed, s.terminals + [Failed])
       else
         Spread(g, r, s'.records, Targets(g, c), Targets(g, c)) && Concluded(g, s, s')
  }

  lemma MovedThenConcluded(g: Graph, s: RunState, m: RunState, s': RunState)
    requires RunMoved(g, s, m) && s'.records == m.records && !IsTerminal(s.status)
    requires RunVerdict(g, m.records).None? ==> s' == m
    requires RunVerdict(g, m.records).Some? ==>
               || (Queueing(g, m.records) && s' == m)
               || (IsTerminal(m.status) && s' == m)
               || (var v := RunVerdict(g, m.records).value;
                   !IsTerminal(m.status) && s' == RunState(m.records, v, m.terminals + [v]))
    ensures Concluded(g, s, s')
  {
  }

  predicate Outcome(rec: Record) {
    rec.status.Succeeded? || rec.status.Failed? || rec.status.Awaiting?
  }

  /** Write the record, look at the run record, then dispatch on a fresh index. */
  method CompleteThenAdvance(g: Graph, store: RunStore, topo: Topology, c: string, worker: string, rec: Record) returns (ok: bool)
    requires UniqueIds(g.nodes) && Wired(g) && Indexes(topo, g.edges) && Outcome(rec)
    modifies store
    ensures !ok ==> store.State() == old(store.State())
    ensures ok ==> PassStep(g, old(store.State()), c, rec, store.State())
    ensures ok == old(store.Accepts(c, worker, rec))
  {
    ok := store.Complete(c, worker, rec);
    if !ok || IsTerminal(store.status) { return; }
    var enqueued := 0;
    ghost var s1 := store.State();
    if Advances(g, c, rec.status) {
      var ix := new DispatchIndex(topo);
      assert ix.View(store.records) == store.records;
      enqueued := DispatchReady(g, store, c, ix);
    }
    ghost var s2 := store.State();
    hide Spread, RunVerdict, FailurePropagates, UniqueIds, Wired, Queueing;
    if enqueued == 0 {
      MaybeCompleteGraph(g, store, c, rec.status);
    }
    if Advances(g, c, rec.status) {
      MovedThenConcluded(g, s1, s2, store.State());
    }
  }

  /**
    A node the worker switches off: recorded as skipped, its dependents dispatched, the run checked.
    This path does not look at the run record first, so a run that has ended meanwhile gets the same
    records and keeps its end.
   */
  method SkipNode(g: Graph, store: RunStore, topo: Topology, c: string, worker: string) returns (ok: bool)
    requires UniqueIds(g.nodes) && Wired(g) && Indexes(topo, g.edges)
    modifies store
    ensures ok == old(store.Accepts(c, worker, SKIPPED))
    ensures !ok ==> store.State() == old(store.State())
    ensures ok && !IsTerminal(old(store.status)) ==> PassStep(g, old(store.State()), c, SKIPPED, store.State())
    ensures ok && IsTerminal(old(store.status)) ==>
              && Spread(g, old(store.records)[c := SKIPPED], store.records, Targets(g, c), Targets(g, c))
              && store.status == old(store.status) && store.terminals == old(store.terminals)
  {
    ok := store.Complete(c, worker, SKIPPED);
    if !ok { return; }
    ghost var s1 := store.State();
    var ix := new DispatchIndex(topo);
    assert ix.View(store.records) == store.records;
    var _ := DispatchReady(g, store, c, ix);
    ghost var s2 := store.State();
    hide Spread, RunVerdict, FailurePropagates, UniqueIds, Wired, Queueing;
    MaybeCompleteGraph(g, store, c, Skipped);
    if !IsTerminal(s1.status) { MovedThenConcluded(g, s1, s2, store.State()); }
  }

  datatype Plan = Plan(enqueue: seq<string>, revisit: bool)

  /** The plan queues exactly the dependents the finished node releases, and revisits if any remain. */
  ghost predicate Plans(g: Graph, r: Records, deps: seq<string>, plan: Plan) {
    && (forall d :: d in plan.enqueue <==> d in deps && DecideNode(g, r, d).DepEnqueue?)
    && (plan.revisit <==> exists d :: d in deps && d !in plan.enqueue)
  }

  lemma PlanStep(g: Graph, r: Records, deps: seq<string>, plan: Plan, d: string)
    requires Plans(g, r, deps, plan)
    ensures Plans(g, r, deps + [d], if DecideNode(g, r, d).DepEnqueue? then plan.(enqueue := plan.enqueue + [d])
                                    else plan.(revisit := true))
  {
    var deps', plan' := deps + [d], if DecideNode(g, r, d).DepEnqueue? then plan.(enqueue := plan.enqueue + [d])
                                    else plan.(revisit := true);
    assert d in deps';
    if x :| x in deps && x !in plan.enqueue {
      assert x in deps' && x !in plan'.enqueue;
    }
    if x :| x in deps' && x !in plan'.enqueue {
      assert x == d || x in deps;
    }
  }

  /** Decide the advance before the completion is written. */
  method PlanAdvance(g: Graph, store: RunStore, topo: Topology, c: string, rec: Record) returns (plan: Plan)
    requires UniqueIds(g.nodes) && Indexes(topo, g.edges)
    ensures Plans(g, store.records[c := rec],
                  if Advances(g, c, rec.status) then Outgoing(g.edges, c) else [], plan)
    ensures !Advances(g, c, rec.status) ==> plan == Plan([], false)
  {
    plan := Plan([], false);
    if !Advances(g, c, rec.status) { return; }
    var ix := new DispatchIndex(topo);
    ix.Put(c, rec);
    ghost var r := store.records[c := rec];
    assert ix.View(store.records) == r;
    var deps := At(topo.outgoing, c);
    hide DecideNode, Overlay, Outgoing, FailurePropagates;
    for k := 0 to |deps|
      invariant ix.View(store.records) == r
      invariant Plans(g, r, deps[..k], plan)
    {
      assert deps[..k + 1] == deps[..k] + [deps[k]];
      var d := AnalyzeDependent(g, store, deps[k], ix);
      PlanStep(g, r, deps[..k], plan, deps[k]);
      if d.DepEnqueue? {
        plan := plan.(enqueue := plan.enqueue + [deps[k]]);
      } else {
        plan := plan.(revisit := true);
      }
    }
    assert deps[..|deps|] == deps;
  }

  /** Committing the plan settles every planned dependent. */
  lemma {:induction false} SpreadPlanned(g: Graph, r: Records, deps: seq<string>, t: set<string>)
    requires forall d :: d in deps ==> d in t && d in Ids(g.nodes) && DecideNode(g, r, d).DepEnqueue?
    ensures Spread(g, r, EnqueueAll(r, deps), t, set d | d in deps)
  {
    var r' := EnqueueAll(r, deps);
    forall d | d in deps ensures DecideNode(g, r', d) == DecideNode(g, r, d) {
      PassKeepsDecision(g, r, r', d);
    }
    assert forall d :: !BelowNewSkip(g, r, r', d);
  }

  lemma PlanCovers(g: Graph, r: Records, c: string, plan: Plan)
    requires Plans(g, r, Outgoing(g.edges, c), plan) && Wired(g)
    ensures Spread(g, r, EnqueueAll(r, plan.enqueue), Targets(g, c), Elements(plan.enqueue))
    ensures Elements(plan.enqueue) <= Targets(g, c)
    ensures !plan.revisit ==> Elements(plan.enqueue) == Targets(g, c)
  {
    SpreadPlanned(g, r, plan.enqueue, Targets(g, c));
    assert (set d | d in plan.enqueue) == Elements(plan.enqueue);
  }

  /** After the commit: re-examine every dependent on a fresh index. */
  method Revisit(g: Graph, store: RunStore, topo: Topology, c: string, rec: Record, ghost plan: Plan,
                 ghost s: RunState) returns (more: nat)
    requires UniqueIds(g.nodes) && Wired(g) && Indexes(topo, g.edges)
    requires c in store.records && store.records[c] == rec
    requires Passed(g, s, store.State(), Targets(g, c), Elements(plan.enqueue))
    requires Elements(plan.enqueue) <= Targets(g, c)
    modifies store
    ensures Passed(g, s, store.State(), Targets(g, c), Targets(g, c))
    ensures more > 0 || Queueing(g, old(store.records)) ==> Queueing(g, store.records)
  {
    ghost var t, s1 := Targets(g, c), store.State();
    var ix := new DispatchIndex(topo);
    ix.Put(c, rec);
    OverlayOwnRecord(store.records, c);
    more := DispatchReady(g, store, c, ix);
    hide Ready, UniqueIds, Wired, Indexes, Coherent, Overlay, Spread, RunMoved, Queueing, Elements, Targets;
    PassedCompose(g, s, s1, store.State(), t, Elements(plan.enqueue), t);
    assert Elements(plan.enqueue) + t == t;
    if Queueing(g, s1.records) { SpreadKeepsQueueing(g, s1.records, store.records, t, t); }
  }

  /** Finish the advance: revisit if the plan says so, then check completion unless work was queued. */
  method FinishAdvance(g: Graph, store: RunStore, topo: Topology, c: string, rec: Record, plan: Plan,
                       queued: nat, ghost s: RunState)
    requires UniqueIds(g.nodes) && Wired(g) && Indexes(topo, g.edges)
    requires Advances(g, c, rec.status) && Plans(g, s.records, Outgoing(g.edges, c), plan)
    requires c in s.records && s.records[c] == rec && !IsTerminal(s.status)
    requires store.State() == s.(records := EnqueueAll(s.records, plan.enqueue))
    requires queued > 0 ==> Queueing(g, store.records)
    modifies store
    ensures Spread(g, s.records, store.records, Targets(g, c), Targets(g, c))
    ensures Concluded(g, s, store.State())
  {
    var enqueued := queued;
    PlanCovers(g, s.records, c, plan);
    hide Spread, RunVerdict, UniqueIds, Wired, Queueing, Plans, EnqueueAll, Targets, FailurePropagates, Indexes, Elements;
    if plan.revisit {
      var more := Revisit(g, store, topo, c, rec, plan, s);
      enqueued := enqueued + more;
    }
    ghost var s2 := store.State();
    if enqueued == 0 {
      MaybeCompleteGraph(g, store, c, rec.status);
    }
    MovedThenConcluded(g, s, s2, store.State());
  }

  /** Plan, commit everything in one transaction, then revisit what the plan left open. */
  method CompleteInOneTransaction(g: Graph, store: RunStore, topo: Topology, c: string, worker: string, rec: Record)
    returns (ok: bool)
    requires UniqueIds(g.nodes) && Wired(g) && Indexes(topo, g.edges) && Outcome(rec)
    modifies store
    ensures !ok ==> store.State() == old(store.State())
    ensures ok ==> PassStep(g, old(store.State()), c, rec, store.State())
    ensures ok == old(store.Accepts(c, worker, rec))
  {
    var plan := PlanAdvance(g, store, topo, c, rec);
    ghost var s1 := store.State().(records := store.records[c := rec]);
    var runStatus, enqueued;
    ok, runStatus, enqueued := store.CompleteAndEnqueue(c, worker, rec, plan.enqueue);
    if !ok || IsTerminal(runStatus) { return; }
    if Advances(g, c, rec.status) {
      PlanCovers(g, s1.records, c, plan);
      FinishAdvance(g, store, topo, c, rec, plan, enqueued, s1);
    } else {
      assert store.State() == s1 && enqueued == 0;
      MaybeCompleteGraph(g, store, c, rec.status);
    }
  }
}
