/**
  Two executions that mark where the guarantees of interleaved runs stop.
 */
module Counterexamples {
  import opened Graphs
  import opened Decisions
  import opened Interleaving
  import opened InterleavedRuns
  import opened Cancelling

  function Plain(id: string): Node {
    Node(id, "noop", "", None, false, false, map[])
  }

  function Wire(from: string, port: string, to: string, onError: OnError): Edge {
    Edge(from, port, to, "in", onError)
  }

  // ----- single steps, spelled out

  lemma Extend(g: Graph, tr: seq<World>, w: World) returns (tr': seq<World>)
    requires tr != [] && IsExecution(g, tr) && Next(g, Last(tr), w)
    ensures tr' == tr + [w] && IsExecution(g, tr') && Last(tr') == w
  {
    hide Next;
    tr' := tr + [w];
    forall i, j | 0 <= i < j < |tr'| && j == i + 1 ensures Next(g, tr'[i], tr'[j]) {
      if j < |tr| { assert Next(g, tr[i], tr[j]); }
    }
  }

  /** Any enabled event extends an execution. */
  lemma Do(g: Graph, tr: seq<World>, ev: Event, w: World) returns (tr': seq<World>)
    requires tr != [] && IsExecution(g, tr) && Enabled(g, Last(tr), ev) && w == Apply(g, Last(tr), ev)
    ensures tr' != [] && IsExecution(g, tr') && Last(tr') == w
  {
    assert Next(g, Last(tr), w);
    tr' := Extend(g, tr, w);
  }

  /** A live run in which call `pid` is at `p` and the other calls in progress are `rest`. */
  function Live(recs: Records, log: seq<string>, returned: set<string>, rest: map<nat, Proc>, pid: nat, p: Proc): World {
    World(recs, Alive, log, returned, rest[pid := p], [])
  }

  /** One tick of call `pid`, taking it from `p` to `p'` and the records from `recs` to `recs'`. */
  lemma DoTick(g: Graph, tr: seq<World>, recs: Records, recs': Records, log: seq<string>, log': seq<string>,
               returned: set<string>, rest: map<nat, Proc>, pid: nat, p: Proc, p': Proc)
    returns (tr': seq<World>)
    requires tr != [] && IsExecution(g, tr) && Last(tr) == Live(recs, log, returned, rest, pid, p)
    requires Apply(g, Last(tr), Tick(pid)) == WithProc(Live(recs', log', returned, rest, pid, p), pid, p')
    ensures tr' != [] && IsExecution(g, tr') && Last(tr') == Live(recs', log', returned, rest, pid, p')
  {
    hide Apply;
    assert rest[pid := p][pid := p'] == rest[pid := p'];
    tr' := Do(g, tr, Tick(pid), Live(recs', log', returned, rest, pid, p'));
  }

  /** A worker finishes node `n`: the record is written, the run record read, the dispatch loop entered. */
  lemma DoFinish(g: Graph, tr: seq<World>, recs: Records, log: seq<string>, returned: set<string>, rest: map<nat, Proc>,
                 pid: nat, n: string, o: Record)
    returns (tr': seq<World>)
    requires tr != [] && IsExecution(g, tr) && Last(tr) == World(recs, Alive, log, returned, rest, [])
    requires pid !in rest && n in Ids(g.nodes) && Executed(o) && o.status.Succeeded? && Interleaving.Pending(recs, n)
    ensures tr' != [] && IsExecution(g, tr')
    ensures Last(tr') == Live(recs[n := o], log + [n], returned, rest, pid,
                              Proc(n, o, |log| + 1, Dispatching(map[], [Frame(n, 0)], false), Idle))
  {
    hide IsExecution;
    var p0, p1 := Proc(n, o, 0, Writing, Idle), Proc(n, o, |log| + 1, Checking, Idle);
    tr' := Do(g, tr, Advance(pid, n, o), Live(recs, log, returned, rest, pid, p0));
    tr' := DoTick(g, tr', recs, recs[n := o], log, log + [n], returned, rest, pid, p0, p1);
    tr' := DoTick(g, tr', recs[n := o], recs[n := o], log + [n], log + [n], returned, rest, pid, p1,
                  p1.(work := Dispatching(map[], [Frame(n, 0)], false)));
  }

  /** The call `p` is looking at dependent `d`. */
  ghost predicate LooksAt(g: Graph, p: Proc, d: string) {
    && p.check.Idle? && p.work.Dispatching? && p.work.stack != []
    && var top := p.work.stack[|p.work.stack| - 1];
       top.k < |Outgoing(g.edges, top.node)| && Outgoing(g.edges, top.node)[top.k] == d
  }

  /** Reads, waits: steps that change the call only. */
  lemma DoRead(g: Graph, tr: seq<World>, recs: Records, log: seq<string>, returned: set<string>, rest: map<nat, Proc>,
               pid: nat, p: Proc, d: string, x: string, v: Option<Record>)
    returns (tr': seq<World>)
    requires tr != [] && IsExecution(g, tr) && Last(tr) == Live(recs, log, returned, rest, pid, p) && LooksAt(g, p, d)
    requires NextProbe(p.work.memo, Incoming(g.edges, d)) == Read(x) && Lookup(recs, x) == v
    ensures tr' != [] && IsExecution(g, tr')
    ensures Last(tr') == Live(recs, log, returned, rest, pid, p.(work := p.work.(memo := p.work.memo[x := v])))
  {
    tr' := DoTick(g, tr, recs, recs, log, log, returned, rest, pid, p, p.(work := p.work.(memo := p.work.memo[x := v])));
  }

  lemma DoWait(g: Graph, tr: seq<World>, recs: Records, log: seq<string>, returned: set<string>, rest: map<nat, Proc>,
               pid: nat, p: Proc, d: string)
    returns (tr': seq<World>)
    requires tr != [] && IsExecution(g, tr) && Last(tr) == Live(recs, log, returned, rest, pid, p) && LooksAt(g, p, d)
    requires NextProbe(p.work.memo, Incoming(g.edges, d)) == Waits
    ensures tr' != [] && IsExecution(g, tr')
    ensures Last(tr') == Live(recs, log, returned, rest, pid, p.(work := p.work.(stack := Bump(p.work.stack))))
  {
    hide IsExecution, TickDecided, TickPop, Bump, Outgoing, Incoming, NextProbe, Lookup, Decide, View;
    tr' := DoTick(g, tr, recs, recs, log, log, returned, rest, pid, p, p.(work := p.work.(stack := Bump(p.work.stack))));
  }

  /** A ready dependent of the node being advanced is queued. */
  lemma DoQueue(g: Graph, tr: seq<World>, recs: Records, log: seq<string>, returned: set<string>, rest: map<nat, Proc>,
                pid: nat, p: Proc, d: string)
    returns (tr': seq<World>)
    requires tr != [] && IsExecution(g, tr) && Last(tr) == Live(recs, log, returned, rest, pid, p) && LooksAt(g, p, d)
    requires d !in recs && |p.work.stack| == 1
    requires NextProbe(p.work.memo, Incoming(g.edges, d)) == Settled
    requires Decide(View(p.work.memo), Incoming(g.edges, d)).DepEnqueue?
    ensures tr' != [] && IsExecution(g, tr')
    ensures Last(tr') == Live(recs[d := QUEUED], log, returned, rest, pid,
                              p.(work := p.work.(stack := Bump(p.work.stack), queued := true)))
  {
    hide IsExecution, TickPop, Outgoing, Incoming, NextProbe, Lookup, Decide, View;
    tr' := DoTick(g, tr, recs, recs[d := QUEUED], log, log, returned, rest, pid, p,
                  p.(work := p.work.(stack := Bump(p.work.stack), queued := true)));
  }

  /** A dependent none of whose inputs can arrive is skipped, and its own dependents come next. */
  lemma DoSkip(g: Graph, tr: seq<World>, recs: Records, log: seq<string>, returned: set<string>, rest: map<nat, Proc>,
               pid: nat, p: Proc, d: string)
    returns (tr': seq<World>)
    requires tr != [] && IsExecution(g, tr) && Last(tr) == Live(recs, log, returned, rest, pid, p) && LooksAt(g, p, d)
    requires d !in recs
    requires NextProbe(p.work.memo, Incoming(g.edges, d)) == Settled
    requires Decide(View(p.work.memo), Incoming(g.edges, d)).DepSkipped?
    ensures tr' != [] && IsExecution(g, tr')
    ensures Last(tr') == Live(recs[d := SKIPPED], log + [d], returned, rest, pid,
                              p.(work := p.work.(memo := p.work.memo[d := Some(SKIPPED)],
                                                 stack := Bump(p.work.stack) + [Frame(d, 0)])))
  {
    tr' := DoTick(g, tr, recs, recs[d := SKIPPED], log, log + [d], returned, rest, pid, p,
                  p.(work := p.work.(memo := p.work.memo[d := Some(SKIPPED)], stack := Bump(p.work.stack) + [Frame(d, 0)])));
  }

  /** The end of a dispatch loop; a check that then finds an unfinished node comes to nothing. */
  lemma DoPop(g: Graph, tr: seq<World>, recs: Records, log: seq<string>, returned: set<string>, rest: map<nat, Proc>,
              pid: nat, p: Proc, p': Proc)
    returns (tr': seq<World>)
    requires tr != [] && IsExecution(g, tr) && Last(tr) == Live(recs, log, returned, rest, pid, p)
    requires p.check.Idle? && p.work.Dispatching? && p.work.stack != []
    requires p.outcome.status.Succeeded?
    requires var top := p.work.stack[|p.work.stack| - 1]; top.k >= |Outgoing(g.edges, top.node)|
    requires RunVerdict(g, recs).None?
    requires p' == if |p.work.stack| > 1 then p.(work := p.work.(stack := p.work.stack[..|p.work.stack| - 1]))
                   else p.(work := Done)
    ensures tr' != [] && IsExecution(g, tr') && Last(tr') == Live(recs, log, returned, rest, pid, p')
  {
    hide IsExecution;
    var queued := |p.work.stack| == 1 && p.work.queued;
    var c := if queued then p' else p'.(check := Listing);
    tr' := DoTick(g, tr, recs, recs, log, log, returned, rest, pid, p, c);
    if !queued { tr' := DoTick(g, tr', recs, recs, log, log, returned, rest, pid, c, p'); }
  }

  lemma DoReturn(g: Graph, tr: seq<World>, recs: Records, log: seq<string>, returned: set<string>, rest: map<nat, Proc>,
                 pid: nat, p: Proc)
    returns (tr': seq<World>)
    requires tr != [] && IsExecution(g, tr) && Last(tr) == Live(recs, log, returned, rest, pid, p)
    requires pid !in rest && p.check.Idle? && p.work.Done? && p.epoch > 0
    ensures tr' != [] && IsExecution(g, tr') && Last(tr') == World(recs, Alive, log, returned + {p.node}, rest, [])
  {
    assert rest[pid := p] - {pid} == rest;
    tr' := Do(g, tr, Tick(pid), World(recs, Alive, log, returned + {p.node}, rest, []));
  }

  // ----- a join stranded by a skip cascade

  datatype Names = Names(a: string, q: string, x: string, b: string, j: string)

  predicate Distinct(m: Names) {
    && m.a != m.q && m.a != m.x && m.a != m.b && m.a != m.j && m.q != m.x
    && m.q != m.b && m.q != m.j && m.x != m.b && m.x != m.j && m.b != m.j
  }

  function AX(m: Names): Edge { Wire(m.a, "out", m.x, Unset) }
  function QX(m: Names): Edge { Wire(m.q, "out", m.x, Unset) }
  function AB(m: Names): Edge { Wire(m.a, "no", m.b, Unset) }
  function BJ(m: Names): Edge { Wire(m.b, "out", m.j, OnError.Skip) }
  function QJ(m: Names): Edge { Wire(m.q, "out", m.j, Unset) }

  /** `x` waits for `a` and `q`; `a` declines `b`; `j` waits for `b`, which it tolerates skipped, and for `q`. */
  function Bowtie(m: Names): Graph {
    Graph([Plain(m.a), Plain(m.q), Plain(m.x), Plain(m.b), Plain(m.j)], [AX(m), QX(m), AB(m), BJ(m), QJ(m)])
  }

  const OUT := Record(Succeeded, Some({"out"}))

  /** The adjacency lists, bare. */
  function Outs(es: seq<Edge>, n: string): seq<string> { Outgoing(es, n) }

  function Ins(es: seq<Edge>, n: string): seq<Edge> { Incoming(es, n) }

  lemma OneMoreOut(es: seq<Edge>, e: Edge, n: string, r: seq<string>)
    requires Outs(es, n) == r
    ensures Outs(es + [e], n) == if e.from == n && e.to !in r then r + [e.to] else r
  {
    var es' := es + [e];
    assert es'[..|es'| - 1] == es && es'[|es'| - 1] == e;
  }

  lemma OneMoreIn(es: seq<Edge>, e: Edge, n: string, r: seq<Edge>)
    requires Ins(es, n) == r
    ensures Ins(es + [e], n) == if e.to == n then r + [e] else r
  {
    var es' := es + [e];
    assert es'[..|es'| - 1] == es && es'[|es'| - 1] == e;
  }

  /** The adjacency lists five edges make, one edge at a time. */
  lemma ThreeIn(e1: Edge, e2: Edge, e3: Edge, n: string)
    requires e1.to == e2.to && e1.to != e3.to
    ensures Ins([e1, e2, e3], n) == if n == e1.to then [e1, e2] else if n == e3.to then [e3] else []
  {
    hide Ins;
    NoEdges(n);
    OneMoreIn([], e1, n, []); assert [] + [e1] == [e1];
    OneMoreIn([e1], e2, n, if n == e1.to then [e1] else []); assert [e1] + [e2] == [e1, e2];
    OneMoreIn([e1, e2], e3, n, if n == e1.to then [e1, e2] else []); assert [e1, e2] + [e3] == [e1, e2, e3];
  }

  lemma FiveIn(e1: Edge, e2: Edge, e3: Edge, e4: Edge, e5: Edge, n: string)
    requires e1.to == e2.to && e4.to == e5.to && e1.to != e3.to && e1.to != e4.to && e3.to != e4.to
    ensures Ins([e1, e2, e3, e4, e5], n) == if n == e1.to then [e1, e2] else if n == e3.to then [e3]
                                                 else if n == e4.to then [e4, e5] else []
  {
    hide Ins;
    ThreeIn(e1, e2, e3, n);
    var r3 := if n == e1.to then [e1, e2] else if n == e3.to then [e3] else [];
    var r4 := if n == e4.to then [e4] else r3;
    OneMoreIn([e1, e2, e3], e4, n, r3); assert [e1, e2, e3] + [e4] == [e1, e2, e3, e4];
    OneMoreIn([e1, e2, e3, e4], e5, n, r4); assert [e1, e2, e3, e4] + [e5] == [e1, e2, e3, e4, e5];
  }

  lemma ThreeOut(e1: Edge, e2: Edge, e3: Edge, n: string)
    requires e1.to != e3.to && e1.from == e3.from && e1.from != e2.from
    ensures Outs([e1, e2, e3], n) == if n == e1.from then [e1.to, e3.to] else if n == e2.from then [e2.to] else []
  {
    hide Outs;
    NoEdges(n);
    if n == e1.from {
      OneMoreOut([], e1, n, []); assert [] + [e1] == [e1];
      OneMoreOut([e1], e2, n, [e1.to]); assert [e1] + [e2] == [e1, e2];
      OneMoreOut([e1, e2], e3, n, [e1.to]); assert [e1, e2] + [e3] == [e1, e2, e3];
    } else {
      OneMoreOut([], e1, n, []); assert [] + [e1] == [e1];
      OneMoreOut([e1], e2, n, []); assert [e1] + [e2] == [e1, e2];
      OneMoreOut([e1, e2], e3, n, if n == e2.from then [e2.to] else []); assert [e1, e2] + [e3] == [e1, e2, e3];
    }
  }

  lemma FiveOut(e1: Edge, e2: Edge, e3: Edge, e4: Edge, e5: Edge, n: string)
    requires e1.to != e3.to && e2.to != e5.to && e1.from == e3.from && e2.from == e5.from
    requires e1.from != e2.from && e4.from != e1.from && e4.from != e2.from
    ensures Outs([e1, e2, e3, e4, e5], n) == if n == e1.from then [e1.to, e3.to] else if n == e2.from then [e2.to, e5.to]
                                                 else if n == e4.from then [e4.to] else []
  {
    hide Outs;
    ThreeOut(e1, e2, e3, n);
    assert [e1, e2, e3] + [e4] == [e1, e2, e3, e4];
    assert [e1, e2, e3, e4] + [e5] == [e1, e2, e3, e4, e5];
    if n == e1.from {
      OneMoreOut([e1, e2, e3], e4, n, [e1.to, e3.to]);
      OneMoreOut([e1, e2, e3, e4], e5, n, [e1.to, e3.to]);
    } else if n == e2.from {
      OneMoreOut([e1, e2, e3], e4, n, [e2.to]);
      OneMoreOut([e1, e2, e3, e4], e5, n, [e2.to]);
    } else {
      OneMoreOut([e1, e2, e3], e4, n, []);
      OneMoreOut([e1, e2, e3, e4], e5, n, if n == e4.from then [e4.to] else []);
    }
  }

  lemma NoEdges(n: string)
    ensures Outs([], n) == [] && Ins([], n) == []
  {
  }

  lemma Adjacency(m: Names, n: string)
    requires Distinct(m)
    ensures Outgoing(Bowtie(m).edges, n) == if n == m.a then [m.x, m.b] else if n == m.q then [m.x, m.j]
                                            else if n == m.b then [m.j] else []
    ensures Incoming(Bowtie(m).edges, n) == if n == m.x then [AX(m), QX(m)] else if n == m.b then [AB(m)]
                                            else if n == m.j then [BJ(m), QJ(m)] else []
  {
    hide Outgoing, Incoming;
    FiveOut(AX(m), QX(m), AB(m), BJ(m), QJ(m), n);
    FiveIn(AX(m), QX(m), AB(m), BJ(m), QJ(m), n);
  }

  lemma Declared(m: Names)
    ensures Ids(Bowtie(m).nodes) == {m.a, m.q, m.x, m.b, m.j}
  {
    var ns := Bowtie(m).nodes;
    assert ns[0].id == m.a && ns[1].id == m.q && ns[2].id == m.x && ns[3].id == m.b && ns[4].id == m.j;
  }

  const QD := Some(QUEUED)
  const OK := Some(OUT)
  const NONE: Memo := map[]

  /** What call 1, for `a`, has seen: `q` unfinished. */
  function Stale(m: Names): Memo { NONE[m.a := OK][m.q := QD] }

  /** What call 2, for `q`, has seen: everything finished, and later no record of `b`. */
  function Good(m: Names): Memo { NONE[m.a := OK][m.q := OK] }

  lemma Probes(m: Names)
    requires Distinct(m)
    ensures NextProbe(NONE, [AX(m), QX(m)]) == Read(m.a) && NextProbe(NONE[m.a := OK], [AX(m), QX(m)]) == Read(m.q)
    ensures NextProbe(Stale(m), [AX(m), QX(m)]) == Waits && NextProbe(Good(m), [AX(m), QX(m)]) == Settled
    ensures NextProbe(Stale(m), [AB(m)]) == Settled
    ensures NextProbe(Good(m), [BJ(m), QJ(m)]) == Read(m.b) && NextProbe(Good(m)[m.b := None], [BJ(m), QJ(m)]) == Waits
    ensures NextProbe(Stale(m)[m.b := Some(SKIPPED)], [BJ(m), QJ(m)]) == Waits
  {
    assert [AX(m), QX(m)][1..] == [QX(m)] && [QX(m)][1..] == [] && [BJ(m), QJ(m)][1..] == [QJ(m)];
    assert NextProbe(Good(m), [QX(m)]) == Settled;
  }

  lemma Choices(m: Names)
    requires Distinct(m)
    ensures Decide(View(Good(m)), [AX(m), QX(m)]).DepEnqueue?
    ensures Decide(View(Stale(m)), [AB(m)]).DepSkipped?
  {
    assert "out" in {"out"} && "no" !in {"out"};
  }

  /** While a node has no record and none has failed, no completion check comes to a verdict. */
  lemma NoVerdict(g: Graph, recs: Records, d: string)
    requires d in Ids(g.nodes) && d !in recs
    requires forall n :: n in recs ==> !recs[n].status.Failed?
    ensures RunVerdict(g, recs).None?
  {
    hide Verdict;
  }

  function R0(m: Names): Records { map[m.a := QUEUED, m.q := QUEUED] }
  function R1(m: Names): Records { R0(m)[m.a := OUT] }
  function R2(m: Names): Records { R1(m)[m.q := OUT][m.x := QUEUED] }
  function R3(m: Names): Records { R2(m)[m.b := SKIPPED] }
  function R4(m: Names): Records { R3(m)[m.x := OUT] }

  lemma Unrecorded(m: Names)
    requires Distinct(m)
    ensures m.b !in R2(m) && m.j !in R2(m) && m.j !in R3(m)
    ensures forall n :: n in R2(m) ==> !R2(m)[n].status.Failed?
    ensures forall n :: n in R3(m) ==> !R3(m)[n].status.Failed?
  {
  }

  /** A call advancing `n`, the k-th to write, at the given dispatch state. */
  function Call(n: string, k: nat, memo: Memo, stack: seq<Frame>, queued: bool): Proc {
    Proc(n, OUT, k, Dispatching(memo, stack, queued), Idle)
  }

  lemma Stage0(m: Names) returns (tr: seq<World>)
    requires Distinct(m)
    ensures tr != [] && IsExecution(Bowtie(m), tr) && Last(tr) == World(R0(m), Alive, [], {}, map[], [])
  {
    tr := [World(R0(m), Alive, [], {}, map[], [])];
    Declared(m);
    var g := Bowtie(m);
    assert g.edges[0] == AX(m) && g.edges[2] == AB(m) && g.edges[3] == BJ(m);
    assert IsSource(g, m.a) && IsSource(g, m.q) && !IsSource(g, m.x) && !IsSource(g, m.b) && !IsSource(g, m.j);
  }

  /** `n` finishes and its pass reads the predecessors of `x`, `a` and then `q`. */
  lemma ReadBoth(m: Names, tr: seq<World>, recs: Records, log: seq<string>, rest: map<nat, Proc>, pid: nat, n: string,
                 v: Option<Record>)
    returns (tr': seq<World>)
    requires Distinct(m) && pid !in rest && (n == m.a || n == m.q) && Interleaving.Pending(recs, n)
    requires tr != [] && IsExecution(Bowtie(m), tr) && Last(tr) == World(recs, Alive, log, {}, rest, [])
    requires Lookup(recs[n := OUT], m.a) == OK && Lookup(recs[n := OUT], m.q) == v
    ensures tr' != [] && IsExecution(Bowtie(m), tr')
    ensures Last(tr') == Live(recs[n := OUT], log + [n], {}, rest, pid,
                              Call(n, |log| + 1, NONE[m.a := OK][m.q := v], [Frame(n, 0)], false))
  {
    hide IsExecution, Outgoing, Incoming, NextProbe, Live, Bowtie, Lookup;
    var g := Bowtie(m);
    Declared(m);
    Adjacency(m, n); Adjacency(m, m.x); Probes(m);
    tr' := DoFinish(g, tr, recs, log, {}, rest, pid, n, OUT);
    tr' := DoRead(g, tr', recs[n := OUT], log + [n], {}, rest, pid, Call(n, |log| + 1, NONE, [Frame(n, 0)], false), m.x, m.a, OK);
    tr' := DoRead(g, tr', recs[n := OUT], log + [n], {}, rest, pid, Call(n, |log| + 1, NONE[m.a := OK], [Frame(n, 0)], false), m.x, m.q, v);
  }

  /** `a` finishes; its pass reads `q` as unfinished and leaves `x` waiting. */
  lemma Stage1(m: Names, tr: seq<World>) returns (tr': seq<World>)
    requires Distinct(m)
    requires tr != [] && IsExecution(Bowtie(m), tr) && Last(tr) == World(R0(m), Alive, [], {}, map[], [])
    ensures tr' != [] && IsExecution(Bowtie(m), tr')
    ensures Last(tr') == Live(R1(m), [m.a], {}, map[], 1, Call(m.a, 1, Stale(m), [Frame(m.a, 1)], false))
  {
    hide IsExecution, Outgoing, Incoming, NextProbe, Live, Bowtie;
    Adjacency(m, m.a); Adjacency(m, m.x); Probes(m);
    tr' := ReadBoth(m, tr, R0(m), [], map[], 1, m.a, QD);
    assert [] + [m.a] == [m.a];
    tr' := DoWait(Bowtie(m), tr', R1(m), [m.a], {}, map[], 1, Call(m.a, 1, Stale(m), [Frame(m.a, 0)], false), m.x);
    assert Bump([Frame(m.a, 0)]) == [Frame(m.a, 1)];
  }

  /** `q` finishes meanwhile and its pass finds `x` ready, ... */
  lemma Stage2(m: Names, tr: seq<World>, rest: map<nat, Proc>) returns (tr': seq<World>)
    requires Distinct(m) && 2 !in rest
    requires tr != [] && IsExecution(Bowtie(m), tr) && Last(tr) == World(R1(m), Alive, [m.a], {}, rest, [])
    ensures tr' != [] && IsExecution(Bowtie(m), tr')
    ensures Last(tr') == Live(R1(m)[m.q := OUT], [m.a, m.q], {}, rest, 2, Call(m.q, 2, Good(m), [Frame(m.q, 0)], false))
  {
    hide IsExecution, Live, Bowtie;
    tr' := ReadBoth(m, tr, R1(m), [m.a], rest, 2, m.q, OK);
    assert [m.a] + [m.q] == [m.a, m.q];
  }

  /** The last loop of a call ends, a check that follows comes to nothing, and the call returns. */
  lemma Close(m: Names, tr: seq<World>, recs: Records, log: seq<string>, ret: set<string>, rest: map<nat, Proc>,
              pid: nat, n: string, p: Proc)
    returns (tr': seq<World>)
    requires pid !in rest && tr != [] && IsExecution(Bowtie(m), tr) && Last(tr) == Live(recs, log, ret, rest, pid, p)
    requires m.j !in recs && forall n :: n in recs ==> !recs[n].status.Failed?
    requires p.node == n && p.epoch > 0 && p.outcome == OUT && p.check.Idle? && p.work.Dispatching? && |p.work.stack| == 1
    requires p.work.stack[0].k >= |Outgoing(Bowtie(m).edges, p.work.stack[0].node)|
    ensures tr' != [] && IsExecution(Bowtie(m), tr') && Last(tr') == World(recs, Alive, log, ret + {n}, rest, [])
  {
    hide IsExecution, Outgoing, Live, Bowtie, RunVerdict;
    Declared(m);
    NoVerdict(Bowtie(m), recs, m.j);
    tr' := DoPop(Bowtie(m), tr, recs, log, ret, rest, pid, p, p.(work := Done));
    tr' := DoReturn(Bowtie(m), tr', recs, log, ret, rest, pid, p.(work := Done));
  }

  /** `x` is one write away from being queued. */
  lemma AtX(m: Names)
    requires Distinct(m)
    ensures AboutToQueue(Bowtie(m), R1(m)[m.q := OUT], Call(m.q, 2, Good(m), [Frame(m.q, 0)], false), m.x)
  {
    hide Outgoing, Incoming, NextProbe, Bowtie, Decide, View;
    Adjacency(m, m.q); Adjacency(m, m.x); Probes(m); Choices(m);
  }

  lemma Queued(m: Names, tr: seq<World>, rest: map<nat, Proc>) returns (tr': seq<World>)
    requires Distinct(m) && 2 !in rest && tr != [] && IsExecution(Bowtie(m), tr)
    requires Last(tr) == Live(R1(m)[m.q := OUT], [m.a, m.q], {}, rest, 2, Call(m.q, 2, Good(m), [Frame(m.q, 0)], false))
    ensures tr' != [] && IsExecution(Bowtie(m), tr')
    ensures Last(tr') == Live(R2(m), [m.a, m.q], {}, rest, 2, Call(m.q, 2, Good(m), [Frame(m.q, 1)], true))
  {
    hide IsExecution, Outgoing, Incoming, NextProbe, Live, Bowtie, Decide, View, Good, R1;
    AtX(m);
    tr' := DoQueue(Bowtie(m), tr, R1(m)[m.q := OUT], [m.a, m.q], {}, rest, 2, Call(m.q, 2, Good(m), [Frame(m.q, 0)], false), m.x);
    assert Bump([Frame(m.q, 0)]) == [Frame(m.q, 1)];
  }

  lemma LeavesJ(m: Names, tr: seq<World>, rest: map<nat, Proc>) returns (tr': seq<World>)
    requires Distinct(m) && 2 !in rest && tr != [] && IsExecution(Bowtie(m), tr)
    requires Last(tr) == Live(R2(m), [m.a, m.q], {}, rest, 2, Call(m.q, 2, Good(m), [Frame(m.q, 1)], true))
    ensures tr' != [] && IsExecution(Bowtie(m), tr')
    ensures Last(tr') == Live(R2(m), [m.a, m.q], {}, rest, 2, Call(m.q, 2, Good(m)[m.b := None], [Frame(m.q, 2)], true))
  {
    hide IsExecution, Outgoing, Incoming, NextProbe, Live, Bowtie, RunVerdict, Good, R2;
    Unrecorded(m);
    Adjacency(m, m.q); Adjacency(m, m.j); Probes(m);
    tr' := DoRead(Bowtie(m), tr, R2(m), [m.a, m.q], {}, rest, 2, Call(m.q, 2, Good(m), [Frame(m.q, 1)], true), m.j, m.b, None);
    tr' := DoWait(Bowtie(m), tr', R2(m), [m.a, m.q], {}, rest, 2, Call(m.q, 2, Good(m)[m.b := None], [Frame(m.q, 1)], true), m.j);
    assert Bump([Frame(m.q, 1)]) == [Frame(m.q, 2)];
  }

  /** ... queues it, finds `b` unrecorded, leaves `j` waiting for it and returns. */
  lemma Stage3(m: Names, tr: seq<World>, rest: map<nat, Proc>) returns (tr': seq<World>)
    requires Distinct(m) && 2 !in rest && tr != [] && IsExecution(Bowtie(m), tr)
    requires Last(tr) == Live(R1(m)[m.q := OUT], [m.a, m.q], {}, rest, 2, Call(m.q, 2, Good(m), [Frame(m.q, 0)], false))
    ensures tr' != [] && IsExecution(Bowtie(m), tr')
    ensures Last(tr') == World(R2(m), Alive, [m.a, m.q], {m.q}, rest, [])
  {
    hide IsExecution, Outgoing, Incoming, NextProbe, Live, Bowtie, RunVerdict, Good, R2;
    Unrecorded(m);
    var log, late := [m.a, m.q], Good(m)[m.b := None];
    Adjacency(m, m.q);
    tr' := Queued(m, tr, rest);
    tr' := LeavesJ(m, tr', rest);
    tr' := Close(m, tr', R2(m), log, {}, rest, 2, m.q, Call(m.q, 2, late, [Frame(m.q, 2)], true));
    assert {} + {m.q} == {m.q};
  }

  /** Call 1 skips `b`, visits `j` and still takes `q` for unfinished, ... */
  lemma Stage4(m: Names, tr: seq<World>) returns (tr': seq<World>)
    requires Distinct(m) && tr != [] && IsExecution(Bowtie(m), tr)
    requires Last(tr) == Live(R2(m), [m.a, m.q], {m.q}, map[], 1, Call(m.a, 1, Stale(m), [Frame(m.a, 1)], false))
    ensures tr' != [] && IsExecution(Bowtie(m), tr')
    ensures Last(tr') == Live(R3(m), [m.a, m.q, m.b], {m.q}, map[], 1,
                              Call(m.a, 1, Stale(m)[m.b := Some(SKIPPED)], [Frame(m.a, 2), Frame(m.b, 1)], false))
  {
    hide IsExecution, Outgoing, Incoming, NextProbe, Live, Bowtie, RunVerdict, Decide, View, Stale, R2;
    Unrecorded(m);
    var g, log, memo, ret := Bowtie(m), [m.a, m.q], Stale(m)[m.b := Some(SKIPPED)], {m.q};
    Adjacency(m, m.a); Adjacency(m, m.b); Adjacency(m, m.j); Probes(m); Choices(m);
    tr' := DoSkip(g, tr, R2(m), log, ret, map[], 1, Call(m.a, 1, Stale(m), [Frame(m.a, 1)], false), m.b);
    assert log + [m.b] == [m.a, m.q, m.b];
    assert Bump([Frame(m.a, 1)]) + [Frame(m.b, 0)] == [Frame(m.a, 2), Frame(m.b, 0)];
    tr' := DoWait(g, tr', R3(m), [m.a, m.q, m.b], ret, map[], 1, Call(m.a, 1, memo, [Frame(m.a, 2), Frame(m.b, 0)], false), m.j);
    assert Bump([Frame(m.a, 2), Frame(m.b, 0)]) == [Frame(m.a, 2), Frame(m.b, 1)];
  }

  /** ... and ends both its loops. */
  lemma Stage5(m: Names, tr: seq<World>, memo: Memo) returns (tr': seq<World>)
    requires Distinct(m) && tr != [] && IsExecution(Bowtie(m), tr)
    requires Last(tr) == Live(R3(m), [m.a, m.q, m.b], {m.q}, map[], 1,
                              Call(m.a, 1, memo, [Frame(m.a, 2), Frame(m.b, 1)], false))
    ensures tr' != [] && IsExecution(Bowtie(m), tr')
    ensures Last(tr') == World(R3(m), Alive, [m.a, m.q, m.b], {m.a, m.q}, map[], [])
  {
    hide IsExecution, Outgoing, Incoming, Live, Bowtie, RunVerdict, R3;
    Unrecorded(m);
    var g, log, ret := Bowtie(m), [m.a, m.q, m.b], {m.q};
    Declared(m);
    Adjacency(m, m.a); Adjacency(m, m.b);
    NoVerdict(g, R3(m), m.j);
    assert [Frame(m.a, 2), Frame(m.b, 1)][..1] == [Frame(m.a, 2)];
    tr' := DoPop(g, tr, R3(m), log, ret, map[], 1, Call(m.a, 1, memo, [Frame(m.a, 2), Frame(m.b, 1)], false),
                 Call(m.a, 1, memo, [Frame(m.a, 2)], false));
    tr' := Close(m, tr', R3(m), log, ret, map[], 1, m.a, Call(m.a, 1, memo, [Frame(m.a, 2)], false));
    assert ret + {m.a} == {m.a, m.q};
  }

  /** `x` finishes; it has no dependents, and the run is not over because of `j`. */
  lemma Stage6(m: Names, tr: seq<World>) returns (tr': seq<World>)
    requires Distinct(m) && tr != [] && IsExecution(Bowtie(m), tr)
    requires Last(tr) == World(R3(m), Alive, [m.a, m.q, m.b], {m.a, m.q}, map[], [])
    ensures tr' != [] && IsExecution(Bowtie(m), tr')
    ensures Last(tr') == World(R4(m), Alive, [m.a, m.q, m.b, m.x], {m.a, m.q, m.x}, map[], [])
  {
    hide IsExecution, Outgoing, Incoming, Live, Bowtie;
    Declared(m);
    Adjacency(m, m.x);
    assert [m.a, m.q, m.b] + [m.x] == [m.a, m.q, m.b, m.x];
    tr' := DoFinish(Bowtie(m), tr, R3(m), [m.a, m.q, m.b], {m.a, m.q}, map[], 3, m.x, OUT);
    tr' := Close(m, tr', R4(m), [m.a, m.q, m.b, m.x], {m.a, m.q}, map[], 3, m.x, Call(m.x, 4, NONE, [Frame(m.x, 0)], false));
    assert {m.a, m.q} + {m.x} == {m.a, m.q, m.x};
  }

  /** The state the run is left in. */
  lemma Stranded(m: Names)
    requires Distinct(m)
    ensures forall n :: n in R4(m) ==> IsTerminal(R4(m)[n].status)
    ensures m.j in Ids(Bowtie(m).nodes) && m.j !in R4(m)
    ensures forall e :: e in Incoming(Bowtie(m).edges, m.j) ==> e.from in R4(m)
  {
    hide Incoming;
    Declared(m);
    Adjacency(m, m.j);
  }

  /**
    The limit of the wake-up guarantee: one pass keeps its first reading of a predecessor through a
    whole skip cascade, so a join below a skipped node can be left without a record for good. At the
    end no call is in progress, every record is final, `j`'s predecessors are among them, and the run
    is still open.
   */
  lemma SkipCascadeCanStrandJoin(m: Names) returns (tr: seq<World>, rank: map<string, nat>)
    requires Distinct(m)
    ensures Runnable(Bowtie(m), rank) && tr != [] && IsExecution(Bowtie(m), tr)
    ensures Last(tr).procs == map[] && Last(tr).run.Alive?
    ensures forall n :: n in Last(tr).records ==> IsTerminal(Last(tr).records[n].status)
    ensures m.j in Ids(Bowtie(m).nodes) && m.j !in Last(tr).records
    ensures forall e :: e in Incoming(Bowtie(m).edges, m.j) ==> e.from in Last(tr).records
  {
    hide IsExecution, Runnable, Incoming, Bowtie, Stale, R0, R1, R2, R3, R4, IsTerminal;
    rank := Ranks(m);
    tr := Stage0(m);
    tr := Stage1(m, tr);
    var rest: map<nat, Proc> := map[];
    rest := rest[1 := Call(m.a, 1, Stale(m), [Frame(m.a, 1)], false)];
    tr := Stage2(m, tr, rest);
    tr := Stage3(m, tr, rest);
    tr := Stage4(m, tr);
    tr := Stage5(m, tr, Stale(m)[m.b := Some(SKIPPED)]);
    tr := Stage6(m, tr);
    Stranded(m);
  }

  lemma Ranks(m: Names) returns (rank: map<string, nat>)
    requires Distinct(m)
    ensures Runnable(Bowtie(m), rank)
  {
    rank := map[m.a := 0, m.q := 0, m.x := 1, m.b := 1, m.j := 2];
    Declared(m);
    RankedEdges(m, rank);
  }

  lemma RankedEdges(m: Names, rank: map<string, nat>)
    requires rank.Keys == {m.a, m.q, m.x, m.b, m.j}
    requires rank[m.a] == rank[m.q] == 0 && rank[m.x] == rank[m.b] == 1 && rank[m.j] == 2
    ensures Wired(Bowtie(m)) && Ranked(Bowtie(m), rank)
  {
    Declared(m);
    var g := Bowtie(m);
    forall e | e in g.edges
      ensures e.from in rank && e.to in rank && rank[e.from] < rank[e.to]
    {
      hide Ids;
      assert e == AX(m) || e == QX(m) || e == AB(m) || e == BJ(m) || e == QJ(m);
    }
  }

  // ----- a node queued behind a cancel

  /** A cancel arrives: the run record is flipped and the sweep begins. */
  lemma DoCancel(g: Graph, tr: seq<World>, pid: nat) returns (tr': seq<World>)
    requires tr != [] && IsExecution(g, tr) && Last(tr).run.Alive? && pid !in Last(tr).procs
    ensures tr' != [] && IsExecution(g, tr') && Last(tr').records == Last(tr).records
    ensures pid in Last(tr').procs && Last(tr').procs[pid].work == Sweeping(0) && Last(tr').procs[pid].check.Idle?
    ensures forall i :: i in Last(tr).procs ==> i in Last(tr').procs && Last(tr').procs[i] == Last(tr).procs[i]
  {
    tr' := Do(g, tr, Cancel(pid), Apply(g, Last(tr), Cancel(pid)));
    tr' := Do(g, tr', Tick(pid), Apply(g, Last(tr'), Tick(pid)));
  }

  /**
    The limit of the cancel guarantee: a dispatch that read the run record before the cancel flipped
    it can queue a node after the sweep has walked past, so the sweep ends with that node still queued.
   */
  lemma CancelCanLeaveNodeQueued(m: Names) returns (tr: seq<World>, sweeper: nat)
    requires Distinct(m)
    ensures tr != [] && IsExecution(Bowtie(m), tr)
    ensures sweeper in Last(tr).procs && Last(tr).procs[sweeper].work.Done?
    ensures m.x in Last(tr).records && Last(tr).records[m.x] == QUEUED
  {
    hide IsExecution, Incoming, Outgoing, Bowtie, Stale, R0, R1, AboutToQueue;
    tr := Stage0(m);
    tr := Stage1(m, tr);
    var rest: map<nat, Proc> := map[];
    rest := rest[1 := Call(m.a, 1, Stale(m), [Frame(m.a, 1)], false)];
    tr := Stage2(m, tr, rest);
    sweeper := 3;
    tr := DoCancel(Bowtie(m), tr, sweeper);
    AtX(m);
    var tail := LateEnqueueEscapesSweep(Bowtie(m), Last(tr), sweeper, 2, m.x);
    tr := Append(Bowtie(m), tr, tail);
  }
}
