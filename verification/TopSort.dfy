/**
  Kahn's algorithm with a lexicographic tie-break, and its layered form (core/topsort.go).

  Edges that touch an undeclared node are ignored and duplicate node entries count once, as in
  the source. The ready set of `TopologicalOrder` is a heap there; here it is a list from which
  a least element is removed, which is all that a heap's pop promises.
 */
module TopSort {
  import opened Graphs

  datatype Result<T> = Ok(value: T) | ErrCycle

  datatype Arc = Arc(from: string, to: string)

  // ----- strings in byte order

  predicate StrLe(a: string, b: string) {
    a == [] || (b != [] && (a[0] < b[0] || (a[0] == b[0] && StrLe(a[1..], b[1..]))))
  }

  lemma {:induction false} StrLeRefl(a: string)
    ensures StrLe(a, a)
  {
    if a != [] { StrLeRefl(a[1..]); }
  }

  lemma {:induction false} StrLeTotal(a: string, b: string)
    ensures StrLe(a, b) || StrLe(b, a)
  {
    if a != [] && b != [] { StrLeTotal(a[1..], b[1..]); }
  }

  lemma {:induction false} StrLeTrans(a: string, b: string, c: string)
    requires StrLe(a, b) && StrLe(b, c)
    ensures StrLe(a, c)
  {
    if a != [] && a[0] == b[0] == c[0] { StrLeTrans(a[1..], b[1..], c[1..]); }
  }

  lemma {:induction false} StrLeAntisymmetric(a: string, b: string)
    requires StrLe(a, b) && StrLe(b, a)
    ensures a == b
  {
    if a != [] && b != [] {
      StrLeAntisymmetric(a[1..], b[1..]);
      assert a == [a[0]] + a[1..] && b == [b[0]] + b[1..];
    }
  }

  predicate NoDup(s: seq<string>) {
    forall i, j :: 0 <= i < j < |s| ==> s[i] != s[j]
  }

  /** The order is by the first byte that differs, and a string comes before its extensions. */
  lemma {:induction false} StrLeIsByteOrder(a: string, b: string)
    ensures StrLe(a, b) <==> a <= b || exists k :: 0 <= k < |a| && k < |b| && a[..k] == b[..k] && a[k] < b[k]
  {
    if a != [] && b != [] && a[0] == b[0] {
      StrLeIsByteOrder(a[1..], b[1..]);
      assert a == [a[0]] + a[1..] && b == [b[0]] + b[1..];
      if k :| 0 <= k < |a[1..]| && k < |b[1..]| && a[1..][..k] == b[1..][..k] && a[1..][k] < b[1..][k] {
        assert a[..k + 1] == [a[0]] + a[1..][..k] && b[..k + 1] == [b[0]] + b[1..][..k];
        assert a[k + 1] < b[k + 1];
      }
      if k :| 0 <= k < |a| && k < |b| && a[..k] == b[..k] && a[k] < b[k] {
        assert a[1..][..k - 1] == a[..k][1..] && b[1..][..k - 1] == b[..k][1..];
        assert a[1..][k - 1] < b[1..][k - 1];
      }
    } else if a != [] && b != [] {
      if a[0] < b[0] { assert a[..0] == b[..0]; }
      if k :| 0 <= k < |a| && k < |b| && a[..k] == b[..k] && a[k] < b[k] {
        if k > 0 { assert a[..k][0] == b[..k][0]; }
      }
    }
  }

  predicate Ascending(s: seq<string>) {
    forall i, j :: 0 <= i < j < |s| ==> StrLe(s[i], s[j])
  }

  function Elems(s: seq<string>): set<string> {
    set x | x in s
  }

  lemma {:induction false} ElemsSize(s: seq<string>)
    requires NoDup(s)
    ensures |Elems(s)| == |s|
  {
    if s != [] {
      var t := s[..|s| - 1];
      ElemsSize(t);
      assert Elems(s) == Elems(t) + {s[|s| - 1]};
    }
  }

  // ----- the declared graph

  /** The arcs between declared nodes, in edge order. */
  function ArcsOf(edges: seq<Edge>, ids: set<string>): (r: seq<Arc>)
    ensures forall a :: a in r <==> a.from in ids && a.to in ids && exists e :: e in edges && a == Arc(e.from, e.to)
  {
    if edges == [] then []
    else
      var k := |edges| - 1;
      assert edges == edges[..k] + [edges[k]];
      var rest := ArcsOf(edges[..k], ids);
      if edges[k].from in ids && edges[k].to in ids then rest + [Arc(edges[k].from, edges[k].to)] else rest
  }

  function Arcs(g: Graph): seq<Arc> {
    ArcsOf(g.edges, Ids(g.nodes))
  }

  /** How many arcs into `n` start outside `done`. */
  function InDeg(arcs: seq<Arc>, done: set<string>, n: string): nat {
    if arcs == [] then 0
    else
      var k := |arcs| - 1;
      InDeg(arcs[..k], done, n) + if arcs[k].to == n && arcs[k].from !in done then 1 else 0
  }

  /** The heads of the arcs out of `n`, repeated as often as the arc is. */
  function Succ(arcs: seq<Arc>, n: string): seq<string> {
    if arcs == [] then []
    else
      var k := |arcs| - 1;
      Succ(arcs[..k], n) + if arcs[k].from == n then [arcs[k].to] else []
  }

  lemma {:induction false} InDegZero(arcs: seq<Arc>, done: set<string>, n: string)
    ensures InDeg(arcs, done, n) == 0 <==> forall a :: a in arcs && a.to == n ==> a.from in done
  {
    if arcs != [] {
      var k := |arcs| - 1;
      InDegZero(arcs[..k], done, n);
      assert arcs == arcs[..k] + [arcs[k]];
    }
  }

  /** Finishing `v` lowers the count of `n` by the number of arcs from `v` to `n`. */
  lemma {:induction false} InDegStep(arcs: seq<Arc>, done: set<string>, v: string, n: string)
    requires v !in done
    ensures InDeg(arcs, done, n) == InDeg(arcs, done + {v}, n) + multiset(Succ(arcs, v))[n]
  {
    if arcs != [] { InDegStep(arcs[..|arcs| - 1], done, v, n); }
  }

  /** All of `n`'s arcs come from `done`, and `n` is not there yet. */
  ghost predicate Ready(g: Graph, done: set<string>, n: string) {
    n in Ids(g.nodes) && n !in done && forall a :: a in Arcs(g) && a.to == n ==> a.from in done
  }

  // ----- what the algorithms promise

  ghost predicate IsTopOrder(g: Graph, o: seq<string>) {
    && NoDup(o) && Elems(o) == Ids(g.nodes)
    && forall a, i, j :: a in Arcs(g) && 0 <= i < |o| && 0 <= j < |o| && o[i] == a.from && o[j] == a.to ==> i < j
  }

  /** Consecutive elements are joined by arcs. */
  ghost predicate Chain(g: Graph, c: seq<string>) {
    forall i, j :: 0 <= i < j < |c| && j == i + 1 ==> Arc(c[i], c[j]) in Arcs(g)
  }

  ghost predicate IsCycle(g: Graph, c: seq<string>) {
    c != [] && Chain(g, c) && Arc(c[|c| - 1], c[0]) in Arcs(g)
  }

  /** `o` comes before `o'` or is equal to it, comparing element by element. */
  ghost predicate LexLe(o: seq<string>, o': seq<string>) {
    o == o' || exists k :: 0 <= k < |o| && k < |o'| && o[..k] == o'[..k] && o[k] != o'[k] && StrLe(o[k], o'[k])
  }

  lemma PrefixAgrees(o: seq<string>, o': seq<string>, k: nat)
    requires k <= |o| && k <= |o'| && o[..k] == o'[..k]
    ensures forall i :: 0 <= i < k ==> o[i] == o'[i]
  {
    forall i | 0 <= i < k ensures o[i] == o'[i] { assert o[..k][i] == o'[..k][i]; }
  }

  /** Comparing element by element, the least of several orders is one order. */
  lemma LexLeAntisymmetric(o: seq<string>, o': seq<string>)
    requires LexLe(o, o') && LexLe(o', o)
    ensures o == o'
  {
    if o != o' {
      var k :| 0 <= k < |o| && k < |o'| && o[..k] == o'[..k] && o[k] != o'[k] && StrLe(o[k], o'[k]);
      var m :| 0 <= m < |o'| && m < |o| && o'[..m] == o[..m] && o'[m] != o[m] && StrLe(o'[m], o[m]);
      PrefixAgrees(o, o', k);
      PrefixAgrees(o, o', m);
      StrLeAntisymmetric(o[k], o'[k]);
    }
  }

  /** Each element was a least ready one when it was taken. */
  ghost predicate Greedy(g: Graph, o: seq<string>) {
    && (forall k :: 0 <= k < |o| ==> Ready(g, Elems(o[..k]), o[k]))
    && (forall k, n :: 0 <= k < |o| && Ready(g, Elems(o[..k]), n) ==> StrLe(o[k], n))
  }

  ghost predicate IsPath(g: Graph, p: seq<string>) {
    p != [] && p[0] in Ids(g.nodes) && Chain(g, p)
  }

  /** The longest path ending at `n` has `k` edges. */
  ghost predicate LongestPathTo(g: Graph, n: string, k: nat) {
    && (exists p :: IsPath(g, p) && p[|p| - 1] == n && |p| == k + 1)
    && (forall p :: IsPath(g, p) && p[|p| - 1] == n ==> |p| <= k + 1)
  }

  // ----- cycles

  /** Strictly increasing numbers along every arc rule out a cycle. */
  lemma RankedIsAcyclic(g: Graph, rank: map<string, nat>, c: seq<string>)
    requires rank.Keys == Ids(g.nodes)
    requires forall a :: a in Arcs(g) ==> rank[a.from] < rank[a.to]
    ensures !IsCycle(g, c)
  {
    if IsCycle(g, c) {
      RankGrows(g, rank, c, |c| - 1);
    }
  }

  lemma {:induction false} RankGrows(g: Graph, rank: map<string, nat>, c: seq<string>, i: nat)
    requires rank.Keys == Ids(g.nodes)
    requires forall a :: a in Arcs(g) ==> rank[a.from] < rank[a.to]
    requires IsCycle(g, c) && i < |c|
    ensures c[0] in rank && c[i] in rank && rank[c[0]] <= rank[c[i]]
  {
    assert Arc(c[|c| - 1], c[0]) in Arcs(g);
    if i > 0 {
      RankGrows(g, rank, c, i - 1);
      assert Arc(c[i - 1], c[i]) in Arcs(g);
    }
  }

  /** When nothing is ready but something is left, walking backwards must close a cycle. */
  lemma StuckHasCycle(g: Graph, done: set<string>) returns (c: seq<string>)
    requires done < Ids(g.nodes)
    requires forall n :: !Ready(g, done, n)
    ensures IsCycle(g, c)
  {
    var n :| n in Ids(g.nodes) && n !in done;
    c := WalkBack(g, done, [n]);
  }

  lemma ChainFront(g: Graph, x: string, p: seq<string>)
    requires p != [] && Chain(g, p) && Arc(x, p[0]) in Arcs(g)
    ensures Chain(g, [x] + p)
  {
    hide Arcs;
    var q := [x] + p;
    forall i, j | 0 <= i < j < |q| && j == i + 1 ensures Arc(q[i], q[j]) in Arcs(g) {
      if i > 0 { assert q[i] == p[i - 1] && q[j] == p[j - 1]; }
    }
  }

  lemma CloseCycle(g: Graph, q: seq<string>, i: nat)
    requires Chain(g, q) && i + 1 < |q| && q[i + 1] == q[0]
    ensures IsCycle(g, q[..i + 1])
  {
    hide Arcs;
    assert Arc(q[i], q[i + 1]) in Arcs(g);
  }

  lemma {:induction false} WalkBack(g: Graph, done: set<string>, p: seq<string>) returns (c: seq<string>)
    requires forall n :: !Ready(g, done, n)
    requires p != [] && NoDup(p) && Elems(p) <= Ids(g.nodes) - done && Chain(g, p)
    ensures IsCycle(g, c)
    decreases |Ids(g.nodes) - done - Elems(p)|
  {
    hide Chain, IsCycle;
    assert p[0] in Elems(p);
    assert !Ready(g, done, p[0]);
    var a :| a in Arcs(g) && a.to == p[0] && a.from !in done;
    assert a == Arc(a.from, p[0]);
    var q := [a.from] + p;
    ChainFront(g, a.from, p);
    if a.from in p {
      var i :| 0 <= i < |p| && p[i] == a.from;
      CloseCycle(g, q, i);
      c := q[..i + 1];
    } else {
      assert Elems(q) == Elems(p) + {a.from};
      SmallerSet(Ids(g.nodes) - done - Elems(q), Ids(g.nodes) - done - Elems(p));
      c := WalkBack(g, done, q);
    }
  }

  lemma SmallerSet(a: set<string>, b: set<string>)
    requires a < b
    ensures |a| < |b|
  {
    var x :| x in b && x !in a;
    assert a <= b - {x};
    SubsetSize(a, b - {x});
  }

  lemma {:induction false} SubsetSize(a: set<string>, b: set<string>)
    requires a <= b
    ensures |a| <= |b|
    decreases a
  {
    if a != {} {
      var x :| x in a;
      SubsetSize(a - {x}, b - {x});
    }
  }

  // ----- the building blocks

  function At(succ: map<string, seq<string>>, n: string): seq<string> {
    if n in succ then succ[n] else []
  }

  ghost predicate Degrees(arcs: seq<Arc>, ids: set<string>, indeg: map<string, int>, done: set<string>) {
    indeg.Keys == ids && forall n :: n in indeg ==> indeg[n] == InDeg(arcs, done, n)
  }

  ghost predicate Heads(arcs: seq<Arc>, succ: map<string, seq<string>>) {
    forall n :: At(succ, n) == Succ(arcs, n)
  }

  /** The working counts agree with the arcs still open after `done`. */
  ghost predicate Counts(g: Graph, indeg: map<string, int>, done: set<string>) {
    Degrees(Arcs(g), Ids(g.nodes), indeg, done)
  }

  ghost predicate Adjacent(g: Graph, succ: map<string, seq<string>>) {
    Heads(Arcs(g), succ)
  }

  lemma OneMoreEdge(edges: seq<Edge>, i: nat, ids: set<string>)
    requires i < |edges|
    ensures var arcs, more, e := ArcsOf(edges[..i], ids), ArcsOf(edges[..i + 1], ids), edges[i];
            more == if e.from in ids && e.to in ids then arcs + [Arc(e.from, e.to)] else arcs
  {
    assert edges[..i + 1][..i] == edges[..i];
  }

  lemma OneMoreArc(arcs: seq<Arc>, a: Arc, done: set<string>, n: string)
    ensures InDeg(arcs + [a], done, n) == InDeg(arcs, done, n) + if a.to == n && a.from !in done then 1 else 0
    ensures Succ(arcs + [a], n) == Succ(arcs, n) + if a.from == n then [a.to] else []
  {
    assert (arcs + [a])[..|arcs|] == arcs;
  }

  lemma AdjacencyStep(arcs: seq<Arc>, ids: set<string>, indeg: map<string, int>, succ: map<string, seq<string>>, a: Arc)
    requires Degrees(arcs, ids, indeg, {}) && Heads(arcs, succ) && a.from in ids && a.to in ids
    ensures Degrees(arcs + [a], ids, indeg[a.to := indeg[a.to] + 1], {})
    ensures Heads(arcs + [a], succ[a.from := At(succ, a.from) + [a.to]])
  {
    hide InDeg, Succ;
    forall n ensures
      InDeg(arcs + [a], {}, n) == InDeg(arcs, {}, n) + (if a.to == n then 1 else 0) &&
      Succ(arcs + [a], n) == Succ(arcs, n) + if a.from == n then [a.to] else []
    {
      OneMoreArc(arcs, a, {}, n);
    }
  }

  method BuildAdjacency(g: Graph) returns (indeg: map<string, int>, succ: map<string, seq<string>>)
    ensures Counts(g, indeg, {}) && Adjacent(g, succ)
  {
    hide Ids, ArcsOf, Degrees, Heads, InDeg, Succ;
    indeg, succ := map[], map[];
    IdsStart(g.nodes);
    for i := 0 to |g.nodes|
      invariant indeg.Keys == Ids(g.nodes[..i])
      invariant forall n :: n in indeg ==> indeg[n] == 0
    {
      IdsStep(g.nodes, i);
      indeg := indeg[g.nodes[i].id := 0];
    }
    assert g.nodes[..|g.nodes|] == g.nodes;
    ghost var ids := Ids(g.nodes);
    assert g.edges[..0] == [];
    NoArcs(ids, indeg);
    for i := 0 to |g.edges|
      invariant indeg.Keys == ids && Degrees(ArcsOf(g.edges[..i], ids), ids, indeg, {})
      invariant Heads(ArcsOf(g.edges[..i], ids), succ)
    {
      var e := g.edges[i];
      OneMoreEdge(g.edges, i, ids);
      if e.from !in indeg { continue; }
      if e.to !in indeg { continue; }
      AdjacencyStep(ArcsOf(g.edges[..i], ids), ids, indeg, succ, Arc(e.from, e.to));
      succ := succ[e.from := At(succ, e.from) + [e.to]];
      indeg := indeg[e.to := indeg[e.to] + 1];
    }
    assert g.edges[..|g.edges|] == g.edges;
  }

  lemma IdsStart(nodes: seq<Node>)
    ensures Ids(nodes[..0]) == {}
  {
  }

  lemma IdsStep(nodes: seq<Node>, i: nat)
    requires i < |nodes|
    ensures Ids(nodes[..i + 1]) == Ids(nodes[..i]) + {nodes[i].id}
  {
    assert nodes[..i + 1] == nodes[..i] + [nodes[i]];
    assert nodes[..i + 1][i] == nodes[i];
  }

  lemma NoArcs(ids: set<string>, indeg: map<string, int>)
    requires indeg.Keys == ids && forall n :: n in indeg ==> indeg[n] == 0
    ensures Degrees(ArcsOf([], ids), ids, indeg, {}) && Heads(ArcsOf([], ids), map[])
  {
  }

  /** The nodes whose count is zero, each once, in some order. */
  method ReadyNodes(g: Graph, indeg: map<string, int>) returns (ready: seq<string>)
    requires Counts(g, indeg, {})
    ensures NoDup(ready) && forall n :: n in ready <==> Ready(g, {}, n)
  {
    ready := [];
    var left := indeg.Keys;
    while left != {}
      invariant left <= indeg.Keys && NoDup(ready)
      invariant forall n :: n in ready <==> n in indeg && n !in left && indeg[n] == 0
    {
      var n :| n in left;
      left := left - {n};
      if indeg[n] == 0 { ready := ready + [n]; }
    }
    forall n ensures n in ready <==> Ready(g, {}, n) {
      InDegZero(Arcs(g), {}, n);
    }
  }

  /** Takes a least element out of a non-empty list. */
  method PopMin(ready: seq<string>) returns (least: string, rest: seq<string>)
    requires ready != [] && NoDup(ready)
    ensures least in ready && NoDup(rest) && forall n :: n in rest <==> n in ready && n != least
    ensures forall n :: n in ready ==> StrLe(least, n)
  {
    var k := 0;
    StrLeRefl(ready[0]);
    for i := 1 to |ready|
      invariant k < i
      invariant forall j :: 0 <= j < i ==> StrLe(ready[k], ready[j])
    {
      if !StrLe(ready[k], ready[i]) {
        StrLeTotal(ready[k], ready[i]);
        forall j | 0 <= j < i ensures StrLe(ready[i], ready[j]) { StrLeTrans(ready[i], ready[k], ready[j]); }
        StrLeRefl(ready[i]);
        k := i;
      }
    }
    least, rest := ready[k], ready[..k] + ready[k + 1..];
  }

  /** How often `n` occurs from position `i` on. */
  function Rest(s: seq<string>, i: nat, n: string): nat
    requires i <= |s|
  {
    multiset(s[i..])[n]
  }

  lemma RestStep(s: seq<string>, i: nat, n: string)
    requires i < |s|
    ensures Rest(s, i, n) == Rest(s, i + 1, n) + if s[i] == n then 1 else 0
  {
    assert s[i..] == [s[i]] + s[i + 1..];
  }

  lemma RestEnds(s: seq<string>, n: string)
    ensures Rest(s, 0, n) == multiset(s)[n] && Rest(s, |s|, n) == 0
  {
    assert s[0..] == s;
  }

  /** `v` is finished: lower its successors' counts and list those that reach zero, each once. */
  method Release(g: Graph, indeg: map<string, int>, succ: map<string, seq<string>>, ghost done: set<string>, v: string)
    returns (indeg': map<string, int>, released: seq<string>)
    requires Counts(g, indeg, done) && Adjacent(g, succ) && v !in done
    ensures Counts(g, indeg', done + {v}) && indeg'.Keys == indeg.Keys && NoDup(released)
    ensures forall n :: n in released <==>
              n in indeg && InDeg(Arcs(g), done, n) > 0 && InDeg(Arcs(g), done + {v}, n) == 0
  {
    hide InDeg, Succ, Arcs, Rest, Ids;
    indeg', released := indeg, [];
    var next := At(succ, v);
    ghost var arcs := Arcs(g);
    SuccDeclared(g, v);
    forall n
      ensures InDeg(arcs, done, n) == InDeg(arcs, done + {v}, n) + Rest(next, 0, n) && Rest(next, |next|, n) == 0
    {
      InDegStep(arcs, done, v, n);
      RestEnds(next, n);
    }
    for i := 0 to |next|
      invariant indeg'.Keys == indeg.Keys && NoDup(released)
      invariant forall n :: Rest(next, i, n) <= Rest(next, 0, n)
      invariant forall n :: n in indeg' ==> indeg'[n] == InDeg(arcs, done + {v}, n) + Rest(next, i, n)
      invariant forall n :: n in released <==> n in indeg && InDeg(arcs, done, n) > 0 && indeg'[n] == 0
    {
      var s := next[i];
      forall n ensures Rest(next, i, n) == Rest(next, i + 1, n) + if s == n then 1 else 0 { RestStep(next, i, n); }
      indeg' := indeg'[s := indeg'[s] - 1];
      if indeg'[s] == 0 { released := released + [s]; }
    }
  }

  lemma SuccDeclared(g: Graph, v: string)
    ensures forall n :: n in Succ(Arcs(g), v) ==> n in Ids(g.nodes) && Arc(v, n) in Arcs(g)
  {
    SuccIsArc(Arcs(g), v);
  }

  lemma {:induction false} SuccIsArc(arcs: seq<Arc>, v: string)
    ensures forall n :: n in Succ(arcs, v) ==> Arc(v, n) in arcs
  {
    if arcs != [] { SuccIsArc(arcs[..|arcs| - 1], v); }
  }

  /** What becomes ready when `v` is finished. */
  lemma ReadyStep(g: Graph, done: set<string>, v: string, n: string)
    requires Ready(g, done, v) && n != v
    ensures Ready(g, done + {v}, n) <==>
            Ready(g, done, n) ||
            (n in Ids(g.nodes) && InDeg(Arcs(g), done, n) > 0 && InDeg(Arcs(g), done + {v}, n) == 0 && n !in done)
  {
    InDegZero(Arcs(g), done, n);
    InDegZero(Arcs(g), done + {v}, n);
  }

  // ----- TopologicalOrder

  /** Finished nodes have no open arcs left. */
  ghost predicate Settled(g: Graph, done: set<string>) {
    done <= Ids(g.nodes) && forall n :: n in done ==> InDeg(Arcs(g), done, n) == 0
  }

  ghost predicate Lists(g: Graph, done: set<string>, ready: seq<string>) {
    NoDup(ready) && forall n :: n in ready <==> Ready(g, done, n)
  }

  lemma SettledStep(g: Graph, done: set<string>, v: string)
    requires Settled(g, done) && Ready(g, done, v)
    ensures Settled(g, done + {v}) && InDeg(Arcs(g), done, v) == 0
    ensures |Ids(g.nodes) - (done + {v})| < |Ids(g.nodes) - done|
  {
    forall n | n in done + {v}
      ensures InDeg(Arcs(g), done + {v}, n) == 0 && InDeg(Arcs(g), done, v) == 0
    {
      InDegZero(Arcs(g), done, n);
      InDegZero(Arcs(g), done, v);
      InDegZero(Arcs(g), done + {v}, n);
    }
    assert v in done + {v};
    SmallerSet(Ids(g.nodes) - (done + {v}), Ids(g.nodes) - done);
  }

  lemma ListsStep(g: Graph, done: set<string>, v: string, rest: seq<string>, released: seq<string>)
    requires Settled(g, done) && Ready(g, done, v) && NoDup(rest) && NoDup(released)
    requires forall n :: n in rest <==> Ready(g, done, n) && n != v
    requires forall n :: n in released <==>
               n in Ids(g.nodes) && InDeg(Arcs(g), done, n) > 0 && InDeg(Arcs(g), done + {v}, n) == 0
    ensures Lists(g, done + {v}, rest + released)
  {
    SettledStep(g, done, v);
    forall n ensures n in rest + released <==> Ready(g, done + {v}, n) {
      if n != v { ReadyStep(g, done, v, n); }
    }
    forall i, j | 0 <= i < j < |rest + released| ensures (rest + released)[i] != (rest + released)[j] {
      if i < |rest| <= j {
        assert rest[i] in rest && released[j - |rest|] in released;
        InDegZero(Arcs(g), done, rest[i]);
      }
    }
  }

  lemma GreedyStep(g: Graph, o: seq<string>, v: string)
    requires Greedy(g, o) && NoDup(o) && Ready(g, Elems(o), v)
    requires forall n :: Ready(g, Elems(o), n) ==> StrLe(v, n)
    ensures Greedy(g, o + [v]) && NoDup(o + [v]) && Elems(o + [v]) == Elems(o) + {v}
  {
    hide Ready;
    var o' := o + [v];
    assert forall k :: 0 <= k <= |o| ==> o'[..k] == o[..k];
    assert o[..|o|] == o;
    assert v !in Elems(o) by { NotYet(g, Elems(o), v); }
    forall k | 0 <= k < |o'| ensures Ready(g, Elems(o'[..k]), o'[k]) {
      if k < |o| { assert Ready(g, Elems(o[..k]), o[k]); }
    }
    forall k, n | 0 <= k < |o'| && Ready(g, Elems(o'[..k]), n) ensures StrLe(o'[k], n) {
      if k < |o| { assert Ready(g, Elems(o[..k]), n); }
    }
  }

  lemma NotYet(g: Graph, done: set<string>, v: string)
    requires Ready(g, done, v)
    ensures v !in done && v in Ids(g.nodes)
  {
  }

  lemma GreedyIsTopOrder(g: Graph, o: seq<string>)
    requires Greedy(g, o) && NoDup(o) && Elems(o) == Ids(g.nodes)
    ensures IsTopOrder(g, o)
  {
    forall a, i, j | a in Arcs(g) && 0 <= i < |o| && 0 <= j < |o| && o[i] == a.from && o[j] == a.to
      ensures i < j
    {
      assert Ready(g, Elems(o[..j]), o[j]);
      assert a.from in o[..j];
    }
  }

  lemma TopOrderReady(g: Graph, o: seq<string>, k: nat)
    requires IsTopOrder(g, o) && k < |o|
    ensures Ready(g, Elems(o[..k]), o[k])
  {
    assert o[k] in Elems(o);
    forall a | a in Arcs(g) && a.to == o[k] ensures a.from in Elems(o[..k]) {
      assert a.from in Elems(o);
      var i :| 0 <= i < |o| && o[i] == a.from;
      assert i < k;
      assert o[..k][i] == a.from;
    }
  }

  /** Taking a least ready node every time gives the least order of all. */
  lemma {:induction false} GreedyIsLeast(g: Graph, o: seq<string>, o': seq<string>, k: nat)
    requires Greedy(g, o) && IsTopOrder(g, o) && IsTopOrder(g, o')
    requires k <= |o| && |o| == |o'| && o[..k] == o'[..k]
    ensures LexLe(o, o')
    decreases |o| - k
  {
    hide Ready, IsTopOrder;
    if k == |o| {
      assert o == o[..k] == o'[..k] == o';
    } else if o[k] == o'[k] {
      assert o[..k + 1] == o[..k] + [o[k]] && o'[..k + 1] == o'[..k] + [o'[k]];
      GreedyIsLeast(g, o, o', k + 1);
    } else {
      TopOrderReady(g, o', k);
      assert Ready(g, Elems(o[..k]), o'[k]);
    }
  }

  lemma TopOrderIsAcyclic(g: Graph, o: seq<string>)
    requires IsTopOrder(g, o)
    ensures forall c :: !IsCycle(g, c)
  {
    var rank := RankOf(g, o);
    forall c ensures !IsCycle(g, c) { RankedIsAcyclic(g, rank, c); }
  }

  lemma RankOf(g: Graph, o: seq<string>) returns (rank: map<string, nat>)
    requires IsTopOrder(g, o)
    ensures rank.Keys == Ids(g.nodes) && forall a :: a in Arcs(g) ==> rank[a.from] < rank[a.to]
  {
    assert forall n :: n in Ids(g.nodes) ==> n in Elems(o);
    rank := map n | n in Ids(g.nodes) :: Position(o, n);
  }

  function Position(o: seq<string>, n: string): (i: nat)
    requires n in o
    ensures i < |o| && o[i] == n
  {
    if o[0] == n then 0 else
      assert o == [o[0]] + o[1..];
      1 + Position(o[1..], n)
  }

  /** The order is what submission validation asks of a graph before it is run. */
  lemma OrderMakesRunnable(g: Graph, o: seq<string>) returns (rank: map<string, nat>)
    requires IsTopOrder(g, o) && UniqueIds(g.nodes) && Wired(g) && g.nodes != []
    ensures Runnable(g, rank)
  {
    rank := RankOf(g, o);
    forall e | e in g.edges ensures rank[e.from] < rank[e.to] {
      assert Arc(e.from, e.to) in Arcs(g);
    }
  }

  /** The loop: takes least ready nodes until none is ready. */
  method TakeLeast(g: Graph) returns (order: seq<string>, total: nat)
    ensures NoDup(order) && Greedy(g, order) && Settled(g, Elems(order)) && Lists(g, Elems(order), [])
    ensures total == |Ids(g.nodes)|
  {
    var indeg, succ := BuildAdjacency(g);
    DeclaredKeys(g, indeg, {});
    var ready := ReadyNodes(g, indeg);
    order := [];
    ghost var done := {};
    ghost var ids := Ids(g.nodes);
    GreedyEmpty(g);
    assert Lists(g, done, ready);
    hide *;
    while ready != []
      invariant Counts(g, indeg, done) && indeg.Keys == ids && Settled(g, done) && Lists(g, done, ready)
      invariant done == Elems(order) && NoDup(order) && Greedy(g, order)
      decreases |ids - done|
    {
      ListsNoDup(g, done, ready);
      var next, rest := PopMin(ready);
      Popped(g, done, ready, next, rest);
      GreedyStep(g, order, next);
      SettledStep(g, done, next);
      order := order + [next];
      var indeg', released := Release(g, indeg, succ, done, next);
      ListsStep(g, done, next, rest, released);
      indeg, ready, done := indeg', rest + released, done + {next};
    }
    total := |indeg|;
    assert |indeg| == |indeg.Keys|;
  }

  method TopologicalOrder(g: Graph) returns (r: Result<seq<string>>)
    ensures r.Ok? <==> forall c :: !IsCycle(g, c)
    ensures r.Ok? ==> IsTopOrder(g, r.value) && forall o :: IsTopOrder(g, o) ==> LexLe(r.value, o)
  {
    hide *;
    var order, total := TakeLeast(g);
    ghost var done := Elems(order);
    ElemsSize(order);
    SettledDeclared(g, done);
    NothingReady(g, done);
    if |order| != total {
      r := ErrCycle;
      assert done != Ids(g.nodes);
      ghost var c := StuckHasCycle(g, done);
    } else {
      r := Ok(order);
      SameSize(done, Ids(g.nodes));
      GreedyIsTopOrder(g, order);
      TopOrderIsAcyclic(g, order);
      forall o | IsTopOrder(g, o) ensures LexLe(order, o) {
        TopOrderSize(g, o);
        assert order[..0] == o[..0];
        GreedyIsLeast(g, order, o, 0);
      }
    }
  }

  /** What is taken out of the ready list is a least ready node, and the list keeps the others. */
  lemma Popped(g: Graph, done: set<string>, ready: seq<string>, next: string, rest: seq<string>)
    requires Lists(g, done, ready) && next in ready && forall n :: n in ready ==> StrLe(next, n)
    requires forall n :: n in rest <==> n in ready && n != next
    ensures Ready(g, done, next) && next !in done && forall n :: Ready(g, done, n) ==> StrLe(next, n)
    ensures forall n :: n in rest <==> Ready(g, done, n) && n != next
  {
  }

  lemma SameSize(a: set<string>, b: set<string>)
    requires a <= b && |a| == |b|
    ensures a == b
  {
    if a != b { SmallerSet(a, b); }
  }

  lemma TopOrderSize(g: Graph, o: seq<string>)
    requires IsTopOrder(g, o)
    ensures |o| == |Ids(g.nodes)|
  {
    ElemsSize(o);
  }

  lemma GreedyEmpty(g: Graph)
    ensures Greedy(g, []) && Settled(g, {})
  {
  }

  // ----- ExecutionLayers

  function Covered(layers: seq<seq<string>>): set<string> {
    if layers == [] then {} else Covered(layers[..|layers| - 1]) + Elems(layers[|layers| - 1])
  }

  /** Each layer lists, in ascending order, what the layers before it made ready. */
  ghost predicate Layered(g: Graph, layers: seq<seq<string>>) {
    forall k :: 0 <= k < |layers| ==> Ascending(layers[k]) && Lists(g, Covered(layers[..k]), layers[k])
  }

  lemma {:induction false} CoveredBy(layers: seq<seq<string>>, n: string)
    ensures n in Covered(layers) <==> exists k :: 0 <= k < |layers| && n in layers[k]
  {
    if layers != [] {
      var m := |layers| - 1;
      CoveredBy(layers[..m], n);
      if n in Covered(layers[..m]) {
        var k :| 0 <= k < m && n in layers[..m][k];
        assert n in layers[k];
      }
      if k :| 0 <= k < |layers| && n in layers[k] {
        assert k < m ==> n in layers[..m][k];
      }
    }
  }

  lemma CoveredPrefix(layers: seq<seq<string>>, k: nat, n: string)
    requires k <= |layers|
    ensures n in Covered(layers[..k]) <==> exists j :: 0 <= j < k && n in layers[j]
  {
    CoveredBy(layers[..k], n);
    if j :| 0 <= j < k && n in layers[j] { assert n in layers[..k][j]; }
    if j :| 0 <= j < |layers[..k]| && n in layers[..k][j] { assert n in layers[j]; }
  }

  /** No path to a node of layer `k` has more than `k` edges. */
  lemma {:induction false} PathsAreShort(g: Graph, layers: seq<seq<string>>, k: nat, p: seq<string>)
    requires Layered(g, layers) && k < |layers|
    requires IsPath(g, p) && p[|p| - 1] in layers[k]
    ensures |p| <= k + 1
    decreases k
  {
    if |p| > 1 {
      var m := |p| - 1;
      var n, f := p[m], p[m - 1];
      assert Lists(g, Covered(layers[..k]), layers[k]);
      assert Ready(g, Covered(layers[..k]), n);
      assert Arc(f, n) in Arcs(g);
      CoveredPrefix(layers, k, f);
      var j :| 0 <= j < k && f in layers[j];
      PathPrefix(g, p);
      PathsAreShort(g, layers, j, p[..m]);
    }
  }

  lemma PathPrefix(g: Graph, p: seq<string>)
    requires IsPath(g, p) && |p| > 1
    ensures IsPath(g, p[..|p| - 1])
  {
  }

  /** Some path to a node of layer `k` has exactly `k` edges. */
  lemma {:induction false} PathOfLength(g: Graph, layers: seq<seq<string>>, k: nat, n: string) returns (p: seq<string>)
    requires Layered(g, layers) && k < |layers| && n in layers[k]
    ensures IsPath(g, p) && p[|p| - 1] == n && |p| == k + 1
    decreases k
  {
    assert Lists(g, Covered(layers[..k]), layers[k]);
    assert Ready(g, Covered(layers[..k]), n);
    if k == 0 {
      p := [n];
    } else {
      var f := LatePredecessor(g, layers, k, n);
      var q := PathOfLength(g, layers, k - 1, f);
      p := q + [n];
      PathSnoc(g, q, n);
    }
  }

  lemma PathSnoc(g: Graph, q: seq<string>, n: string)
    requires IsPath(g, q) && Arc(q[|q| - 1], n) in Arcs(g)
    ensures IsPath(g, q + [n])
  {
    hide Arcs;
    var p := q + [n];
    forall i, j | 0 <= i < j < |p| && j == i + 1 ensures Arc(p[i], p[j]) in Arcs(g) {
      if j < |q| { assert Arc(q[i], q[j]) in Arcs(g); }
    }
  }

  /** A node waits for the layer right before its own. */
  lemma LatePredecessor(g: Graph, layers: seq<seq<string>>, k: nat, n: string) returns (f: string)
    requires Layered(g, layers) && 0 < k < |layers| && n in layers[k]
    ensures f in layers[k - 1] && Arc(f, n) in Arcs(g)
  {
    var before, prev := Covered(layers[..k]), Covered(layers[..k - 1]);
    assert Lists(g, before, layers[k]) && Lists(g, prev, layers[k - 1]);
    assert layers[..k][..k - 1] == layers[..k - 1];
    assert before == prev + Elems(layers[k - 1]);
    assert Ready(g, before, n) && n !in layers[k - 1];
    assert !Ready(g, prev, n);
    var a :| a in Arcs(g) && a.to == n && a.from !in prev;
    f := a.from;
    assert a == Arc(f, n);
  }

  lemma LayerIsLongestPath(g: Graph, layers: seq<seq<string>>, k: nat, n: string)
    requires Layered(g, layers) && k < |layers| && n in layers[k]
    ensures LongestPathTo(g, n, k)
  {
    var p := PathOfLength(g, layers, k, n);
    forall p | IsPath(g, p) && p[|p| - 1] == n ensures |p| <= k + 1 { PathsAreShort(g, layers, k, p); }
  }

  /** In a full layering the layers are exactly the classes of equal longest-path length. */
  lemma LayersAreDepths(g: Graph, layers: seq<seq<string>>, k: nat, n: string)
    requires Layered(g, layers) && Covered(layers) == Ids(g.nodes) && k < |layers|
    ensures n in layers[k] <==> n in Ids(g.nodes) && LongestPathTo(g, n, k)
  {
    hide LongestPathTo, Layered;
    CoveredBy(layers, n);
    if n in layers[k] {
      LayerIsLongestPath(g, layers, k, n);
    } else if n in Ids(g.nodes) && LongestPathTo(g, n, k) {
      var j :| 0 <= j < |layers| && n in layers[j];
      LayerIsLongestPath(g, layers, j, n);
      OneLongest(g, n, j, k);
    }
  }

  lemma OneLongest(g: Graph, n: string, j: nat, k: nat)
    requires LongestPathTo(g, n, j) && LongestPathTo(g, n, k)
    ensures j == k
  {
  }

  lemma LayeringIsAcyclic(g: Graph, layers: seq<seq<string>>)
    requires Layered(g, layers) && Covered(layers) == Ids(g.nodes)
    ensures forall c :: !IsCycle(g, c)
  {
    forall n | n in Ids(g.nodes) ensures exists k :: 0 <= k < |layers| && n in layers[k] { CoveredBy(layers, n); }
    var rank := map n | n in Ids(g.nodes) :: LayerOf(layers, n);
    forall a | a in Arcs(g) ensures rank[a.from] < rank[a.to] {
      var k := rank[a.to];
      assert Lists(g, Covered(layers[..k]), layers[k]);
      assert Ready(g, Covered(layers[..k]), a.to);
      CoveredPrefix(layers, k, a.from);
      var j :| 0 <= j < k && a.from in layers[j];
      OneLayer(g, layers, j, rank[a.from], a.from);
    }
    forall c ensures !IsCycle(g, c) { RankedIsAcyclic(g, rank, c); }
  }

  ghost function LayerOf(layers: seq<seq<string>>, n: string): (k: nat)
    requires exists k :: 0 <= k < |layers| && n in layers[k]
    ensures k < |layers| && n in layers[k]
  {
    var k :| 0 <= k < |layers| && n in layers[k];
    k
  }

  lemma OneLayer(g: Graph, layers: seq<seq<string>>, j: nat, k: nat, n: string)
    requires Layered(g, layers) && j < |layers| && k < |layers| && n in layers[j] && n in layers[k]
    ensures j == k
  {
    LayerIsLongestPath(g, layers, j, n);
    LayerIsLongestPath(g, layers, k, n);
    OneLongest(g, n, j, k);
  }

  /** Inserts into an ascending list. */
  method Insert(x: string, s: seq<string>) returns (r: seq<string>)
    requires Ascending(s) && NoDup(s) && x !in s
    ensures Ascending(r) && NoDup(r) && |r| == |s| + 1 && forall n :: n in r <==> n in s || n == x
  {
    var i := 0;
    while i < |s| && StrLe(s[i], x)
      invariant i <= |s|
      invariant forall j :: 0 <= j < i ==> StrLe(s[j], x)
    {
      i := i + 1;
    }
    forall j | i <= j < |s| ensures StrLe(x, s[j]) {
      StrLeTotal(s[i], x);
      if i < j { StrLeTrans(x, s[i], s[j]); }
    }
    r := s[..i] + [x] + s[i..];
  }

  method SortStrings(s: seq<string>) returns (r: seq<string>)
    requires NoDup(s)
    ensures Ascending(r) && NoDup(r) && |r| == |s| && forall n :: n in r <==> n in s
  {
    r := [];
    for i := 0 to |s|
      invariant Ascending(r) && NoDup(r) && |r| == i && forall n :: n in r <==> n in s[..i]
    {
      assert s[..i + 1] == s[..i] + [s[i]];
      r := Insert(s[i], r);
    }
    assert s[..|s|] == s;
  }

  /** `next` lists what is ready by now beyond the layer being finished. */
  ghost predicate Beyond(g: Graph, done: set<string>, current: seq<string>, next: seq<string>) {
    NoDup(next) && forall n :: n in next <==> Ready(g, done, n) && n !in current
  }

  lemma BeyondStep(g: Graph, done: set<string>, v: string, current: seq<string>, next: seq<string>, released: seq<string>)
    requires Settled(g, done) && Ready(g, done, v) && Beyond(g, done, current, next) && NoDup(released)
    requires v in current && forall n :: n in current ==> InDeg(Arcs(g), done, n) == 0
    requires forall n :: n in released <==>
               n in Ids(g.nodes) && InDeg(Arcs(g), done, n) > 0 && InDeg(Arcs(g), done + {v}, n) == 0
    ensures Beyond(g, done + {v}, current, next + released)
  {
    SettledStep(g, done, v);
    forall n ensures n in next + released <==> Ready(g, done + {v}, n) && n !in current {
      if n != v { ReadyStep(g, done, v, n); }
    }
    forall i, j | 0 <= i < j < |next + released| ensures (next + released)[i] != (next + released)[j] {
      if i < |next| <= j {
        assert next[i] in next && released[j - |next|] in released;
        InDegZero(Arcs(g), done, next[i]);
      }
    }
  }

  /** Nodes of the current layer stay ready until they are finished themselves. */
  lemma StillReady(g: Graph, done: set<string>, mid: set<string>, n: string)
    requires Ready(g, done, n) && done <= mid
    ensures InDeg(Arcs(g), mid, n) == 0 && (n !in mid ==> Ready(g, mid, n))
  {
    InDegZero(Arcs(g), mid, n);
  }

  lemma CurrentReady(g: Graph, done: set<string>, current: seq<string>, i: nat)
    requires Lists(g, done, current) && i < |current|
    ensures var mid, v := done + Elems(current[..i]), current[i];
            Ready(g, mid, v) && v !in mid && mid + {v} == done + Elems(current[..i + 1])
    ensures forall n :: n in current ==> InDeg(Arcs(g), done + Elems(current[..i]), n) == 0
  {
    hide InDeg, Arcs;
    var mid, v := done + Elems(current[..i]), current[i];
    forall n | n in current ensures InDeg(Arcs(g), mid, n) == 0 && (n !in mid ==> Ready(g, mid, n)) {
      StillReady(g, done, mid, n);
    }
    assert v in current && v !in current[..i] && Ready(g, done, v);
  }

  lemma LayerDone(g: Graph, done: set<string>, current: seq<string>, next: seq<string>)
    requires Beyond(g, done + Elems(current), current, next)
    ensures Lists(g, done + Elems(current), next)
  {
  }

  /** Finishes a whole layer, collecting the next one. */
  method FinishLayer(g: Graph, indeg: map<string, int>, succ: map<string, seq<string>>, ghost done: set<string>,
                     current: seq<string>)
    returns (indeg': map<string, int>, next: seq<string>)
    requires Counts(g, indeg, done) && Adjacent(g, succ) && Settled(g, done) && Lists(g, done, current)
    ensures Counts(g, indeg', done + Elems(current)) && indeg'.Keys == indeg.Keys
    ensures Settled(g, done + Elems(current)) && Lists(g, done + Elems(current), next)
  {
    indeg', next := indeg, [];
    ghost var mid := done;
    hide Counts, Adjacent, Ready, Settled, InDeg, Arcs, Ids, Lists, Beyond, Elems, NoDup;
    LayerStart(g, done, current);
    for i := 0 to |current|
      invariant mid == done + Elems(current[..i])
      invariant Counts(g, indeg', mid) && indeg'.Keys == indeg.Keys && Settled(g, mid) && Beyond(g, mid, current, next)
    {
      var v := current[i];
      CurrentReady(g, done, current, i);
      DeclaredKeys(g, indeg', mid);
      var released;
      indeg', released := Release(g, indeg', succ, mid, v);
      BeyondStep(g, mid, v, current, next, released);
      SettledStep(g, mid, v);
      next, mid := next + released, mid + {v};
    }
    assert current[..|current|] == current;
    LayerDone(g, done, current, next);
  }

  lemma LayerStart(g: Graph, done: set<string>, current: seq<string>)
    requires Lists(g, done, current)
    ensures done == done + Elems(current[..0]) && Beyond(g, done, current, [])
  {
  }

  lemma DeclaredKeys(g: Graph, indeg: map<string, int>, done: set<string>)
    requires Counts(g, indeg, done)
    ensures indeg.Keys == Ids(g.nodes)
  {
  }

  lemma LayeredStep(g: Graph, layers: seq<seq<string>>, layer: seq<string>)
    requires Layered(g, layers) && Ascending(layer) && Lists(g, Covered(layers), layer)
    ensures Layered(g, layers + [layer]) && Covered(layers + [layer]) == Covered(layers) + Elems(layer)
  {
    hide Lists;
    var more := layers + [layer];
    assert forall k :: 0 <= k <= |layers| ==> more[..k] == layers[..k];
    assert layers[..|layers|] == layers;
  }

  lemma LayerProgress(g: Graph, done: set<string>, layer: seq<string>)
    requires Settled(g, done) && Lists(g, done, layer) && layer != []
    ensures |Ids(g.nodes) - (done + Elems(layer))| < |Ids(g.nodes) - done|
    ensures |done + Elems(layer)| == |done| + |layer|
  {
    assert layer[0] in layer;
    assert forall n :: n in layer ==> Ready(g, done, n);
    SmallerSet(Ids(g.nodes) - (done + Elems(layer)), Ids(g.nodes) - done);
    ElemsSize(layer);
    assert done !! Elems(layer);
  }

  lemma NothingLayered(g: Graph, ready: seq<string>)
    requires NoDup(ready) && forall n :: n in ready <==> Ready(g, {}, n)
    ensures Settled(g, {}) && Lists(g, {}, ready) && Layered(g, []) && Covered([]) == {}
  {
  }

  /** The loop: peels off layers until none is ready. */
  method PeelLayers(g: Graph) returns (layers: seq<seq<string>>, processed: nat, total: nat)
    ensures Layered(g, layers) && Settled(g, Covered(layers)) && Lists(g, Covered(layers), [])
    ensures processed == |Covered(layers)| && total == |Ids(g.nodes)|
  {
    hide *;
    var indeg, succ := BuildAdjacency(g);
    DeclaredKeys(g, indeg, {});
    layers, processed := [], 0;
    var current := ReadyNodes(g, indeg);
    ghost var ids := Ids(g.nodes);
    ghost var done := {};
    NothingLayered(g, current);
    while current != []
      invariant Counts(g, indeg, done) && indeg.Keys == ids && Settled(g, done) && Lists(g, done, current)
      invariant Layered(g, layers) && Covered(layers) == done && processed == |done|
      decreases |ids - done|
    {
      ListsNoDup(g, done, current);
      var sorted := SortStrings(current);
      SortedLists(g, done, current, sorted);
      current := sorted;
      LayeredStep(g, layers, current);
      LayerProgress(g, done, current);
      layers := layers + [current];
      processed := processed + |current|;
      var indeg', next := FinishLayer(g, indeg, succ, done, current);
      done := done + Elems(current);
      indeg, current := indeg', next;
    }
    total := |indeg|;
    assert |indeg| == |indeg.Keys|;
  }

  method ExecutionLayers(g: Graph) returns (r: Result<seq<seq<string>>>)
    ensures r.Ok? <==> forall c :: !IsCycle(g, c)
    ensures r.Ok? ==> forall k :: 0 <= k < |r.value| ==> Ascending(r.value[k]) && NoDup(r.value[k])
    ensures r.Ok? ==> forall n, k :: 0 <= k < |r.value| ==>
              (n in r.value[k] <==> n in Ids(g.nodes) && LongestPathTo(g, n, k))
    ensures r.Ok? ==> forall n :: n in Ids(g.nodes) ==> exists k :: 0 <= k < |r.value| && n in r.value[k]
  {
    hide *;
    var layers, processed, total := PeelLayers(g);
    ghost var done := Covered(layers);
    SettledDeclared(g, done);
    NothingReady(g, done);
    if processed != total {
      r := ErrCycle;
      assert done != Ids(g.nodes);
      ghost var c := StuckHasCycle(g, done);
    } else {
      r := Ok(layers);
      SameSize(done, Ids(g.nodes));
      LayeringIsAcyclic(g, layers);
      LayersMeaning(g, layers);
    }
  }

  lemma ListsNoDup(g: Graph, done: set<string>, ready: seq<string>)
    requires Lists(g, done, ready)
    ensures NoDup(ready)
  {
  }

  lemma SortedLists(g: Graph, done: set<string>, ready: seq<string>, sorted: seq<string>)
    requires Lists(g, done, ready) && NoDup(sorted) && forall n :: n in sorted <==> n in ready
    ensures Lists(g, done, sorted)
  {
  }

  lemma LayersMeaning(g: Graph, layers: seq<seq<string>>)
    requires Layered(g, layers) && Covered(layers) == Ids(g.nodes)
    ensures forall k :: 0 <= k < |layers| ==> Ascending(layers[k]) && NoDup(layers[k])
    ensures forall n, k :: 0 <= k < |layers| ==> (n in layers[k] <==> n in Ids(g.nodes) && LongestPathTo(g, n, k))
    ensures forall n :: n in Ids(g.nodes) ==> exists k :: 0 <= k < |layers| && n in layers[k]
  {
    forall k | 0 <= k < |layers| ensures Ascending(layers[k]) && NoDup(layers[k]) {
      assert Lists(g, Covered(layers[..k]), layers[k]);
    }
    hide LongestPathTo, Layered;
    forall n, k | 0 <= k < |layers|
      ensures n in layers[k] <==> n in Ids(g.nodes) && LongestPathTo(g, n, k)
    {
      LayersAreDepths(g, layers, k, n);
    }
    forall n | n in Ids(g.nodes) ensures exists k :: 0 <= k < |layers| && n in layers[k] { CoveredBy(layers, n); }
  }

  lemma NothingReady(g: Graph, done: set<string>)
    requires Lists(g, done, [])
    ensures forall n :: !Ready(g, done, n)
  {
  }

  lemma SettledDeclared(g: Graph, done: set<string>)
    requires Settled(g, done)
    ensures done <= Ids(g.nodes)
  {
  }
}
