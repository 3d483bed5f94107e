/**
  The adjacency index of a run's graph, and the per-process cache of such indexes.
 */
module Topologies {
  import opened Graphs

  datatype Topology = Topology(outgoing: map<string, seq<string>>, incoming: map<string, seq<Edge>>)

  /** A missing key reads as the empty list. */
  function At<T>(m: map<string, seq<T>>, k: string): seq<T> {
    if k in m then m[k] else []
  }

  /** The index answers every lookup as a direct scan of all edges would. */
  ghost predicate Indexes(t: Topology, edges: seq<Edge>) {
    forall n :: At(t.outgoing, n) == Outgoing(edges, n) && At(t.incoming, n) == Incoming(edges, n)
  }

  /** Adding one edge to a topology. */
  function WithEdge(t: Topology, e: Edge, dup: bool): Topology {
    var t1 := t.(incoming := t.incoming[e.to := At(t.incoming, e.to) + [e]]);
    if dup then t1 else t1.(outgoing := t1.outgoing[e.from := At(t1.outgoing, e.from) + [e.to]])
  }

  lemma WithEdgeIndexes(t: Topology, edges: seq<Edge>, e: Edge)
    requires Indexes(t, edges)
    ensures Indexes(WithEdge(t, e, e.to in Outgoing(edges, e.from)), edges + [e])
  {
    var after := edges + [e];
    assert after[..|after| - 1] == edges && after[|after| - 1] == e;
    var t' := WithEdge(t, e, e.to in Outgoing(edges, e.from));
    forall n ensures At(t'.outgoing, n) == Outgoing(after, n) && At(t'.incoming, n) == Incoming(after, n) {
      assert At(t.outgoing, n) == Outgoing(edges, n) && At(t.incoming, n) == Incoming(edges, n);
    }
  }

  method BuildTopology(g: Graph) returns (t: Topology)
    ensures Indexes(t, g.edges)
  {
    t := Topology(map[], map[]);
    var seen: set<(string, string)> := {};
    assert forall n :: Outgoing(g.edges[..0], n) == [] && Incoming(g.edges[..0], n) == [];
    hide Incoming, Outgoing;
    for k := 0 to |g.edges|
      invariant Indexes(t, g.edges[..k])
      invariant forall a, b :: (a, b) in seen <==> b in Outgoing(g.edges[..k], a)
    {
      var e := g.edges[k];
      assert g.edges[..k + 1] == g.edges[..k] + [e];
      var dup := (e.from, e.to) in seen;
      WithEdgeIndexes(t, g.edges[..k], e);
      hide Indexes;
      if !dup { seen := seen + {(e.from, e.to)}; }
      t := WithEdge(t, e, dup);
    }
    assert g.edges[..|g.edges|] == g.edges;
  }

  const MAX_CACHED := 8

  ghost predicate Lists(order: seq<string>, runs: set<string>) {
    && runs == (set r | r in order)
    && (forall i, j :: 0 <= i < j < |order| ==> order[i] != order[j])
  }

  lemma ListsAppend(order: seq<string>, runs: set<string>, r: string)
    requires Lists(order, runs) && r !in runs
    ensures Lists(order + [r], runs + {r})
  {
  }

  lemma ListsEvict(order: seq<string>, runs: set<string>)
    requires Lists(order, runs) && order != []
    ensures Lists(order[1..], runs - {order[0]})
  {
    assert order == [order[0]] + order[1..];
  }

  class TopologyCache {
    var entries: map<string, Topology>
    var order: seq<string>

    /** The eviction queue lists exactly the cached runs, once each, and is bounded. */
    ghost predicate Valid()
      reads this
    {
      Lists(order, entries.Keys) && |order| <= 8
    }

    /** Every entry indexes its run's graph, which never changes once submitted. */
    ghost predicate Sound(payloads: map<string, Graph>)
      reads this
    {
      forall r :: r in entries ==> r in payloads && Indexes(entries[r], payloads[r].edges)
    }

    constructor ()
      ensures Valid() && order == []
      ensures forall p :: Sound(p)
    {
      entries, order := map[], [];
    }

    method Get(run: string, g: Graph, ghost payloads: map<string, Graph>) returns (t: Topology)
      requires Valid() && Sound(payloads)
      requires run != "" ==> run in payloads && payloads[run] == g
      modifies this
      ensures Valid() && Sound(payloads)
      ensures Indexes(t, g.edges)
      ensures run == "" || run in old(entries) ==> order == old(order) && entries == old(entries)
      ensures run != "" && run !in old(entries) ==>
                && order == (if |old(order)| < 8 then old(order) else old(order)[1..]) + [run]
                && run in entries && entries[run] == t
    {
      if run == "" {
        t := BuildTopology(g);
        return;
      }
      if run in entries {
        t := entries[run];
        return;
      }
      hide Indexes, Lists;
      t := BuildTopology(g);
      ListsAppend(order, entries.Keys, run);
      entries := entries[run := t];
      order := order + [run];
      if |order| > MAX_CACHED {
        ListsEvict(order, entries.Keys);
        entries := entries - {order[0]};
        order := order[1..];
      }
    }
  }
}
