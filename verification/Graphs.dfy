/**
  The flow graph, as far as the dispatcher, the sorter and the editor read it.
  Strings stand for byte sequences.
 */
module Graphs {

  datatype Option<+T> = None | Some(value: T)

  /** An edge's failure policy; `Unset` is the empty string. */
  datatype OnError = Unset | Abort | Skip | Retry | Fallback

  datatype Position = Position(x: real, y: real)

  /** The values of parameters are never looked into, and stand for whatever was set. */
  datatype Node = Node(id: string, step: string, title: string, position: Option<Position>,
                       disabled: bool, continueOnError: bool, params: map<string, string>)

  datatype Edge = Edge(from: string, fromPort: string, to: string, toPort: string, onError: OnError)

  datatype Graph = Graph(nodes: seq<Node>, edges: seq<Edge>)

  function Ids(nodes: seq<Node>): set<string> {
    set i | 0 <= i < |nodes| :: nodes[i].id
  }

  predicate UniqueIds(nodes: seq<Node>) {
    forall i, j :: 0 <= i < j < |nodes| ==> nodes[i].id != nodes[j].id
  }

  /** Every edge runs between declared nodes. */
  predicate Wired(g: Graph) {
    forall e :: e in g.edges ==> e.from in Ids(g.nodes) && e.to in Ids(g.nodes)
  }

  /** `rank` witnesses that no edge closes a cycle. */
  ghost predicate Ranked(g: Graph, rank: map<string, nat>) {
    && Ids(g.nodes) <= rank.Keys
    && forall e :: e in g.edges && e.from in rank && e.to in rank ==> rank[e.from] < rank[e.to]
  }

  /** What submission validation establishes before a run starts. */
  ghost predicate Runnable(g: Graph, rank: map<string, nat>) {
    UniqueIds(g.nodes) && Wired(g) && Ranked(g, rank) && g.nodes != []
  }

  /** The edges into `d`, in graph order. */
  function Incoming(edges: seq<Edge>, d: string): (r: seq<Edge>)
    ensures forall e :: e in r <==> e in edges && e.to == d
  {
    if edges == [] then [] else
    var rest, last := edges[..|edges| - 1], edges[|edges| - 1];
    assert edges == rest + [last];
    if last.to == d then Incoming(rest, d) + [last] else Incoming(rest, d)
  }

  /** The distinct targets of `n`'s edges, in order of first appearance. */
  function Outgoing(edges: seq<Edge>, n: string): (r: seq<string>)
    ensures forall x :: x in r <==> exists e :: e in edges && e.from == n && e.to == x
    ensures forall i, j :: 0 <= i < j < |r| ==> r[i] != r[j]
  {
    if edges == [] then [] else
    var rest, last := edges[..|edges| - 1], edges[|edges| - 1];
    assert edges == rest + [last];
    var r := Outgoing(rest, n);
    if last.from == n && last.to !in r then r + [last.to] else r
  }

  predicate IsSource(g: Graph, d: string) {
    d in Ids(g.nodes) && forall e :: e in g.edges ==> e.to != d
  }
}
