/**
  Placing new cards on the canvas (core/graphedit.go), over exact arithmetic.
 */
module Placement {
  import opened Graphs
  import opened GraphEdit
  import TopSort

  const COLUMN := 420.0
  const ROW := 340.0
  const START := 80.0

  function Abs(r: real): real {
    if r < 0.0 then -r else r
  }

  /** Two cards at least a column apart horizontally or a row apart vertically. */
  predicate Apart(p: Position, q: Position) {
    Abs(p.x - q.x) >= 420.0 || Abs(p.y - q.y) >= 340.0
  }

  predicate Occupied(nodes: seq<Node>, at: Position) {
    exists i :: 0 <= i < |nodes| && nodes[i].position.Some? && !Apart(nodes[i].position.value, at)
  }

  method IsOccupied(nodes: seq<Node>, at: Position) returns (b: bool)
    ensures b == Occupied(nodes, at)
  {
    for i := 0 to |nodes|
      invariant forall j :: 0 <= j < i && nodes[j].position.Some? ==> Apart(nodes[j].position.value, at)
    {
      if nodes[i].position.Some? && Abs(nodes[i].position.value.x - at.x) < COLUMN && Abs(nodes[i].position.value.y - at.y) < ROW {
        assert !Apart(nodes[i].position.value, at);
        return true;
      }
    }
    return false;
  }

  /** The node called `id` has a position. */
  predicate Placed(nodes: seq<Node>, id: string) {
    Find(nodes, id) >= 0 && nodes[Find(nodes, id)].position.Some?
  }

  /** The source of the first edge into `id` from a node that has a position. */
  function PlacedSource(nodes: seq<Node>, edges: seq<Edge>, id: string): (r: Option<string>)
    ensures r.Some? ==> Placed(nodes, r.value)
  {
    if edges == [] then None
    else if edges[0].to == id && Placed(nodes, edges[0].from) then Some(edges[0].from)
    else PlacedSource(nodes, edges[1..], id)
  }

  /** The source of the first edge into `id` from any declared node. */
  function Source(ids: set<string>, edges: seq<Edge>, id: string): (r: Option<string>)
    ensures r.Some? ==> r.value in ids && exists e :: e in edges && e.to == id && e.from == r.value
    ensures r.None? ==> forall e :: e in edges && e.to == id ==> e.from !in ids
  {
    if edges == [] then None
    else
      assert edges == [edges[0]] + edges[1..];
      if edges[0].to == id && edges[0].from in ids then assert edges[0] in edges; Some(edges[0].from)
      else Source(ids, edges[1..], id)
  }

  method UpstreamPosition(nodes: seq<Node>, edges: seq<Edge>, id: string) returns (up: Option<Position>)
    ensures var s := PlacedSource(nodes, edges, id);
            up == if s.Some? then nodes[Find(nodes, s.value)].position else None
  {
    assert edges[0..] == edges;
    for i := 0 to |edges|
      invariant PlacedSource(nodes, edges, id) == PlacedSource(nodes, edges[i..], id)
    {
      assert edges[i..][1..] == edges[i + 1..];
      if edges[i].to != id { continue; }
      var k := NodeIndex(nodes, edges[i].from);
      if k >= 0 && nodes[k].position.Some? { return nodes[k].position; }
    }
    return None;
  }

  /** No edge into `id` comes from another card still to be placed. */
  predicate Ready(nodes: seq<Node>, edges: seq<Edge>, pending: seq<string>, id: string) {
    forall e :: e in edges && e.to == id && e.from != id ==>
      !(e.from in pending && Find(nodes, e.from) >= 0 && nodes[Find(nodes, e.from)].position.None?)
  }

  method IsReady(nodes: seq<Node>, edges: seq<Edge>, pending: seq<string>, id: string) returns (b: bool)
    ensures b == Ready(nodes, edges, pending, id)
  {
    for i := 0 to |edges|
      invariant forall j :: 0 <= j < i && edges[j].to == id && edges[j].from != id ==>
                  !(edges[j].from in pending && Find(nodes, edges[j].from) >= 0 && nodes[Find(nodes, edges[j].from)].position.None?)
    {
      var e := edges[i];
      if e.to != id || e.from == id { continue; }
      var k := NodeIndex(nodes, e.from);
      if k >= 0 && nodes[k].position.None? && e.from in pending {
        assert e in edges;
        return false;
      }
    }
    return true;
  }

  /** The card at `k` is the first ready one, or the first of all when a cycle leaves none ready. */
  ghost predicate IsTurn(nodes: seq<Node>, edges: seq<Edge>, pending: seq<string>, k: nat) {
    && k < |pending|
    && (|| (Ready(nodes, edges, pending, pending[k]) && forall j :: 0 <= j < k ==> !Ready(nodes, edges, pending, pending[j]))
        || (k == 0 && forall j :: 0 <= j < |pending| ==> !Ready(nodes, edges, pending, pending[j])))
  }

  method Pick(nodes: seq<Node>, edges: seq<Edge>, pending: seq<string>) returns (k: nat)
    requires pending != []
    ensures IsTurn(nodes, edges, pending, k)
  {
    for i := 0 to |pending|
      invariant forall j :: 0 <= j < i ==> !Ready(nodes, edges, pending, pending[j])
    {
      var b := IsReady(nodes, edges, pending, pending[i]);
      if b { return i; }
    }
    return 0;
  }

  /** An upper bound of the rows in use. */
  function Bottom(nodes: seq<Node>): (r: real)
    ensures forall i :: 0 <= i < |nodes| && nodes[i].position.Some? ==> nodes[i].position.value.y <= r
  {
    if nodes == [] then 0.0
    else
      assert nodes == [nodes[0]] + nodes[1..];
      var r := Bottom(nodes[1..]);
      assert forall i :: 0 < i < |nodes| ==> nodes[i] == nodes[1..][i - 1];
      if nodes[0].position.Some? && nodes[0].position.value.y > r then nodes[0].position.value.y else r
  }

  /** Moves down row by row to the first place that is free. */
  method FreeRow(nodes: seq<Node>, from: Position) returns (at: Position)
    ensures FirstFree(nodes, from, at)
  {
    at := from;
    ghost var k: nat := 0;
    var busy := IsOccupied(nodes, at);
    while busy
      invariant busy == Occupied(nodes, at) && at == Below(from, k)
      invariant forall j :: 0 <= j < k ==> Occupied(nodes, Below(from, j))
      decreases Bottom(nodes) + ROW - at.y, busy
    {
      at := at.(y := at.y + ROW);
      k := k + 1;
      busy := IsOccupied(nodes, at);
    }
  }

  /** The first free place down the column from `from`: every place above it is taken. */
  ghost predicate FirstFree(nodes: seq<Node>, from: Position, at: Position) {
    !Occupied(nodes, at) && exists k: nat :: at == Below(from, k) && forall j :: 0 <= j < k ==> Occupied(nodes, Below(from, j))
  }

  /** `k` rows further down. */
  function Below(from: Position, k: int): Position {
    Position(from.x, from.y + k as real * ROW)
  }

  /** A row below every card, the highest there is from the top margin down. */
  ghost predicate NewRow(nodes: seq<Node>, y: real) {
    && y >= START && (forall i :: 0 <= i < |nodes| && nodes[i].position.Some? ==> y >= nodes[i].position.value.y + ROW)
    && (y == START || exists i :: 0 <= i < |nodes| && nodes[i].position.Some? && y == nodes[i].position.value.y + ROW)
  }

  /** Where the search for a new card's place starts: right of its first placed source, or in a new row. */
  method Anchor(nodes: seq<Node>, edges: seq<Edge>, id: string) returns (at: Position)
    ensures match PlacedSource(nodes, edges, id)
            case Some(s) => var up := nodes[Find(nodes, s)].position.value; at == Position(up.x + COLUMN, up.y)
            case None => at.x == START && NewRow(nodes, at.y)
  {
    var up := UpstreamPosition(nodes, edges, id);
    if up.Some? { return Position(up.value.x + COLUMN, up.value.y); }
    at := Position(START, START);
    for i := 0 to |nodes|
      invariant at.x == START && NewRow(nodes[..i], at.y)
    {
      assert nodes[..i + 1] == nodes[..i] + [nodes[i]];
      if nodes[i].position.Some? && nodes[i].position.value.y + ROW > at.y {
        at := at.(y := nodes[i].position.value.y + ROW);
        assert nodes[..i + 1][i].position.Some?;
      } else if at.y != START {
        var j :| 0 <= j < i && nodes[..i][j].position.Some? && at.y == nodes[..i][j].position.value.y + ROW;
        assert nodes[..i + 1][j] == nodes[..i][j];
      }
    }
    assert nodes[..|nodes|] == nodes;
  }

  // ----- where each card goes

  /** The place of the next card: the first free one right of its first placed source, or a new row in the first column. */
  ghost predicate Stands(nodes: seq<Node>, edges: seq<Edge>, id: string, at: Position) {
    match PlacedSource(nodes, edges, id)
    case Some(s) => var up := nodes[Find(nodes, s)].position.value; FirstFree(nodes, Position(up.x + COLUMN, up.y), at)
    case None => at.x == START && NewRow(nodes, at.y)
  }

  lemma NewRowIsFree(nodes: seq<Node>, at: Position)
    requires NewRow(nodes, at.y)
    ensures !Occupied(nodes, at)
  {
  }

  lemma FreeAlready(nodes: seq<Node>, from: Position, at: Position)
    requires FirstFree(nodes, from, at) && !Occupied(nodes, from)
    ensures at == from
  {
    var k: nat :| at == Below(from, k) && forall j :: 0 <= j < k ==> Occupied(nodes, Below(from, j));
    assert Below(from, 0) == from;
  }

  lemma SpotStands(nodes: seq<Node>, edges: seq<Edge>, id: string, from: Position, at: Position)
    requires FirstFree(nodes, from, at)
    requires match PlacedSource(nodes, edges, id)
             case Some(s) => var up := nodes[Find(nodes, s)].position.value; from == Position(up.x + COLUMN, up.y)
             case None => from.x == START && NewRow(nodes, from.y)
    ensures Stands(nodes, edges, id, at) && !Occupied(nodes, at)
  {
    if PlacedSource(nodes, edges, id).None? {
      NewRowIsFree(nodes, from);
      FreeAlready(nodes, from, at);
    }
  }

  lemma StandsInColumn(nodes: seq<Node>, edges: seq<Edge>, id: string, at: Position)
    requires Stands(nodes, edges, id, at)
    ensures var s := PlacedSource(nodes, edges, id);
            at.x == if s.Some? then nodes[Find(nodes, s.value)].position.value.x + COLUMN else START
    ensures !Occupied(nodes, at)
  {
    if PlacedSource(nodes, edges, id).None? { NewRowIsFree(nodes, at); }
  }

  function Drop(pending: seq<string>, p: nat): seq<string>
    requires p < |pending|
  {
    pending[..p] + pending[p + 1..]
  }

  /** It is the turn of the card at `p`, which goes to `at`. */
  ghost predicate Lands(nodes: seq<Node>, edges: seq<Edge>, pending: seq<string>, p: nat, at: Position) {
    IsTurn(nodes, edges, pending, p) && Find(nodes, pending[p]) >= 0 && Stands(nodes, edges, pending[p], at)
  }

  /** `result` is what placing the cards of `pending`, one at a time, makes of `nodes`. */
  ghost predicate Lays(nodes: seq<Node>, edges: seq<Edge>, pending: seq<string>, result: seq<Node>)
    decreases |pending|
  {
    if pending == [] then result == nodes
    else exists p: nat, at :: Lands(nodes, edges, pending, p, at) &&
                              Lays(Put(nodes, Find(nodes, pending[p]), at), edges, Drop(pending, p), result)
  }

  /** Older cards without a position, in node order. */
  function Older(nodes: seq<Node>, ids: seq<string>): seq<string> {
    if nodes == [] then []
    else
      var k := |nodes| - 1;
      Older(nodes[..k], ids) + if nodes[k].position.None? && nodes[k].id !in ids then [nodes[k].id] else []
  }

  /** The batch's own cards that are there and have no position, in the order of the batch. */
  function Batch(nodes: seq<Node>, ids: seq<string>): seq<string> {
    if ids == [] then []
    else
      var k := |ids| - 1;
      Batch(nodes, ids[..k]) + if Find(nodes, ids[k]) >= 0 && nodes[Find(nodes, ids[k])].position.None? then [ids[k]] else []
  }

  // ----- what placing keeps

  /** Only positions change, and only of cards that had none. */
  ghost predicate OnlyPlaces(old0: seq<Node>, nodes: seq<Node>) {
    |nodes| == |old0| && forall i :: 0 <= i < |nodes| ==>
      nodes[i] == old0[i].(position := nodes[i].position) && (old0[i].position.Some? ==> nodes[i] == old0[i])
  }

  ghost predicate IsNew(old0: seq<Node>, nodes: seq<Node>, i: nat)
    requires |nodes| == |old0| && i < |nodes|
  {
    old0[i].position.None? && nodes[i].position.Some?
  }

  /** A newly placed card overlaps no other card. */
  ghost predicate Spaced(old0: seq<Node>, nodes: seq<Node>)
    requires |nodes| == |old0|
  {
    forall i, j :: 0 <= i < |nodes| && 0 <= j < |nodes| && i != j && IsNew(old0, nodes, i) && nodes[j].position.Some? ==>
      Apart(nodes[i].position.value, nodes[j].position.value)
  }

  /** One column right of the source of the first edge that has one, or in the first column. */
  ghost predicate InColumn(nodes: seq<Node>, edges: seq<Edge>, i: nat)
    requires i < |nodes| && nodes[i].position.Some?
  {
    var s := Source(Ids(nodes), edges, nodes[i].id);
    if s.None? then nodes[i].position.value.x == 80.0
    else Placed(nodes, s.value) && nodes[i].position.value.x == nodes[Find(nodes, s.value)].position.value.x + 420.0
  }

  ghost predicate Columns(old0: seq<Node>, nodes: seq<Node>, edges: seq<Edge>)
    requires |nodes| == |old0|
  {
    forall i :: 0 <= i < |nodes| && IsNew(old0, nodes, i) ==> InColumn(nodes, edges, i)
  }

  /** The list of cards still to place misses none and holds only such cards. */
  ghost predicate Lists(old0: seq<Node>, nodes: seq<Node>, pending: seq<string>)
    requires |nodes| == |old0|
  {
    && (forall i :: 0 <= i < |nodes| && nodes[i].position.None? ==> nodes[i].id in pending)
    && (forall id :: id in pending ==> Find(old0, id) >= 0 && old0[Find(old0, id)].position.None?)
  }

  lemma SameIds(old0: seq<Node>, nodes: seq<Node>)
    requires OnlyPlaces(old0, nodes)
    ensures Ids(nodes) == Ids(old0) && (UniqueIds(old0) ==> UniqueIds(nodes))
    ensures forall id :: Find(nodes, id) == Find(old0, id)
  {
    forall i | 0 <= i < |nodes| ensures nodes[i].id == old0[i].id { }
    assert Ids(nodes) == Ids(old0) by {
      forall x | x in Ids(nodes) ensures x in Ids(old0) {
        var i :| 0 <= i < |nodes| && nodes[i].id == x;
        assert old0[i].id == x;
      }
    }
    forall id ensures Find(nodes, id) == Find(old0, id) {
      var a, b := Find(nodes, id), Find(old0, id);
    }
  }

  /** With nothing left unplaced among its sources, the first placed source is the first source. */
  lemma {:induction false} SourcesAgree(nodes: seq<Node>, edges: seq<Edge>, id: string)
    requires forall e :: e in edges && e.to == id && e.from in Ids(nodes) ==> Placed(nodes, e.from)
    ensures PlacedSource(nodes, edges, id) == Source(Ids(nodes), edges, id)
  {
    if edges != [] {
      assert edges[0] in edges && edges == [edges[0]] + edges[1..];
      SourcesAgree(nodes, edges[1..], id);
    }
  }

  /** On an acyclic graph some pending card is ready. */
  lemma {:induction false} SomeReady(nodes: seq<Node>, edges: seq<Edge>, pending: seq<string>, rank: map<string, nat>, id: string)
    requires Ranked(Graph(nodes, edges), rank) && id in pending
    requires forall x :: x in pending ==> x in Ids(nodes)
    ensures exists x :: x in pending && Ready(nodes, edges, pending, x)
    decreases rank[id]
  {
    if !Ready(nodes, edges, pending, id) {
      var e :| e in edges && e.to == id && e.from != id && e.from in pending;
      SomeReady(nodes, edges, pending, rank, e.from);
    }
  }

  /** A ready card on an acyclic graph has all its sources placed. */
  lemma ReadyHasSources(old0: seq<Node>, nodes: seq<Node>, edges: seq<Edge>, pending: seq<string>, rank: map<string, nat>, id: string)
    requires OnlyPlaces(old0, nodes) && Lists(old0, nodes, pending) && Ranked(Graph(nodes, edges), rank)
    requires Ready(nodes, edges, pending, id) && id in Ids(nodes)
    ensures PlacedSource(nodes, edges, id) == Source(Ids(nodes), edges, id)
  {
    forall e | e in edges && e.to == id && e.from in Ids(nodes) ensures Placed(nodes, e.from) {
      assert rank[e.from] < rank[id];
      var k := Find(nodes, e.from);
    }
    SourcesAgree(nodes, edges, id);
  }

  function Put(nodes: seq<Node>, k: nat, at: Position): seq<Node>
    requires k < |nodes|
  {
    nodes[k := nodes[k].(position := Some(at))]
  }

  lemma PutSpaced(old0: seq<Node>, nodes: seq<Node>, k: nat, at: Position)
    requires OnlyPlaces(old0, nodes) && Spaced(old0, nodes)
    requires k < |nodes| && old0[k].position.None? && !Occupied(nodes, at)
    ensures OnlyPlaces(old0, Put(nodes, k, at)) && Spaced(old0, Put(nodes, k, at))
  {
    var after := Put(nodes, k, at);
    forall i, j | 0 <= i < |nodes| && 0 <= j < |nodes| && i != j && IsNew(old0, after, i) && after[j].position.Some?
      ensures Apart(after[i].position.value, after[j].position.value)
    {
      if i != k && j != k { assert IsNew(old0, nodes, i); }
    }
  }

  lemma PutLists(old0: seq<Node>, nodes: seq<Node>, pending: seq<string>, p: nat, k: nat, at: Position)
    requires UniqueIds(old0) && OnlyPlaces(old0, nodes) && Lists(old0, nodes, pending)
    requires p < |pending| && k < |nodes| && nodes[k].id == pending[p]
    ensures |Put(nodes, k, at)| == |old0| && Lists(old0, Put(nodes, k, at), pending[..p] + pending[p + 1..])
  {
    var after, rest := Put(nodes, k, at), pending[..p] + pending[p + 1..];
    forall i | 0 <= i < |after| && after[i].position.None? ensures after[i].id in rest {
      assert nodes[i].id in pending && nodes[i].id == old0[i].id && nodes[k].id == old0[k].id;
      var q :| 0 <= q < |pending| && pending[q] == nodes[i].id;
      assert q != p;
      assert rest[if q < p then q else q - 1] == pending[q];
    }
  }

  /** Placing the card `k` at the column its first source gives keeps every card in its column. */
  lemma PutColumns(old0: seq<Node>, nodes: seq<Node>, edges: seq<Edge>, rank: map<string, nat>, k: nat, at: Position)
    requires OnlyPlaces(old0, nodes) && Columns(old0, nodes, edges) && UniqueIds(nodes)
    requires k < |nodes| && old0[k].position.None? && Ranked(Graph(nodes, edges), rank)
    requires var s := Source(Ids(nodes), edges, nodes[k].id);
             && (s.Some? ==> Placed(nodes, s.value))
             && at.x == if s.Some? then nodes[Find(nodes, s.value)].position.value.x + COLUMN else START
    ensures Columns(old0, Put(nodes, k, at), edges)
  {
    var after := Put(nodes, k, at);
    assert OnlyPlaces(old0, after);
    SameIds(old0, nodes);
    SameIds(old0, after);
    forall i | 0 <= i < |after| && IsNew(old0, after, i) ensures InColumn(after, edges, i) {
      var s := Source(Ids(nodes), edges, nodes[i].id);
      if i == k {
        if s.Some? {
          var e :| e in edges && e.to == nodes[k].id && e.from == s.value;
          assert rank[e.from] < rank[e.to];
          assert Find(nodes, s.value) != k;
        }
      } else {
        assert IsNew(old0, nodes, i) && InColumn(nodes, edges, i);
        if s.Some? && Find(nodes, s.value) == k {
          assert IsNew(old0, nodes, k) && InColumn(nodes, edges, k);
        }
      }
    }
  }

  // ----- the placement loop

  /** The nodes are still the same ones, and everything pending is among them. */
  ghost predicate Named(old0: seq<Node>, nodes: seq<Node>, pending: seq<string>) {
    && |nodes| == |old0| && (forall i :: 0 <= i < |nodes| ==> nodes[i].id == old0[i].id)
    && forall id :: id in pending ==> Find(nodes, id) >= 0
  }

  /** Cards without a position: older ones first, then the batch's own. */
  method Unplaced(nodes: seq<Node>, ids: seq<string>) returns (pending: seq<string>)
    ensures pending == Older(nodes, ids) + Batch(nodes, ids)
  {
    pending := [];
    for i := 0 to |nodes|
      invariant pending == Older(nodes[..i], ids)
    {
      assert nodes[..i + 1][..i] == nodes[..i];
      if nodes[i].position.None? && nodes[i].id !in ids { pending := pending + [nodes[i].id]; }
    }
    assert nodes[..|nodes|] == nodes;
    for i := 0 to |ids|
      invariant pending == Older(nodes, ids) + Batch(nodes, ids[..i])
    {
      assert ids[..i + 1][..i] == ids[..i];
      var k := NodeIndex(nodes, ids[i]);
      if k >= 0 && nodes[k].position.None? { pending := pending + [ids[i]]; }
    }
    assert ids[..|ids|] == ids;
  }

  lemma {:induction false} OlderMeans(nodes: seq<Node>, ids: seq<string>, id: string)
    ensures id in Older(nodes, ids) <==> id !in ids && exists i :: 0 <= i < |nodes| && nodes[i].id == id && nodes[i].position.None?
  {
    if nodes != [] {
      var k := |nodes| - 1;
      OlderMeans(nodes[..k], ids, id);
      assert nodes == nodes[..k] + [nodes[k]];
      if i :| 0 <= i < |nodes| && nodes[i].id == id && nodes[i].position.None? && i != k { assert nodes[..k][i] == nodes[i]; }
    }
  }

  lemma {:induction false} BatchMeans(nodes: seq<Node>, ids: seq<string>, id: string)
    ensures id in Batch(nodes, ids) <==> id in ids && Find(nodes, id) >= 0 && nodes[Find(nodes, id)].position.None?
  {
    if ids != [] {
      BatchMeans(nodes, ids[..|ids| - 1], id);
      assert ids == ids[..|ids| - 1] + [ids[|ids| - 1]];
    }
  }

  /** What is to be placed is found, and with unique ids it is exactly what has no position. */
  lemma PendingMeans(nodes: seq<Node>, ids: seq<string>, pending: seq<string>)
    requires pending == Older(nodes, ids) + Batch(nodes, ids)
    ensures Named(nodes, nodes, pending)
    ensures UniqueIds(nodes) ==> Lists(nodes, nodes, pending)
  {
    hide Older, Batch;
    forall id ensures id in pending <==> id in Older(nodes, ids) || id in Batch(nodes, ids) { }
    forall id | id in pending ensures Find(nodes, id) >= 0 {
      OlderMeans(nodes, ids, id);
      BatchMeans(nodes, ids, id);
      if i :| 0 <= i < |nodes| && nodes[i].id == id { assert id in Ids(nodes); }
    }
    if UniqueIds(nodes) {
      forall i | 0 <= i < |nodes| ensures nodes[i].position.None? <==> nodes[i].id in pending {
        OlderMeans(nodes, ids, nodes[i].id);
        BatchMeans(nodes, ids, nodes[i].id);
        assert nodes[i].id in Ids(nodes) && Find(nodes, nodes[i].id) == i;
      }
    }
  }

  /** Everything placing keeps on a graph with unique ids. */
  ghost predicate Tidy(old0: seq<Node>, nodes: seq<Node>, edges: seq<Edge>, pending: seq<string>) {
    && OnlyPlaces(old0, nodes) && Lists(old0, nodes, pending) && Spaced(old0, nodes)
    && ((exists rank :: Ranked(Graph(old0, edges), rank)) ==> Columns(old0, nodes, edges))
  }

  /** Whatever the graph, each card in turn goes where it should; with unique ids that arranges them properly. */
  method PlaceNewNodes(old0: seq<Node>, edges: seq<Edge>, ids: seq<string>) returns (nodes: seq<Node>)
    ensures Lays(old0, edges, Older(old0, ids) + Batch(old0, ids), nodes)
    ensures |nodes| == |old0| && forall i :: 0 <= i < |nodes| ==> nodes[i].id == old0[i].id
    ensures UniqueIds(old0) ==> OnlyPlaces(old0, nodes) && Spaced(old0, nodes)
    ensures UniqueIds(old0) ==> forall i :: 0 <= i < |nodes| ==> nodes[i].position.Some?
    ensures UniqueIds(old0) && (exists rank :: Ranked(Graph(old0, edges), rank)) ==> Columns(old0, nodes, edges)
  {
    var pending := Unplaced(old0, ids);
    nodes := old0;
    ghost var start := pending;
    PendingMeans(old0, ids, pending);
    if UniqueIds(old0) { TidyStart(old0, edges, pending); }
    hide Tidy, Ready, PlacedSource, Occupied, IsTurn, Stands, NewRow, FirstFree, Lays, Older, Batch;
    while pending != []
      invariant Named(old0, nodes, pending)
      invariant forall result :: Lays(nodes, edges, pending, result) ==> Lays(old0, edges, start, result)
      invariant UniqueIds(old0) ==> Tidy(old0, nodes, edges, pending)
      decreases |pending|
    {
      var p := Pick(nodes, edges, pending);
      var id := pending[p];
      var from := Anchor(nodes, edges, id);
      var at := FreeRow(nodes, from);
      var k := NodeIndex(nodes, id);
      SpotStands(nodes, edges, id, from, at);
      StandsInColumn(nodes, edges, id, at);
      TurnIsReady(nodes, edges, pending, p);
      if UniqueIds(old0) { TidyStep(old0, nodes, edges, pending, p, k, at); }
      NamedStep(old0, nodes, pending, p, k, at);
      forall result | Lays(Put(nodes, k, at), edges, Drop(pending, p), result) ensures Lays(old0, edges, start, result) {
        LaysMore(nodes, edges, pending, p, at, result);
      }
      pending := Drop(pending, p);
      nodes := Put(nodes, k, at);
    }
    LaysNothing(nodes, edges);
    if UniqueIds(old0) { TidyEnd(old0, nodes, edges); }
  }

  lemma LaysMore(nodes: seq<Node>, edges: seq<Edge>, pending: seq<string>, p: nat, at: Position, result: seq<Node>)
    requires Lands(nodes, edges, pending, p, at) && Lays(Put(nodes, Find(nodes, pending[p]), at), edges, Drop(pending, p), result)
    ensures Lays(nodes, edges, pending, result)
  {
  }

  lemma LaysNothing(nodes: seq<Node>, edges: seq<Edge>)
    ensures Lays(nodes, edges, [], nodes)
  {
  }

  lemma TurnIsReady(nodes: seq<Node>, edges: seq<Edge>, pending: seq<string>, p: nat)
    requires IsTurn(nodes, edges, pending, p)
    ensures p < |pending|
    ensures Ready(nodes, edges, pending, pending[p]) || forall id :: id in pending ==> !Ready(nodes, edges, pending, id)
  {
  }

  lemma NamedStep(old0: seq<Node>, nodes: seq<Node>, pending: seq<string>, p: nat, k: nat, at: Position)
    requires Named(old0, nodes, pending) && p < |pending| && k < |nodes|
    ensures Named(old0, Put(nodes, k, at), pending[..p] + pending[p + 1..])
  {
    var after := Put(nodes, k, at);
    forall id | id in pending[..p] + pending[p + 1..] ensures Find(after, id) >= 0 {
      assert id in pending;
      assert after[Find(nodes, id)].id == id;
    }
  }

  lemma TidyEnd(old0: seq<Node>, nodes: seq<Node>, edges: seq<Edge>)
    requires Tidy(old0, nodes, edges, [])
    ensures OnlyPlaces(old0, nodes) && Spaced(old0, nodes)
    ensures (exists rank :: Ranked(Graph(old0, edges), rank)) ==> Columns(old0, nodes, edges)
    ensures forall i :: 0 <= i < |nodes| ==> nodes[i].position.Some?
  {
  }

  lemma TidyStep(old0: seq<Node>, nodes: seq<Node>, edges: seq<Edge>, pending: seq<string>, p: nat, k: nat, at: Position)
    requires UniqueIds(old0) && Tidy(old0, nodes, edges, pending)
    requires p < |pending| && k == Find(nodes, pending[p]) && !Occupied(nodes, at)
    requires Ready(nodes, edges, pending, pending[p]) || forall id :: id in pending ==> !Ready(nodes, edges, pending, id)
    requires var s := PlacedSource(nodes, edges, pending[p]);
             at.x == if s.Some? then nodes[Find(nodes, s.value)].position.value.x + COLUMN else START
    ensures Tidy(old0, Put(nodes, k, at), edges, pending[..p] + pending[p + 1..])
  {
    hide Spaced, Columns, Ranked, Ready, PlacedSource, Occupied;
    SameIds(old0, nodes);
    if exists rank :: Ranked(Graph(old0, edges), rank) { ColumnStep(old0, nodes, edges, pending, p, k, at); }
    PutSpaced(old0, nodes, k, at);
    PutLists(old0, nodes, pending, p, k, at);
  }

  lemma TidyStart(nodes: seq<Node>, edges: seq<Edge>, pending: seq<string>)
    requires Lists(nodes, nodes, pending)
    ensures Tidy(nodes, nodes, edges, pending)
  {
  }

  lemma ColumnStep(old0: seq<Node>, nodes: seq<Node>, edges: seq<Edge>, pending: seq<string>, p: nat, k: nat, at: Position)
    requires UniqueIds(old0) && OnlyPlaces(old0, nodes) && Lists(old0, nodes, pending) && Columns(old0, nodes, edges)
    requires exists rank :: Ranked(Graph(old0, edges), rank)
    requires p < |pending| && k == Find(nodes, pending[p])
    requires Ready(nodes, edges, pending, pending[p]) || forall id :: id in pending ==> !Ready(nodes, edges, pending, id)
    requires var s := PlacedSource(nodes, edges, pending[p]);
             at.x == if s.Some? then nodes[Find(nodes, s.value)].position.value.x + COLUMN else START
    ensures Columns(old0, Put(nodes, k, at), edges)
  {
    hide Columns, Ready, InColumn, Source, PlacedSource;
    SameIds(old0, nodes);
    var rank :| Ranked(Graph(old0, edges), rank);
    assert Ranked(Graph(nodes, edges), rank);
    SomeReady(nodes, edges, pending, rank, pending[p]);
    ReadyHasSources(old0, nodes, edges, pending, rank, pending[p]);
    PutColumns(old0, nodes, edges, rank, k, at);
  }

  // ----- the whole batch

  function Opened(g: Graph, flow: Flow): Edit {
    Edit(g.nodes, g.edges, flow, [], [], {}, 0, 0, false)
  }

  /** Exactly the updated nodes that were not added as well, in ascending order. */
  ghost predicate Reports(touched: seq<string>, updated: set<string>, added: seq<string>) {
    && TopSort.Ascending(touched) && TopSort.NoDup(touched)
    && forall id :: id in touched <==> id in updated && id !in added
  }

  method ListUpdated(updated: set<string>, added: seq<string>) returns (touched: seq<string>)
    ensures Reports(touched, updated, added)
  {
    var ids, left := [], updated;
    while left != {}
      invariant left <= updated && TopSort.NoDup(ids) && forall id :: id in ids <==> id in updated && id !in left
    {
      var id :| id in left;
      left := left - {id};
      ids := ids + [id];
    }
    ids := TopSort.SortStrings(ids);
    touched := [];
    for i := 0 to |ids|
      invariant TopSort.Ascending(touched) && TopSort.NoDup(touched)
      invariant forall id :: id in touched <==> id in ids[..i] && id !in added
    {
      assert ids[..i + 1] == ids[..i] + [ids[i]];
      forall id | id in touched ensures TopSort.StrLe(id, ids[i]) && id != ids[i] {
        var j :| 0 <= j < i && ids[j] == id;
      }
      if ids[i] !in added { touched := touched + [ids[i]]; }
    }
    assert ids[..|ids|] == ids;
  }

  /** The edited flow with its report, or nothing at all if any operation fails. */
  method ApplyGraphOps(g: Graph, flow: Flow, ops: seq<Op>, catalog: Option<Catalog>) returns (r: Option<Edit>, touched: seq<string>)
    ensures r.Some? <==> ApplyAll(catalog, Opened(g, flow), ops).Some?
    ensures r.Some? ==> var s := ApplyAll(catalog, Opened(g, flow), ops).value;
              && r.value == s.(nodes := r.value.nodes) && |r.value.nodes| == |s.nodes| && Reports(touched, s.updated, s.added)
              && (UniqueIds(s.nodes) ==> OnlyPlaces(s.nodes, r.value.nodes) && Spaced(s.nodes, r.value.nodes))
              && Lays(s.nodes, s.edges, Older(s.nodes, s.added) + Batch(s.nodes, s.added), r.value.nodes)
              && (UniqueIds(s.nodes) && (exists rank :: Ranked(Graph(s.nodes, s.edges), rank)) ==> Columns(s.nodes, r.value.nodes, s.edges))
    ensures r.Some? && WellFormed(g.nodes, g.edges) ==>
              && WellFormed(r.value.nodes, r.value.edges)
              && |r.value.nodes| == |g.nodes| + |r.value.added| - |r.value.removed|
              && |r.value.edges| == |g.edges| + r.value.connected - r.value.disconnected
              && forall i :: 0 <= i < |r.value.nodes| ==> r.value.nodes[i].position.Some?
  {
    hide ApplyOn;
    touched := [];
    var ed := new Editor(g, flow);
    for i := 0 to |ops|
      invariant ApplyAll(catalog, Opened(g, flow), ops[..i]) == Some(ed.View())
    {
      assert ops[..i + 1][..i] == ops[..i];
      var ok := ed.Apply(catalog, ops[i]);
      if !ok {
        FailsForGood(catalog, Opened(g, flow), ops, i + 1);
        return None, [];
      }
    }
    assert ops[..|ops|] == ops;
    ghost var s := ed.View();
    if WellFormed(g.nodes, g.edges) { BatchKeepsWellFormed(catalog, Opened(g, flow), ops); }
    var nodes := PlaceNewNodes(ed.nodes, ed.edges, ed.added);
    if WellFormed(g.nodes, g.edges) { PlacedWellFormed(s.nodes, nodes, s.edges); }
    touched := ListUpdated(ed.updated, ed.added);
    r := Some(Edit(nodes, ed.edges, ed.flow, ed.added, ed.removed, ed.updated, ed.connected, ed.disconnected, ed.flowChanged));
  }

  lemma {:induction false} FailsForGood(catalog: Option<Catalog>, s: Edit, ops: seq<Op>, i: nat)
    requires i <= |ops| && ApplyAll(catalog, s, ops[..i]).None?
    ensures ApplyAll(catalog, s, ops).None?
    decreases |ops| - i
  {
    if i == |ops| { assert ops[..i] == ops; }
    else {
      assert ops[..i + 1][..i] == ops[..i];
      FailsForGood(catalog, s, ops, i + 1);
    }
  }

  lemma PlacedWellFormed(old0: seq<Node>, nodes: seq<Node>, edges: seq<Edge>)
    requires WellFormed(old0, edges) && OnlyPlaces(old0, nodes)
    ensures WellFormed(nodes, edges)
  {
    SameIds(old0, nodes);
  }
}
