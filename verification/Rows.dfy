/**
  The rows of placed cards in the arrangement they end up in, and what a card listed twice does to them.
 */
module Rows {
  import opened Graphs
  import opened GraphEdit
  import opened Placement
  import TopSort

  /** Another card than `i` leaves no room for one at `at`. */
  ghost predicate Taken(nodes: seq<Node>, i: nat, at: Position) {
    exists m :: 0 <= m < |nodes| && m != i && nodes[m].position.Some? && !Apart(nodes[m].position.value, at)
  }

  /** Right of its first source, in that card's row or below places that are all taken. */
  ghost predicate BesideSource(nodes: seq<Node>, i: nat, s: string)
    requires i < |nodes| && nodes[i].position.Some?
  {
    && Placed(nodes, s)
    && var up := nodes[Find(nodes, s)].position.value;
       var from := Position(up.x + COLUMN, up.y);
       exists k: nat :: nodes[i].position.value == Below(from, k) && forall j :: 0 <= j < k ==> Taken(nodes, i, Below(from, j))
  }

  /** In the first column, at the top or a row below another card, and below every card that was there before. */
  ghost predicate InNewRow(old0: seq<Node>, nodes: seq<Node>, i: nat)
    requires |nodes| == |old0| && i < |nodes| && nodes[i].position.Some?
  {
    var at := nodes[i].position.value;
    && at.x == START && at.y >= START
    && (forall m :: 0 <= m < |old0| && old0[m].position.Some? ==> at.y >= old0[m].position.value.y + ROW)
    && (at.y == START || exists m :: 0 <= m < |nodes| && m != i && nodes[m].position.Some? && at.y == nodes[m].position.value.y + ROW)
  }

  ghost predicate InRow(old0: seq<Node>, nodes: seq<Node>, edges: seq<Edge>, i: nat)
    requires |nodes| == |old0| && i < |nodes| && nodes[i].position.Some?
  {
    match Source(Ids(nodes), edges, nodes[i].id)
    case Some(s) => BesideSource(nodes, i, s)
    case None => InNewRow(old0, nodes, i)
  }

  /** What is pending is exactly what has no position. */
  ghost predicate Exact(nodes: seq<Node>, pending: seq<string>) {
    && TopSort.NoDup(pending)
    && (forall i :: 0 <= i < |nodes| ==> (nodes[i].position.None? <==> nodes[i].id in pending))
    && (forall id :: id in pending ==> id in Ids(nodes))
  }

  /** The same cards, and those that are not pending where they were. */
  ghost predicate Keeps(nodes: seq<Node>, pending: seq<string>, result: seq<Node>) {
    && |result| == |nodes| && (forall i :: 0 <= i < |nodes| ==> result[i].id == nodes[i].id)
    && (forall i :: 0 <= i < |nodes| && nodes[i].id !in pending ==> result[i] == nodes[i])
  }

  lemma KeepsIds(nodes: seq<Node>, pending: seq<string>, result: seq<Node>)
    requires Keeps(nodes, pending, result)
    ensures |result| == |nodes| && Ids(result) == Ids(nodes) && (UniqueIds(nodes) ==> UniqueIds(result))
    ensures forall id :: Find(result, id) == Find(nodes, id)
  {
    assert Ids(result) == Ids(nodes) by {
      forall x | x in Ids(nodes) ensures x in Ids(result) { var i :| 0 <= i < |nodes| && nodes[i].id == x; assert result[i].id == x; }
      forall x | x in Ids(result) ensures x in Ids(nodes) { var i :| 0 <= i < |result| && result[i].id == x; assert nodes[i].id == x; }
    }
    forall id ensures Find(result, id) == Find(nodes, id) { var a, b := Find(result, id), Find(nodes, id); }
  }

  lemma PutKeeps(nodes: seq<Node>, k: nat, at: Position)
    requires k < |nodes|
    ensures Keeps(nodes, [nodes[k].id], Put(nodes, k, at))
  {
  }

  lemma DropMeans(pending: seq<string>, p: nat)
    requires TopSort.NoDup(pending) && p < |pending|
    ensures TopSort.NoDup(Drop(pending, p)) && forall id :: id in Drop(pending, p) <==> id in pending && id != pending[p]
  {
    var rest := Drop(pending, p);
    forall id | id in pending && id != pending[p] ensures id in rest {
      var q :| 0 <= q < |pending| && pending[q] == id;
      assert rest[if q < p then q else q - 1] == id;
    }
  }

  lemma ExactStep(nodes: seq<Node>, pending: seq<string>, p: nat, at: Position)
    requires UniqueIds(nodes) && Exact(nodes, pending) && p < |pending| && Find(nodes, pending[p]) >= 0
    ensures Exact(Put(nodes, Find(nodes, pending[p]), at), Drop(pending, p))
  {
    var k := Find(nodes, pending[p]);
    PutKeeps(nodes, k, at);
    KeepsIds(nodes, [nodes[k].id], Put(nodes, k, at));
    DropMeans(pending, p);
    hide Drop, Find, Ids;
    var after := Put(nodes, k, at);
    forall i | 0 <= i < |after| ensures after[i].position.None? <==> after[i].id in Drop(pending, p) {
      if i != k { assert after[i] == nodes[i] && nodes[i].id != nodes[k].id; }
    }
  }

  lemma FirstLands(nodes: seq<Node>, edges: seq<Edge>, pending: seq<string>, result: seq<Node>) returns (p: nat, k: nat, at: Position)
    requires pending != [] && Lays(nodes, edges, pending, result)
    ensures Lands(nodes, edges, pending, p, at) && k < |nodes| && k == Find(nodes, pending[p]) && nodes[k].id == pending[p]
    ensures Lays(Put(nodes, k, at), edges, Drop(pending, p), result)
  {
    p, at :| Lands(nodes, edges, pending, p, at) && Lays(Put(nodes, Find(nodes, pending[p]), at), edges, Drop(pending, p), result);
    k := Find(nodes, pending[p]);
  }

  lemma LandsBound(nodes: seq<Node>, edges: seq<Edge>, pending: seq<string>, p: nat, at: Position)
    requires Lands(nodes, edges, pending, p, at)
    ensures p < |pending| && |Drop(pending, p)| < |pending| && forall id :: id in Drop(pending, p) ==> id in pending
  {
  }

  lemma KeepsThrough(nodes: seq<Node>, k: nat, at: Position, pending: seq<string>, rest: seq<string>, result: seq<Node>)
    requires k < |nodes| && Keeps(Put(nodes, k, at), rest, result) && nodes[k].id in pending && forall id :: id in rest ==> id in pending
    ensures Keeps(nodes, pending, result)
  {
    forall i | 0 <= i < |nodes| ensures result[i].id == nodes[i].id && (nodes[i].id !in pending ==> result[i] == nodes[i]) {
      assert Put(nodes, k, at)[i].id == nodes[i].id;
    }
  }

  /** Placing moves only what is pending. */
  lemma {:induction false} LaysKeeps(nodes: seq<Node>, edges: seq<Edge>, pending: seq<string>, result: seq<Node>)
    requires Lays(nodes, edges, pending, result)
    ensures Keeps(nodes, pending, result)
    decreases |pending|
  {
    if pending != [] {
      hide *;
      var p, k, at := FirstLands(nodes, edges, pending, result);
      LandsBound(nodes, edges, pending, p, at);
      LaysKeeps(Put(nodes, k, at), edges, Drop(pending, p), result);
      KeepsThrough(nodes, k, at, pending, Drop(pending, p), result);
    }
  }

  /** The card whose turn it is lands in its row, and others that stand keep it so. */
  lemma LandsInRow(old0: seq<Node>, nodes: seq<Node>, edges: seq<Edge>, pending: seq<string>, p: nat, k: nat, at: Position,
                   result: seq<Node>, rank: map<string, nat>)
    requires UniqueIds(nodes) && OnlyPlaces(old0, nodes) && Exact(nodes, pending) && Ranked(Graph(nodes, edges), rank)
    requires Lands(nodes, edges, pending, p, at) && k < |nodes| && nodes[k].id == pending[p]
    requires Keeps(nodes, pending, result) && |result| == |old0| && result[k].position == Some(at)
    ensures InRow(old0, result, edges, k)
  {
    hide *;
    LandsMeans(nodes, edges, pending, p, at);
    FirstIsReady(old0, nodes, edges, pending, p, rank);
    KeepsIds(nodes, pending, result);
    PendingHasNone(nodes, pending, p, k);
    SameIdAt(nodes, pending, result, k);
    match PlacedSource(nodes, edges, pending[p])
    case Some(s) =>
      StandsBeside(nodes, pending, k, s, at, result);
      BesideIsInRow(old0, result, edges, k, s);
    case None =>
      StandsInNewRow(old0, nodes, pending, k, at, result);
      NewIsInRow(old0, result, edges, k);
  }

  lemma LandsMeans(nodes: seq<Node>, edges: seq<Edge>, pending: seq<string>, p: nat, at: Position)
    requires Lands(nodes, edges, pending, p, at)
    ensures IsTurn(nodes, edges, pending, p) && p < |pending|
    ensures match PlacedSource(nodes, edges, pending[p])
            case Some(s) => Placed(nodes, s) && Find(nodes, s) >= 0 && nodes[Find(nodes, s)].position.Some? &&
                            var up := nodes[Find(nodes, s)].position.value; FirstFree(nodes, Position(up.x + COLUMN, up.y), at)
            case None => at.x == START && NewRow(nodes, at.y)
  {
    hide NewRow, FirstFree, Ready;
  }

  lemma SameIdAt(nodes: seq<Node>, pending: seq<string>, result: seq<Node>, k: nat)
    requires Keeps(nodes, pending, result) && k < |nodes|
    ensures k < |result| && result[k].id == nodes[k].id
  {
  }

  lemma BesideIsInRow(old0: seq<Node>, nodes: seq<Node>, edges: seq<Edge>, i: nat, s: string)
    requires |nodes| == |old0| && i < |nodes| && nodes[i].position.Some? && BesideSource(nodes, i, s)
    requires Source(Ids(nodes), edges, nodes[i].id) == Some(s)
    ensures InRow(old0, nodes, edges, i)
  {
    hide BesideSource, Source;
  }

  lemma NewIsInRow(old0: seq<Node>, nodes: seq<Node>, edges: seq<Edge>, i: nat)
    requires |nodes| == |old0| && i < |nodes| && nodes[i].position.Some? && InNewRow(old0, nodes, i)
    requires Source(Ids(nodes), edges, nodes[i].id) == None
    ensures InRow(old0, nodes, edges, i)
  {
    hide InNewRow, Source;
  }

  lemma FirstIsReady(old0: seq<Node>, nodes: seq<Node>, edges: seq<Edge>, pending: seq<string>, p: nat, rank: map<string, nat>)
    requires UniqueIds(nodes) && OnlyPlaces(old0, nodes) && Exact(nodes, pending) && Ranked(Graph(nodes, edges), rank)
    requires IsTurn(nodes, edges, pending, p)
    ensures PlacedSource(nodes, edges, pending[p]) == Source(Ids(nodes), edges, pending[p])
  {
    SomeReady(nodes, edges, pending, rank, pending[p]);
    TurnIsReady(nodes, edges, pending, p);
    assert Lists(old0, nodes, pending) by {
      SameIds(old0, nodes);
      forall id | id in pending ensures Find(old0, id) >= 0 && old0[Find(old0, id)].position.None? {
        assert nodes[Find(nodes, id)].position.None?;
      }
    }
    hide Source, PlacedSource, Ready;
    ReadyHasSources(old0, nodes, edges, pending, rank, pending[p]);
  }

  /** A place that is occupied now is taken in the end. */
  lemma StaysTaken(nodes: seq<Node>, pending: seq<string>, k: nat, result: seq<Node>, at: Position)
    requires Exact(nodes, pending) && k < |nodes| && nodes[k].position.None? && Occupied(nodes, at) && Keeps(nodes, pending, result)
    ensures Taken(result, k, at)
  {
    var m :| 0 <= m < |nodes| && nodes[m].position.Some? && !Apart(nodes[m].position.value, at);
    assert result[m] == nodes[m];
  }

  lemma StandsBeside(nodes: seq<Node>, pending: seq<string>, k: nat, s: string, at: Position, result: seq<Node>)
    requires Exact(nodes, pending) && k < |nodes| && nodes[k].position.None? && Keeps(nodes, pending, result)
    requires Placed(nodes, s) && |result| == |nodes| && Find(result, s) == Find(nodes, s)
    requires var up := nodes[Find(nodes, s)].position.value; FirstFree(nodes, Position(up.x + COLUMN, up.y), at)
    requires result[k].position == Some(at)
    ensures BesideSource(result, k, s)
  {
    var f := Find(nodes, s);
    assert result[f] == nodes[f];
    var up := nodes[f].position.value;
    hide Below, Find, Exact, Keeps, Taken, FirstFree;
    RowTaken(nodes, pending, k, Position(up.x + COLUMN, up.y), at, result);
  }

  lemma RowTaken(nodes: seq<Node>, pending: seq<string>, k: nat, from: Position, at: Position, result: seq<Node>)
    requires Exact(nodes, pending) && k < |nodes| && nodes[k].position.None? && Keeps(nodes, pending, result) && FirstFree(nodes, from, at)
    ensures exists n: nat :: at == Below(from, n) && forall j :: 0 <= j < n ==> Taken(result, k, Below(from, j))
  {
    hide Occupied, Below, Exact, Keeps, Taken;
    var n: nat :| at == Below(from, n) && forall j :: 0 <= j < n ==> Occupied(nodes, Below(from, j));
    forall j | 0 <= j < n ensures Taken(result, k, Below(from, j)) { StaysTaken(nodes, pending, k, result, Below(from, j)); }
  }

  lemma StandsInNewRow(old0: seq<Node>, nodes: seq<Node>, pending: seq<string>, k: nat, at: Position, result: seq<Node>)
    requires OnlyPlaces(old0, nodes) && Exact(nodes, pending) && k < |nodes| && nodes[k].position.None? && Keeps(nodes, pending, result)
    requires at.x == START && NewRow(nodes, at.y) && result[k].position == Some(at)
    ensures InNewRow(old0, result, k)
  {
    if at.y != START {
      var m :| 0 <= m < |nodes| && nodes[m].position.Some? && at.y == nodes[m].position.value.y + ROW;
      assert result[m] == nodes[m];
    }
  }

  lemma OnlyPlacesMore(old0: seq<Node>, nodes: seq<Node>, edges: seq<Edge>, k: nat, at: Position, rank: map<string, nat>)
    requires UniqueIds(nodes) && OnlyPlaces(old0, nodes) && k < |nodes| && nodes[k].position.None? && Ranked(Graph(nodes, edges), rank)
    ensures OnlyPlaces(old0, Put(nodes, k, at)) && UniqueIds(Put(nodes, k, at)) && Ranked(Graph(Put(nodes, k, at), edges), rank)
  {
    PutKeeps(nodes, k, at);
    KeepsIds(nodes, [nodes[k].id], Put(nodes, k, at));
  }

  lemma {:induction false} RowsFrom(old0: seq<Node>, nodes: seq<Node>, edges: seq<Edge>, pending: seq<string>, result: seq<Node>,
                                    rank: map<string, nat>, i: nat)
    requires UniqueIds(nodes) && OnlyPlaces(old0, nodes) && Exact(nodes, pending) && Ranked(Graph(nodes, edges), rank)
    requires Lays(nodes, edges, pending, result) && i < |nodes| && nodes[i].position.None?
    ensures |result| == |old0| && result[i].position.Some? && InRow(old0, result, edges, i)
    decreases |pending|
  {
    assert nodes[i].id in pending && |nodes| == |old0|;
    hide *;
    LaysKeeps(nodes, edges, pending, result);
    KeepsIds(nodes, pending, result);
    var p, k, at := FirstLands(nodes, edges, pending, result);
    LandsBound(nodes, edges, pending, p, at);
    assert nodes[k].position.None? by { PendingHasNone(nodes, pending, p, k); }
    if i == k {
      LandedStays(nodes, edges, pending, p, k, at, result);
      LandsInRow(old0, nodes, edges, pending, p, k, at, result, rank);
    } else {
      ExactStep(nodes, pending, p, at);
      OnlyPlacesMore(old0, nodes, edges, k, at, rank);
      PutOther(nodes, k, at, i);
      RowsFrom(old0, Put(nodes, k, at), edges, Drop(pending, p), result, rank, i);
    }
  }

  lemma PendingHasNone(nodes: seq<Node>, pending: seq<string>, p: nat, k: nat)
    requires Exact(nodes, pending) && p < |pending| && k < |nodes| && nodes[k].id == pending[p]
    ensures nodes[k].position.None?
  {
  }

  lemma PutOther(nodes: seq<Node>, k: nat, at: Position, i: nat)
    requires k < |nodes| && i < |nodes| && i != k
    ensures |Put(nodes, k, at)| == |nodes| && Put(nodes, k, at)[i] == nodes[i]
  {
  }

  lemma LandedStays(nodes: seq<Node>, edges: seq<Edge>, pending: seq<string>, p: nat, k: nat, at: Position, result: seq<Node>)
    requires Exact(nodes, pending) && p < |pending| && k < |nodes| && nodes[k].id == pending[p]
    requires Lays(Put(nodes, k, at), edges, Drop(pending, p), result)
    ensures |result| == |nodes| && result[k].position == Some(at)
  {
    DropMeans(pending, p);
    LaysKeeps(Put(nodes, k, at), edges, Drop(pending, p), result);
    hide Lays, Drop;
  }

  lemma {:induction false} OlderDistinct(nodes: seq<Node>, ids: seq<string>)
    requires UniqueIds(nodes)
    ensures TopSort.NoDup(Older(nodes, ids))
  {
    if nodes != [] {
      var k := |nodes| - 1;
      OlderDistinct(nodes[..k], ids);
      OlderMeans(nodes[..k], ids, nodes[k].id);
    }
  }

  lemma {:induction false} BatchDistinct(nodes: seq<Node>, ids: seq<string>)
    requires TopSort.NoDup(ids)
    ensures TopSort.NoDup(Batch(nodes, ids))
  {
    if ids != [] {
      var k := |ids| - 1;
      BatchDistinct(nodes, ids[..k]);
      BatchMeans(nodes, ids[..k], ids[k]);
    }
  }

  lemma PendingIsExact(nodes: seq<Node>, ids: seq<string>)
    requires UniqueIds(nodes) && TopSort.NoDup(ids)
    ensures Exact(nodes, Older(nodes, ids) + Batch(nodes, ids))
  {
    var pending := Older(nodes, ids) + Batch(nodes, ids);
    PendingMeans(nodes, ids, pending);
    OlderDistinct(nodes, ids);
    BatchDistinct(nodes, ids);
    forall id ensures !(id in Older(nodes, ids) && id in Batch(nodes, ids)) { OlderMeans(nodes, ids, id); BatchMeans(nodes, ids, id); }
    hide Older, Batch, Find;
    TwoDistinct(Older(nodes, ids), Batch(nodes, ids));
    forall id | id in pending ensures id in Ids(nodes) { }
    forall i | 0 <= i < |nodes| && nodes[i].id in pending ensures nodes[i].position.None? {
      OnlyBearer(nodes, i);
    }
  }

  lemma TwoDistinct(a: seq<string>, b: seq<string>)
    requires TopSort.NoDup(a) && TopSort.NoDup(b) && forall id :: !(id in a && id in b)
    ensures TopSort.NoDup(a + b)
  {
    var s := a + b;
    forall i, j | 0 <= i < j < |s| ensures s[i] != s[j] {
      if i < |a| && j >= |a| { assert s[i] in a && s[j] in b; }
    }
  }

  lemma OnlyBearer(nodes: seq<Node>, i: nat)
    requires UniqueIds(nodes) && i < |nodes|
    ensures Find(nodes, nodes[i].id) == i
  {
    assert nodes[i].id in Ids(nodes);
  }

  lemma PlacesNothing(nodes: seq<Node>)
    ensures OnlyPlaces(nodes, nodes)
  {
  }

  /** Every new card of an acyclic flow is in its row, if the batch lists each of its cards once. */
  lemma NewCardsAreInRow(old0: seq<Node>, edges: seq<Edge>, ids: seq<string>, result: seq<Node>, rank: map<string, nat>, i: nat)
    requires UniqueIds(old0) && Ranked(Graph(old0, edges), rank) && TopSort.NoDup(ids)
    requires Lays(old0, edges, Older(old0, ids) + Batch(old0, ids), result) && i < |old0| && old0[i].position.None?
    ensures |result| == |old0| && result[i].position.Some? && InRow(old0, result, edges, i)
  {
    PendingIsExact(old0, ids);
    PlacesNothing(old0);
    hide *;
    RowsFrom(old0, old0, edges, Older(old0, ids) + Batch(old0, ids), result, rank, i);
  }

  // ----- a card listed twice

  /** `result` is the arrangement of an acyclic flow with unique ids, and card `i` of it is new. */
  ghost predicate Arranges(old0: seq<Node>, edges: seq<Edge>, ids: seq<string>, result: seq<Node>, rank: map<string, nat>, i: nat) {
    && UniqueIds(old0) && Ranked(Graph(old0, edges), rank) && i < |old0| && old0[i].position.None?
    && Lays(old0, edges, Older(old0, ids) + Batch(old0, ids), result)
  }

  /** Whatever the flow, the batch puts every new card in its row. */
  ghost predicate AlwaysInRow(ids: seq<string>) {
    forall old0: seq<Node>, edges, result: seq<Node>, rank, i: nat :: Arranges(old0, edges, ids, result, rank, i) ==>
      |result| == |old0| && result[i].position.Some? && InRow(old0, result, edges, i)
  }

  lemma {:induction false} BatchRepeats(nodes: seq<Node>, ids: seq<string>, a: nat, b: nat)
    requires a < b < |ids| && ids[a] == ids[b] && Find(nodes, ids[b]) >= 0 && nodes[Find(nodes, ids[b])].position.None?
    ensures |Batch(nodes, ids)| >= 2
  {
    var k := |ids| - 1;
    if b == k {
      assert ids[..k][a] == ids[b];
      BatchMeans(nodes, ids[..k], ids[b]);
    } else {
      BatchRepeats(nodes, ids[..k], a, b);
    }
  }

  /** A single card goes a row further down each time its turn comes. */
  lemma {:induction false} SinkingCard(card: Node, pending: seq<string>) returns (y: real)
    requires pending != [] && forall id :: id in pending ==> id == card.id
    ensures Lays([card], [], pending, [card.(position := Some(Position(START, y)))])
    ensures y >= START && (|pending| > 1 || (card.position.Some? && card.position.value.y >= START) ==> y > START)
    decreases |pending|
  {
    var nodes := [card];
    var at := Position(START, if card.position.Some? && card.position.value.y + ROW > START then card.position.value.y + ROW else START);
    assert pending[0] in pending && card.id in Ids(nodes) by { assert nodes[0] == card; }
    assert Find(nodes, pending[0]) == 0;
    assert NewRow(nodes, at.y) by { assert card.position.Some? ==> nodes[0].position.Some?; }
    assert Lands(nodes, [], pending, 0, at) by { assert Ready(nodes, [], pending, pending[0]); }
    var placed := card.(position := Some(at));
    assert Put(nodes, 0, at) == [placed];
    if |pending| == 1 {
      y := at.y;
      assert Drop(pending, 0) == [];
      assert Lays([placed], [], [], [placed]);
    } else {
      assert Drop(pending, 0) == pending[1..];
      assert forall id :: id in pending[1..] ==> id in pending;
      y := SinkingCard(placed, pending[1..]);
    }
    LaysMore(nodes, [], pending, 0, at, [card.(position := Some(Position(START, y)))]);
  }

  /**
    A batch keeps every new card in its row, whatever the flow, exactly if it lists no id twice. A batch
    that adds a node, removes it and adds it again lists it twice; the card is then placed twice, the
    second time below where it was put first.
   */
  lemma InRowExactlyIfDistinct(ids: seq<string>)
    ensures AlwaysInRow(ids) <==> TopSort.NoDup(ids)
  {
    if TopSort.NoDup(ids) {
      forall old0: seq<Node>, edges, result: seq<Node>, rank, i: nat | Arranges(old0, edges, ids, result, rank, i)
        ensures |result| == |old0| && result[i].position.Some? && InRow(old0, result, edges, i)
      {
        NewCardsAreInRow(old0, edges, ids, result, rank, i);
      }
    } else {
      RepeatLeavesRow(ids);
    }
  }

  lemma RepeatLeavesRow(ids: seq<string>)
    requires !TopSort.NoDup(ids)
    ensures !AlwaysInRow(ids)
  {
    var a, b :| 0 <= a < b < |ids| && ids[a] == ids[b];
    var card := Node(ids[b], "", "", None, false, false, map[]);
    var old0 := [card];
    var pending := Older(old0, ids) + Batch(old0, ids);
    RepeatIsPending(card, ids, a, b);
    hide Older, Batch, Lays, Find, InRow;
    var y := SinkingCard(card, pending);
    var result := [card.(position := Some(Position(START, y)))];
    SunkIsOutOfRow(card, y);
    assert Arranges(old0, [], ids, result, map[ids[b] := 0], 0);
  }

  lemma RepeatIsPending(card: Node, ids: seq<string>, a: nat, b: nat)
    requires a < b < |ids| && ids[a] == ids[b] == card.id && card.position.None?
    ensures var pending := Older([card], ids) + Batch([card], ids);
            |pending| >= 2 && forall id :: id in pending ==> id == card.id
  {
    var nodes := [card];
    assert nodes[0].id in Ids(nodes) && Find(nodes, ids[b]) == 0;
    BatchRepeats(nodes, ids, a, b);
    var pending := Older(nodes, ids) + Batch(nodes, ids);
    PendingMeans(nodes, ids, pending);
    hide Older, Batch;
    forall id | id in pending ensures id == card.id { assert id in Ids(nodes); }
  }

  lemma SunkIsOutOfRow(card: Node, y: real)
    requires card.position.None? && y > START
    ensures !InRow([card], [card.(position := Some(Position(START, y)))], [], 0)
  {
  }
}
