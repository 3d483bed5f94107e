/**
  What each operation of the graph editor means, said of the flow before and after it.
 */
module EditMeaning {
  import opened Graphs
  import opened GraphEdit

  /** The report and everything else that an operation on nodes or edges leaves alone. */
  ghost predicate SameFlow(s: Edit, s': Edit) {
    s'.flow == s.flow && s'.flowChanged == s.flowChanged
  }

  ghost predicate SameCounts(s: Edit, s': Edit) {
    s'.connected == s.connected && s'.disconnected == s.disconnected
  }

  /** What a patch makes of the parameters: a value sets its key, a null removes it, and other keys stay unless all are replaced. */
  ghost predicate Patched(before: map<string, string>, touch: Touch, after: map<string, string>) {
    forall k ::
      if k in touch.params then
        if touch.params[k].Some? then k in after && after[k] == touch.params[k].value else k !in after
      else if touch.replaceParams then k !in after
      else (k in after <==> k in before) && (k in before ==> after[k] == before[k])
  }

  /** The node with the caption and switch given, if any, and patched parameters. */
  ghost predicate Touched(n: Node, touch: Touch, n': Node) {
    && n'.id == n.id && n'.step == n.step && n'.position == n.position && n'.continueOnError == n.continueOnError
    && (touch.title.Some? ==> n'.title == touch.title.value) && (touch.title.None? ==> n'.title == n.title)
    && (touch.disabled.Some? ==> n'.disabled == touch.disabled.value) && (touch.disabled.None? ==> n'.disabled == n.disabled)
    && Patched(n.params, touch, n'.params)
  }

  lemma RetouchedMeans(n: Node, touch: Touch)
    ensures Touched(n, touch, Retouched(n, touch))
  {
  }

  /** An update fails exactly if there is no such node, and otherwise changes the first one so called and reports it. */
  lemma UpdateMeans(catalog: Option<Catalog>, s: Edit, id: string, touch: Touch)
    ensures var r := ApplyOn(catalog, s, UpdateNode(id, touch));
            && (r.None? <==> id !in Ids(s.nodes))
            && (r.Some? ==> var s' := r.value;
                  && SameFlow(s, s') && SameCounts(s, s') && s'.edges == s.edges && s'.added == s.added && s'.removed == s.removed
                  && s'.updated == s.updated + {id} && |s'.nodes| == |s.nodes|
                  && exists i :: 0 <= i < |s.nodes| && s.nodes[i].id == id && (forall j :: 0 <= j < i ==> s.nodes[j].id != id)
                                 && Touched(s.nodes[i], touch, s'.nodes[i])
                                 && forall j :: 0 <= j < |s.nodes| && j != i ==> s'.nodes[j] == s.nodes[j])
  {
    var i := Find(s.nodes, id);
    if i >= 0 { RetouchedMeans(s.nodes[i], touch); }
    hide Retouched, Touched, Ids, Find;
  }

  /** An edge joins two named nodes by the ports picked for them. */
  ghost predicate CanJoin(catalog: Option<Catalog>, nodes: seq<Node>, from: string, fromPort: string, to: string, toPort: string) {
    && from in Ids(nodes) && to in Ids(nodes)
    && PickPort(catalog, nodes[Find(nodes, from)].step, fromPort, true).Some?
    && PickPort(catalog, nodes[Find(nodes, to)].step, toPort, false).Some?
  }

  /** Connecting fails exactly if an end or its port is missing, does nothing if the wire is there, and otherwise adds it at the end. */
  lemma ConnectMeans(catalog: Option<Catalog>, s: Edit, from: string, fromPort: string, to: string, toPort: string, onError: OnError)
    ensures var r := ApplyOn(catalog, s, Connect(from, fromPort, to, toPort, onError));
            && (r.Some? <==> CanJoin(catalog, s.nodes, from, fromPort, to, toPort))
            && (r.Some? ==> var s' := r.value;
                  var out := PickPort(catalog, s.nodes[Find(s.nodes, from)].step, fromPort, true).value;
                  var inn := PickPort(catalog, s.nodes[Find(s.nodes, to)].step, toPort, false).value;
                  && SameFlow(s, s') && s'.nodes == s.nodes && s'.added == s.added && s'.removed == s.removed
                  && s'.updated == s.updated && s'.disconnected == s.disconnected
                  && if exists e :: e in s.edges && e.from == from && e.fromPort == out && e.to == to && e.toPort == inn
                     then s'.edges == s.edges && s'.connected == s.connected
                     else s'.edges == s.edges + [Edge(from, out, to, inn, onError)] && s'.connected == s.connected + 1)
  {
    var r := ApplyOn(catalog, s, Connect(from, fromPort, to, toPort, onError));
    if r.Some? {
      var out := PickPort(catalog, s.nodes[Find(s.nodes, from)].step, fromPort, true).value;
      var inn := PickPort(catalog, s.nodes[Find(s.nodes, to)].step, toPort, false).value;
      WireThere(s.edges, Edge(from, out, to, inn, onError));
    }
    hide PickPort, Ids;
  }

  lemma WireThere(edges: seq<Edge>, x: Edge)
    ensures (exists k :: 0 <= k < |edges| && WireOf(edges[k]) == WireOf(x)) <==>
            exists e :: e in edges && e.from == x.from && e.fromPort == x.fromPort && e.to == x.to && e.toPort == x.toPort
  {
    if k :| 0 <= k < |edges| && WireOf(edges[k]) == WireOf(x) { assert edges[k] in edges; }
    if e :| e in edges && e.from == x.from && e.fromPort == x.fromPort && e.to == x.to && e.toPort == x.toPort {
      var k :| 0 <= k < |edges| && edges[k] == e;
      assert WireOf(edges[k]) == WireOf(x);
    }
  }

  /** A new node is what was asked for: unplaced, with nothing set but the given caption, switch and non-null parameters. */
  ghost predicate IsNew(n: Node, op: Op)
    requires op.AddNode?
  {
    && n.step == op.step && n.position == None && !n.continueOnError
    && n.title == (if op.touch.title.Some? then op.touch.title.value else "")
    && n.disabled == (op.touch.disabled == Some(true))
    && (forall k :: k in n.params <==> k in op.touch.params && op.touch.params[k].Some?)
    && (forall k :: k in n.params ==> Some(n.params[k]) == op.touch.params[k])
  }

  /** The request itself is in order: a known step, and an id that is free and well spelt or left to the editor. */
  ghost predicate CanAdd(catalog: Option<Catalog>, s: Edit, op: Op)
    requires op.AddNode?
  {
    && op.step != "" && (catalog.Some? ==> op.step in catalog.value)
    && (op.node != "" ==> ValidId(op.node) && op.node !in Ids(s.nodes))
  }

  /** Adding a node appends it under the id asked for, or one nobody has; with a node to come after, it is wired to that by first ports. */
  lemma AddMeans(catalog: Option<Catalog>, s: Edit, op: Op)
    requires op.AddNode?
    ensures var r := ApplyOn(catalog, s, op);
            && (!CanAdd(catalog, s, op) ==> r.None?)
            && (CanAdd(catalog, s, op) && op.after == "" ==> r.Some? && r.value.edges == s.edges && r.value.connected == s.connected)
            && (r.Some? ==> var s' := r.value;
                  && SameFlow(s, s') && s'.removed == s.removed && s'.updated == s.updated && s'.disconnected == s.disconnected
                  && |s'.nodes| == |s.nodes| + 1 && s'.nodes[..|s.nodes|] == s.nodes
                  && var n := s'.nodes[|s.nodes|];
                  && s'.added == s.added + [n.id] && n.id !in Ids(s.nodes) && (op.node != "" ==> n.id == op.node) && IsNew(n, op))
  {
    hide NewNode, ConnectOn, ValidId, Find, Ids, IsNew, FreeId;
    FindMissing(s.nodes, op.node);
    var id := if op.node == "" then FreeId(Ids(s.nodes), op.step) else op.node;
    NewNodeMeans(id, op);
    var s1 := s.(nodes := s.nodes + [NewNode(id, op)], added := s.added + [id]);
    ConnectLeaves(catalog, s1, op.after, "", id, "", Unset);
  }

  lemma NewNodeMeans(id: string, op: Op)
    requires op.AddNode?
    ensures IsNew(NewNode(id, op), op) && NewNode(id, op).id == id
  {
  }

  lemma ConnectLeaves(catalog: Option<Catalog>, s: Edit, from: string, fromPort: string, to: string, toPort: string, onError: OnError)
    ensures var r := ConnectOn(catalog, s, from, fromPort, to, toPort, onError);
            r.Some? ==> r.value == s.(edges := r.value.edges, connected := r.value.connected)
  {
    hide PickPort, Ids, WireOf;
  }

  lemma FindMissing(nodes: seq<Node>, id: string)
    ensures Find(nodes, id) < 0 <==> id !in Ids(nodes)
  {
  }

  /** With a node to come after it succeeds exactly if the two can be joined, and then has connected them. */
  lemma AddAfterMeans(catalog: Option<Catalog>, s: Edit, op: Op)
    requires op.AddNode? && op.after != "" && CanAdd(catalog, s, op)
    ensures var id := if op.node != "" then op.node else FreeId(Ids(s.nodes), op.step);
            var s1 := s.(nodes := s.nodes + [NewNode(id, op)], added := s.added + [id]);
            ApplyOn(catalog, s, op) == ApplyOn(catalog, s1, Connect(op.after, "", id, "", Unset))
  {
    hide PickPort, FreeId, Find, Ids;
    FindMissing(s.nodes, op.node);
  }

  /** `kept` is `es` without the edges that `op` hits, in order: `at` says where each of them was. */
  ghost predicate Filters(es: seq<Edge>, op: Op, kept: seq<Edge>, at: seq<nat>) {
    && |at| == |kept| && (forall i :: 0 <= i < |at| ==> at[i] < |es| && kept[i] == es[at[i]] && !Hits(op, kept[i]))
    && (forall i, j :: 0 <= i < j < |at| ==> at[i] < at[j])
    && (forall k :: 0 <= k < |es| && !Hits(op, es[k]) ==> k in at)
  }

  lemma KeptFilters(es: seq<Edge>, op: Op) returns (at: seq<nat>)
    ensures Filters(es, op, Kept(es, op), at)
  {
    at := PrefixFilters(es, op, |es|);
    assert es[..|es|] == es;
  }

  lemma {:induction false} PrefixFilters(es: seq<Edge>, op: Op, n: nat) returns (at: seq<nat>)
    requires n <= |es|
    ensures Filters(es[..n], op, Kept(es[..n], op), at)
  {
    hide Kept, Filters, Hits;
    if n == 0 {
      at := [];
      FiltersNothing(es, op);
    } else {
      at := PrefixFilters(es, op, n - 1);
      KeptStep(es, n - 1, op);
      FiltersStep(es[..n - 1], op, Kept(es[..n - 1], op), at, es[n - 1]);
      assert es[..n] == es[..n - 1] + [es[n - 1]];
      if Hits(op, es[n - 1]) {
        assert Kept(es[..n], op) == Kept(es[..n - 1], op);
      } else {
        at := at + [n - 1];
      }
    }
  }

  lemma FiltersNothing(es: seq<Edge>, op: Op)
    ensures Filters(es[..0], op, Kept(es[..0], op), [])
  {
  }

  lemma FiltersStep(es: seq<Edge>, op: Op, kept: seq<Edge>, at: seq<nat>, e: Edge)
    requires Filters(es, op, kept, at)
    ensures if Hits(op, e) then Filters(es + [e], op, kept, at) else Filters(es + [e], op, kept + [e], at + [|es|])
  {
    hide Hits;
    var es' := es + [e];
    var at' := if Hits(op, e) then at else at + [|es|];
    forall m | 0 <= m < |es'| && !Hits(op, es'[m]) ensures m in at' {
      if m < |es| {
        assert es'[m] == es[m];
        var i :| 0 <= i < |at| && at[i] == m;
        assert at'[i] == m;
      } else {
        assert at'[|at'| - 1] == m;
      }
    }
  }

  /** Removing a node fails exactly if there is none, and otherwise takes it and exactly the edges at it away. */
  lemma RemoveMeans(catalog: Option<Catalog>, s: Edit, id: string)
    ensures var r := ApplyOn(catalog, s, RemoveNode(id));
            && (r.None? <==> id !in Ids(s.nodes))
            && (r.Some? ==> var s' := r.value;
                  && SameFlow(s, s') && s'.connected == s.connected && s'.added == s.added
                  && s'.removed == s.removed + [id] && s'.updated == s.updated - {id}
                  && (exists i :: 0 <= i < |s.nodes| && s.nodes[i].id == id && s'.nodes == s.nodes[..i] + s.nodes[i + 1..])
                  && (exists at :: Filters(s.edges, RemoveNode(id), s'.edges, at))
                  && s'.disconnected == s.disconnected + |s.edges| - |s'.edges|)
    ensures forall e :: Hits(RemoveNode(id), e) <==> e.from == id || e.to == id
  {
    var at := KeptFilters(s.edges, RemoveNode(id));
    FindMissing(s.nodes, id);
    hide Kept, Ids, Filters, Find;
    var i := Find(s.nodes, id);
    if i >= 0 {
      assert s.nodes[i].id == id;
      assert ApplyOn(catalog, s, RemoveNode(id)).value.nodes == s.nodes[..i] + s.nodes[i + 1..];
    }
  }

  /** Disconnecting takes exactly the matching edges away, any port matching where none is named, and fails if there are none. */
  lemma DisconnectMeans(catalog: Option<Catalog>, s: Edit, from: string, fromPort: string, to: string, toPort: string)
    ensures var op := Disconnect(from, fromPort, to, toPort);
            var r := ApplyOn(catalog, s, op);
            && (r.None? <==> forall e :: e in s.edges ==> !Hits(op, e))
            && (r.Some? ==> var s' := r.value;
                  && SameFlow(s, s') && s'.nodes == s.nodes && s'.connected == s.connected
                  && s'.added == s.added && s'.removed == s.removed && s'.updated == s.updated
                  && (exists at :: Filters(s.edges, op, s'.edges, at))
                  && s'.disconnected == s.disconnected + |s.edges| - |s'.edges|)
    ensures forall e :: Hits(Disconnect(from, fromPort, to, toPort), e) <==>
              e.from == from && e.to == to && (fromPort == "" || e.fromPort == fromPort) && (toPort == "" || e.toPort == toPort)
  {
    var op := Disconnect(from, fromPort, to, toPort);
    var at := KeptFilters(s.edges, op);
    NothingDropped(s.edges, op);
    hide Kept, Filters;
  }

  lemma {:induction false} NothingDropped(es: seq<Edge>, op: Op)
    ensures |Kept(es, op)| == |es| <==> forall e :: e in es ==> !Hits(op, e)
  {
    if es != [] {
      var k := |es| - 1;
      NothingDropped(es[..k], op);
      assert es == es[..k] + [es[k]];
    }
  }

  /** Setting the flow changes exactly the fields that are given. */
  lemma SetFlowMeans(catalog: Option<Catalog>, s: Edit, op: Op)
    requires op.SetFlow?
    ensures var r := ApplyOn(catalog, s, op);
            && r.Some? && r.value == s.(flow := r.value.flow, flowChanged := true)
            && (op.name.Some? ==> r.value.flow.name == op.name.value) && (op.name.None? ==> r.value.flow.name == s.flow.name)
            && (op.description.Some? ==> r.value.flow.description == op.description.value)
            && (op.description.None? ==> r.value.flow.description == s.flow.description)
            && (op.triggers.Some? ==> r.value.flow.triggers == op.triggers.value)
            && (op.triggers.None? ==> r.value.flow.triggers == s.flow.triggers)
  {
  }

  /** A batch is its operations one after the other; if one fails, so does the batch. */
  lemma {:induction false} BatchIsSequence(catalog: Option<Catalog>, s: Edit, a: seq<Op>, b: seq<Op>)
    ensures var mid := ApplyAll(catalog, s, a);
            ApplyAll(catalog, s, a + b) == if mid.None? then None else ApplyAll(catalog, mid.value, b)
  {
    hide ApplyOn;
    if b == [] { assert a + b == a; }
    else {
      var k := |b| - 1;
      BatchIsSequence(catalog, s, a, b[..k]);
      assert (a + b)[..|a + b| - 1] == a + b[..k];
    }
  }

  // ----- generated ids

  /** What a string of digits denotes. */
  ghost function Denotes(s: string): int {
    if s == [] then 0 else 10 * Denotes(s[..|s| - 1]) + (s[|s| - 1] as int - '0' as int)
  }

  /** The number after the underscore is the usual decimal one, without a leading zero. */
  lemma {:induction false} DecimalMeans(n: nat)
    ensures Denotes(Decimal(n)) == n && (forall c :: c in Decimal(n) ==> '0' <= c <= '9') && (n > 0 ==> Decimal(n)[0] != '0')
  {
    if n >= 10 {
      DecimalMeans(n / 10);
      assert Decimal(n)[..|Decimal(n)| - 1] == Decimal(n / 10);
    } else {
      assert Decimal(n)[..0] == [];
    }
  }

  /** A generated id is the base if that is free, and otherwise the base with the first number from 2 on that makes it free. */
  lemma FreeIdIsFirst(ids: set<string>, step: string)
    ensures var id, base := FreeId(ids, step), BaseName(step);
            if base !in ids then id == base
            else exists n: nat :: n >= 2 && id == base + "_" + Decimal(n) && id !in ids &&
                                  forall m: nat :: 2 <= m < n ==> base + "_" + Decimal(m) in ids
  {
    hide BaseName, Decimal;
    var base := BaseName(step);
    if base in ids { var n := FirstFrom(ids, base, 2); assert Candidate(base, n) == base + "_" + Decimal(n); }
  }

  lemma {:induction false} FirstFrom(ids: set<string>, base: string, n: nat) returns (k: nat)
    requires Tried(ids, base, n)
    ensures k >= n && FreeFrom(ids, base, n) == Candidate(base, k) && Candidate(base, k) !in ids
    ensures forall m: nat :: 2 <= m < k ==> base + "_" + Decimal(m) in ids
    decreases |ids| + 2 - n
  {
    hide Decimal;
    TriedBound(ids, base, n);
    forall m: nat | 2 <= m < n ensures base + "_" + Decimal(m) in ids { assert Candidate(base, m) in ids; }
    if Candidate(base, n) in ids { k := FirstFrom(ids, base, n + 1); } else { k := n; }
  }

  lemma {:induction false} DecimalLength(n: nat, k: nat)
    requires k > 0 && n < Power(k)
    ensures |Decimal(n)| <= k
  {
    if n >= 10 { DecimalLength(n / 10, k - 1); }
  }

  ghost function Power(k: nat): nat {
    if k == 0 then 1 else 10 * Power(k - 1)
  }

  lemma {:induction false} DecimalGrows(m: nat, n: nat)
    requires m <= n
    ensures |Decimal(m)| <= |Decimal(n)|
  {
    if m >= 10 { DecimalGrows(m / 10, n / 10); }
  }

  /** Some number short enough to make an id of at most 64 characters makes the base free. */
  ghost predicate ShortNumberFree(ids: set<string>, base: string) {
    exists n: nat :: n >= 2 && |base + "_" + Decimal(n)| <= 64 && base + "_" + Decimal(n) !in ids
  }

  /**
    A generated id is one the editor would accept exactly if its base is free or a number short enough makes it
    so; in a flow of fewer than ten million nodes it always is.
   */
  lemma GeneratedIsValid(ids: set<string>, step: string)
    ensures ValidId(FreeId(ids, step)) <==> BaseName(step) !in ids || ShortNumberFree(ids, BaseName(step))
    ensures |ids| < 9999999 ==> ValidId(FreeId(ids, step))
  {
    var base := BaseName(step);
    if base in ids {
      var n := FirstFrom(ids, base, 2);
      var id := base + "_" + Decimal(n);
      NumberedIsValid(base, n);
      if |ids| < 9999999 {
        NumberBound(ids, base, n);
        DecimalLength(n, 7);
      }
      hide Decimal, BaseName;
      if k: nat :| k >= 2 && |base + "_" + Decimal(k)| <= 64 && base + "_" + Decimal(k) !in ids { DecimalGrows(n, k); }
    }
  }

  lemma NumberedIsValid(base: string, n: nat)
    requires ValidId(base)
    ensures ValidId(base + "_" + Decimal(n)) <==> |base + "_" + Decimal(n)| <= 64
  {
    DecimalMeans(n);
    var id := base + "_" + Decimal(n);
    hide Decimal;
    forall i | 0 <= i < |id| ensures IdChar(id[i]) {
      if i > |base| { assert id[i] == Decimal(n)[i - |base| - 1] && id[i] in Decimal(n); }
    }
  }

  lemma NumberBound(ids: set<string>, base: string, n: nat)
    requires base in ids && n >= 2 && |ids| < 9999999 && forall k: nat :: 2 <= k < n ==> base + "_" + Decimal(k) in ids
    ensures n < Power(7)
  {
    hide Decimal;
    forall k | 2 <= k < n ensures Candidate(base, k) in ids { assert base + "_" + Decimal(k) in ids; }
    assert Tried(ids, base, n);
    TriedBound(ids, base, n);
    assert Power(7) == 10000000 by { assert Power(3) == 1000 && Power(5) == 100 * Power(3); }
  }
}
