/**
  The batch graph editor (core/graphedit.go).

  An edit works on a copy of the flow and reports what it did. The values of step parameters and
  the flow's triggers are only ever carried along, so strings stand for them.
 */
module GraphEdit {
  import opened Graphs

  // ----- what a batch is made of

  /** What to change of a node; a parameter that maps to nothing is removed. */
  datatype Touch = Touch(title: Option<string>, disabled: Option<bool>, params: map<string, Option<string>>, replaceParams: bool)

  datatype Op =
    | AddNode(node: string, step: string, after: string, touch: Touch)
    | UpdateNode(node: string, touch: Touch)
    | RemoveNode(node: string)
    | Connect(from: string, fromPort: string, to: string, toPort: string, onError: OnError)
    | Disconnect(from: string, fromPort: string, to: string, toPort: string)
    | SetFlow(name: Option<string>, description: Option<string>, triggers: Option<seq<string>>)
    | Unknown

  datatype Manifest = Manifest(dynamicPorts: bool, inputs: seq<string>, outputs: seq<string>)
  type Catalog = map<string, Manifest>

  /** What a flow has besides its graph. */
  datatype Flow = Flow(name: string, description: string, triggers: seq<string>)

  /** The flow being edited together with the report so far. */
  datatype Edit = Edit(nodes: seq<Node>, edges: seq<Edge>, flow: Flow, added: seq<string>, removed: seq<string>,
                       updated: set<string>, connected: nat, disconnected: nat, flowChanged: bool)

  // ----- node ids

  /** The position of the first node called `id`, or -1. */
  function Find(nodes: seq<Node>, id: string): (i: int)
    ensures -1 <= i < |nodes|
    ensures i >= 0 ==> nodes[i].id == id && forall j :: 0 <= j < i ==> nodes[j].id != id
    ensures i == -1 <==> id !in Ids(nodes)
  {
    if nodes == [] then -1
    else if nodes[0].id == id then 0
    else
      assert nodes == [nodes[0]] + nodes[1..];
      var i := Find(nodes[1..], id);
      assert forall j :: 0 < j < |nodes| ==> nodes[j] == nodes[1..][j - 1];
      if i < 0 then -1 else i + 1
  }

  predicate Letter(c: char) { 'a' <= c <= 'z' || 'A' <= c <= 'Z' }

  predicate IdChar(c: char) { Letter(c) || '0' <= c <= '9' || c == '_' || c == '-' }

  /** A letter followed by up to 63 letters, digits, underscores and dashes. */
  predicate ValidId(id: string) {
    0 < |id| <= 64 && Letter(id[0]) && forall i :: 0 <= i < |id| ==> IdChar(id[i])
  }

  /** What follows the last dot or slash. */
  function LastPart(s: string): (r: string)
  {
    if s == [] then []
    else
      var k := |s| - 1;
      if s[k] == '.' || s[k] == '/' then [] else LastPart(s[..k]) + [s[k]]
  }

  function Cleaned(s: string): (r: string)
    ensures |r| == |s| && forall i :: 0 <= i < |r| ==> r[i] == if IdChar(s[i]) then s[i] else '_'
  {
    seq(|s|, i requires 0 <= i < |s| => if IdChar(s[i]) then s[i] else '_')
  }

  /**
    The base of a generated id: the first 56 characters of the step's last part with everything but id
    characters replaced, after "step_" if that does not begin with a letter. Characters stand for runes here.
   */
  function BaseName(step: string): (r: string)
    ensures ValidId(r) && |r| <= 56
    ensures exists base :: IsBase(step, base) && r <= base && (r == base || |r| == 56)
  {
    var base := Cleaned(LastPart(step));
    var named := if base == "" || !Letter(base[0]) then "step_" + base else base;
    assert IsBase(step, named) by {
      var part := LastPart(step);
      LastPartEnds(step);
      assert EndsIn(step, part) && Respelt(part, base);
    }
    if |named| > 56 then named[..56] else named
  }

  /** `part` is what follows the last dot or slash of `step`. */
  predicate EndsIn(step: string, part: string) {
    && |part| <= |step| && step[|step| - |part|..] == part && '.' !in part && '/' !in part
    && (|part| < |step| ==> var c := step[|step| - |part| - 1]; c == '.' || c == '/')
  }

  /** `base` is `part` with an underscore for everything an id may not hold. */
  predicate Respelt(part: string, base: string) {
    |base| == |part| && forall i :: 0 <= i < |part| ==> base[i] == if IdChar(part[i]) then part[i] else '_'
  }

  ghost predicate IsBase(step: string, named: string) {
    exists part, base :: EndsIn(step, part) && Respelt(part, base) &&
                         named == if base != "" && Letter(base[0]) then base else "step_" + base
  }

  lemma {:induction false} LastPartEnds(s: string)
    ensures EndsIn(s, LastPart(s))
  {
    hide EndsIn;
    if s == [] || s[|s| - 1] == '.' || s[|s| - 1] == '/' {
      EndsInNothing(s);
    } else {
      LastPartEnds(s[..|s| - 1]);
      EndsInMore(s[..|s| - 1], LastPart(s[..|s| - 1]), s[|s| - 1]);
      assert s == s[..|s| - 1] + [s[|s| - 1]];
    }
  }

  lemma EndsInNothing(s: string)
    requires s == [] || s[|s| - 1] == '.' || s[|s| - 1] == '/'
    ensures EndsIn(s, [])
  {
  }

  lemma EndsInMore(s: string, part: string, c: char)
    requires EndsIn(s, part) && c != '.' && c != '/'
    ensures EndsIn(s + [c], part + [c])
  {
    assert (s + [c])[|s| - |part|..] == s[|s| - |part|..] + [c];
  }

  function Digit(d: nat): char
    requires d < 10
  {
    '0' + d as char
  }

  function Decimal(n: nat): (r: string)
    ensures r != []
  {
    if n < 10 then [Digit(n)] else Decimal(n / 10) + [Digit(n % 10)]
  }

  lemma {:induction false} DecimalInjective(m: nat, n: nat)
    requires Decimal(m) == Decimal(n)
    ensures m == n
  {
    var a, b := Decimal(m), Decimal(n);
    assert a[|a| - 1] == b[|b| - 1] && a[..|a| - 1] == b[..|b| - 1];
    assert a[|a| - 1] == Digit(m % 10) && b[|b| - 1] == Digit(n % 10);
    if m >= 10 && n >= 10 {
      DecimalInjective(m / 10, n / 10);
    }
  }

  function Candidate(base: string, n: nat): string {
    base + "_" + Decimal(n)
  }

  lemma CandidateInjective(base: string, m: nat, n: nat)
    requires Candidate(base, m) == Candidate(base, n)
    ensures m == n
  {
    var k := |base + "_"|;
    assert Candidate(base, m)[k..] == Decimal(m) && Candidate(base, n)[k..] == Decimal(n);
    DecimalInjective(m, n);
  }

  /** The search has got to `n` because everything before it is taken. */
  ghost predicate Tried(ids: set<string>, base: string, n: nat) {
    n >= 2 && base in ids && forall k :: 2 <= k < n ==> Candidate(base, k) in ids
  }

  /** Distinct candidates that are all taken cannot outnumber the ids. */
  lemma {:induction false} TriedBound(ids: set<string>, base: string, n: nat)
    requires Tried(ids, base, n)
    ensures n - 1 <= |ids|
    decreases n
  {
    if n == 2 {
      assert ids != {};
    } else {
      var last := Candidate(base, n - 1);
      forall k | 2 <= k < n - 1 ensures Candidate(base, k) in ids - {last} {
        if Candidate(base, k) == last { CandidateInjective(base, k, n - 1); }
      }
      assert |last| > |base|;
      TriedBound(ids - {last}, base, n - 1);
    }
  }

  function FreeFrom(ids: set<string>, base: string, n: nat): (id: string)
    requires Tried(ids, base, n)
    ensures id !in ids
    decreases |ids| + 2 - n
  {
    TriedBound(ids, base, n);
    if Candidate(base, n) in ids then FreeFrom(ids, base, n + 1) else Candidate(base, n)
  }

  /** The id a new node gets when none is asked for: always found, never taken. */
  function FreeId(ids: set<string>, step: string): (id: string)
    ensures id !in ids
  {
    var base := BaseName(step);
    if base in ids then FreeFrom(ids, base, 2) else base
  }

  // ----- one operation

  /** The catalog says which ports the step has. */
  predicate Known(catalog: Option<Catalog>, step: string) {
    catalog.Some? && step in catalog.value && !catalog.value[step].dynamicPorts
  }

  function Ports(catalog: Option<Catalog>, step: string, output: bool): seq<string>
    requires Known(catalog, step)
  {
    if output then catalog.value[step].outputs else catalog.value[step].inputs
  }

  /** A step of unknown or dynamic ports has whichever port is asked for. */
  predicate Declares(catalog: Option<Catalog>, step: string, port: string, output: bool) {
    Known(catalog, step) ==> port in Ports(catalog, step, output)
  }

  /** The named port if the step has it, the step's first one if none is named. */
  function PickPort(catalog: Option<Catalog>, step: string, port: string, output: bool): (r: Option<string>)
    ensures r.Some? ==> Declares(catalog, step, r.value, output)
    ensures r.None? <==> if port != "" then !Declares(catalog, step, port, output) else Known(catalog, step) && Ports(catalog, step, output) == []
    ensures r.Some? && port != "" ==> r.value == port
    ensures r.Some? && port == "" ==>
              if Known(catalog, step) then [r.value] <= Ports(catalog, step, output) else r.value == if output then "out" else "in"
  {
    if catalog.None? || step !in catalog.value || catalog.value[step].dynamicPorts
    then Some(if port != "" then port else if output then "out" else "in")
    else
      var ports := if output then catalog.value[step].outputs else catalog.value[step].inputs;
      if ports == [] then None
      else if port == "" then Some(ports[0])
      else if port in ports then Some(port)
      else None
  }

  datatype Wire = Wire(from: string, fromPort: string, to: string, toPort: string)

  function WireOf(e: Edge): Wire {
    Wire(e.from, e.fromPort, e.to, e.toPort)
  }

  /** The edges an operation takes away. */
  predicate Hits(op: Op, e: Edge) {
    match op
    case RemoveNode(id) => e.from == id || e.to == id
    case Disconnect(from, fromPort, to, toPort) =>
      e.from == from && e.to == to && (fromPort == "" || e.fromPort == fromPort) && (toPort == "" || e.toPort == toPort)
    case _ => false
  }

  function Kept(es: seq<Edge>, op: Op): (r: seq<Edge>)
    ensures forall e :: e in r <==> e in es && !Hits(op, e)
    ensures |r| <= |es|
  {
    if es == [] then []
    else
      var k := |es| - 1;
      assert es == es[..k] + [es[k]];
      Kept(es[..k], op) + if Hits(op, es[k]) then [] else [es[k]]
  }

  function ConnectOn(catalog: Option<Catalog>, s: Edit, from: string, fromPort: string, to: string, toPort: string,
                     onError: OnError): Option<Edit>
  {
    var i, j := Find(s.nodes, from), Find(s.nodes, to);
    if i < 0 || j < 0 then None
    else
      var out, inn := PickPort(catalog, s.nodes[i].step, fromPort, true), PickPort(catalog, s.nodes[j].step, toPort, false);
      if out.None? || inn.None? then None
      else
        var e := Edge(from, out.value, to, inn.value, onError);
        if exists k :: 0 <= k < |s.edges| && WireOf(s.edges[k]) == WireOf(e) then Some(s)
        else Some(s.(edges := s.edges + [e], connected := s.connected + 1))
  }

  /** A patch of parameters goes over what is there, or over nothing if it replaces it. */
  function Merged(params: map<string, string>, patch: map<string, Option<string>>, replace: bool): map<string, string> {
    map k | k in params.Keys + patch.Keys && (if k in patch then patch[k].Some? else !replace) ::
      if k in patch then patch[k].value else params[k]
  }

  function Retouched(n: Node, touch: Touch): Node {
    n.(title := if touch.title.Some? then touch.title.value else n.title,
       disabled := if touch.disabled.Some? then touch.disabled.value else n.disabled,
       params := Merged(n.params, touch.params, touch.replaceParams))
  }

  function NewNode(id: string, op: Op): Node
    requires op.AddNode?
  {
    Retouched(Node(id, op.step, "", None, false, false, map[]), op.touch)
  }

  function FlowOn(flow: Flow, op: Op): Flow
    requires op.SetFlow?
  {
    Flow(if op.name.Some? then op.name.value else flow.name,
         if op.description.Some? then op.description.value else flow.description,
         if op.triggers.Some? then op.triggers.value else flow.triggers)
  }

  function AddOn(catalog: Option<Catalog>, s: Edit, op: Op): Option<Edit>
    requires op.AddNode?
  {
    if op.step == "" || (catalog.Some? && op.step !in catalog.value) then None
    else if op.node != "" && (!ValidId(op.node) || Find(s.nodes, op.node) >= 0) then None
    else
      var id := if op.node == "" then FreeId(Ids(s.nodes), op.step) else op.node;
      var s' := s.(nodes := s.nodes + [NewNode(id, op)], added := s.added + [id]);
      if op.after == "" then Some(s') else ConnectOn(catalog, s', op.after, "", id, "", Unset)
  }

  function ApplyOn(catalog: Option<Catalog>, s: Edit, op: Op): Option<Edit> {
    match op
    case AddNode(_, _, _, _) => AddOn(catalog, s, op)
    case UpdateNode(id, touch) =>
      var i := Find(s.nodes, id);
      if i < 0 then None
      else Some(s.(nodes := s.nodes[i := Retouched(s.nodes[i], touch)], updated := s.updated + {id}))
    case RemoveNode(id) =>
      var i := Find(s.nodes, id);
      if i < 0 then None
      else
        var kept := Kept(s.edges, op);
        Some(s.(nodes := s.nodes[..i] + s.nodes[i + 1..], edges := kept, updated := s.updated - {id},
                removed := s.removed + [id], disconnected := s.disconnected + (|s.edges| - |kept|)))
    case Connect(from, fromPort, to, toPort, onError) => ConnectOn(catalog, s, from, fromPort, to, toPort, onError)
    case Disconnect(_, _, _, _) =>
      var kept := Kept(s.edges, op);
      if |kept| == |s.edges| then None
      else Some(s.(edges := kept, disconnected := s.disconnected + (|s.edges| - |kept|)))
    case SetFlow(_, _, _) => Some(s.(flow := FlowOn(s.flow, op), flowChanged := true))
    case Unknown => None
  }

  /** A batch applies in order and all or nothing. */
  function ApplyAll(catalog: Option<Catalog>, s: Edit, ops: seq<Op>): Option<Edit> {
    if ops == [] then Some(s)
    else
      var s' := ApplyAll(catalog, s, ops[..|ops| - 1]);
      if s'.None? then None else ApplyOn(catalog, s'.value, ops[|ops| - 1])
  }

  // ----- what every operation keeps

  ghost predicate DistinctWires(es: seq<Edge>) {
    forall i, j :: 0 <= i < j < |es| ==> WireOf(es[i]) != WireOf(es[j])
  }

  /** Unique ids, no dangling edge, no wire twice. */
  ghost predicate WellFormed(nodes: seq<Node>, edges: seq<Edge>) {
    UniqueIds(nodes) && Wired(Graph(nodes, edges)) && DistinctWires(edges)
  }

  /** Nodes and edges balance with what the report says was added and taken away. */
  function NodeLedger(s: Edit): int { |s.nodes| - |s.added| + |s.removed| }
  function EdgeLedger(s: Edit): int { |s.edges| - s.connected + s.disconnected }

  /** A well-formed result that balances with the report. */
  ghost predicate Accounts(s: Edit, s': Edit) {
    WellFormed(s'.nodes, s'.edges) && NodeLedger(s') == NodeLedger(s) && EdgeLedger(s') == EdgeLedger(s)
  }

  lemma {:induction false} KeptIsDistinct(es: seq<Edge>, op: Op)
    requires DistinctWires(es)
    ensures DistinctWires(Kept(es, op))
  {
    if es != [] {
      var k := |es| - 1;
      KeptIsDistinct(es[..k], op);
      var kept := Kept(es[..k], op);
      forall i | 0 <= i < |kept| ensures WireOf(kept[i]) != WireOf(es[k]) {
        assert kept[i] in es[..k];
      }
    }
  }

  lemma IdsAppend(nodes: seq<Node>, n: Node)
    ensures Ids(nodes + [n]) == Ids(nodes) + {n.id}
  {
    assert (nodes + [n])[|nodes|] == n;
    forall i | 0 <= i < |nodes| ensures nodes[i].id in Ids(nodes + [n]) { assert (nodes + [n])[i] == nodes[i]; }
  }

  lemma ConnectKeeps(catalog: Option<Catalog>, s: Edit, from: string, fromPort: string, to: string, toPort: string, onError: OnError)
    requires WellFormed(s.nodes, s.edges)
    ensures var r := ConnectOn(catalog, s, from, fromPort, to, toPort, onError);
            r.Some? ==> Accounts(s, r.value)
  {
  }

  lemma AppendKeeps(nodes: seq<Node>, edges: seq<Edge>, n: Node)
    requires WellFormed(nodes, edges) && n.id !in Ids(nodes)
    ensures WellFormed(nodes + [n], edges)
  {
    IdsAppend(nodes, n);
  }

  lemma AddKeeps(catalog: Option<Catalog>, s: Edit, op: Op)
    requires op.AddNode? && WellFormed(s.nodes, s.edges)
    ensures var r := AddOn(catalog, s, op);
            r.Some? ==> Accounts(s, r.value)
  {
    hide WellFormed, ConnectOn, FreeId;
    if AddOn(catalog, s, op).Some? {
      var id := if op.node == "" then FreeId(Ids(s.nodes), op.step) else op.node;
      var s' := s.(nodes := s.nodes + [NewNode(id, op)], added := s.added + [id]);
      AppendKeeps(s.nodes, s.edges, NewNode(id, op));
      if op.after != "" { ConnectKeeps(catalog, s', op.after, "", id, "", Unset); }
    }
  }

  lemma WithoutNode(nodes: seq<Node>, i: nat)
    requires UniqueIds(nodes) && i < |nodes|
    ensures var nodes' := nodes[..i] + nodes[i + 1..];
            UniqueIds(nodes') && Ids(nodes') == Ids(nodes) - {nodes[i].id}
  {
    var nodes' := nodes[..i] + nodes[i + 1..];
    assert forall k :: 0 <= k < i ==> nodes'[k] == nodes[k];
    assert forall k :: i <= k < |nodes'| ==> nodes'[k] == nodes[k + 1];
    forall x | x in Ids(nodes) && x != nodes[i].id ensures x in Ids(nodes') {
      var k :| 0 <= k < |nodes| && nodes[k].id == x;
      assert nodes'[if k < i then k else k - 1].id == x;
    }
  }

  lemma RemoveKeeps(nodes: seq<Node>, edges: seq<Edge>, id: string)
    requires WellFormed(nodes, edges) && Find(nodes, id) >= 0
    ensures var i := Find(nodes, id);
            WellFormed(nodes[..i] + nodes[i + 1..], Kept(edges, RemoveNode(id)))
  {
    hide Ids, UniqueIds, Kept, Find;
    WithoutNode(nodes, Find(nodes, id));
    KeptIsDistinct(edges, RemoveNode(id));
  }

  lemma UpdateKeeps(nodes: seq<Node>, edges: seq<Edge>, i: nat, n: Node)
    requires WellFormed(nodes, edges) && i < |nodes| && n.id == nodes[i].id
    ensures WellFormed(nodes[i := n], edges)
  {
    assert Ids(nodes[i := n]) == Ids(nodes) by {
      forall k | 0 <= k < |nodes| ensures nodes[i := n][k].id == nodes[k].id { }
    }
  }

  lemma UpdateAccounts(catalog: Option<Catalog>, s: Edit, op: Op)
    requires WellFormed(s.nodes, s.edges) && op.UpdateNode? && ApplyOn(catalog, s, op).Some?
    ensures Accounts(s, ApplyOn(catalog, s, op).value)
  {
    hide WellFormed, Find;
    var i := Find(s.nodes, op.node);
    UpdateKeeps(s.nodes, s.edges, i, Retouched(s.nodes[i], op.touch));
  }

  lemma RemoveAccounts(catalog: Option<Catalog>, s: Edit, op: Op)
    requires WellFormed(s.nodes, s.edges) && op.RemoveNode? && ApplyOn(catalog, s, op).Some?
    ensures Accounts(s, ApplyOn(catalog, s, op).value)
  {
    hide WellFormed, Find, Kept;
    RemoveKeeps(s.nodes, s.edges, op.node);
  }

  lemma DisconnectAccounts(catalog: Option<Catalog>, s: Edit, op: Op)
    requires WellFormed(s.nodes, s.edges) && op.Disconnect? && ApplyOn(catalog, s, op).Some?
    ensures Accounts(s, ApplyOn(catalog, s, op).value)
  {
    hide WellFormed, Find, Kept;
    DisconnectKeeps(s.nodes, s.edges, op);
  }

  /** Any operation that succeeds on a well-formed graph leaves one, and the report accounts for the change. */
  lemma OpKeepsWellFormed(catalog: Option<Catalog>, s: Edit, op: Op)
    requires WellFormed(s.nodes, s.edges) && ApplyOn(catalog, s, op).Some?
    ensures Accounts(s, ApplyOn(catalog, s, op).value)
  {
    hide WellFormed, ConnectOn, AddOn, Find, Kept;
    match op
    case AddNode(_, _, _, _) => AddKeeps(catalog, s, op);
    case UpdateNode(id, touch) => UpdateAccounts(catalog, s, op);
    case RemoveNode(id) => RemoveAccounts(catalog, s, op);
    case Connect(from, fromPort, to, toPort, onError) => ConnectKeeps(catalog, s, from, fromPort, to, toPort, onError);
    case Disconnect(_, _, _, _) => DisconnectAccounts(catalog, s, op);
    case SetFlow(_, _, _) =>
  }

  lemma DisconnectKeeps(nodes: seq<Node>, edges: seq<Edge>, op: Op)
    requires WellFormed(nodes, edges) && op.Disconnect?
    ensures WellFormed(nodes, Kept(edges, op))
  {
    KeptIsDistinct(edges, op);
  }

  lemma {:induction false} BatchKeepsWellFormed(catalog: Option<Catalog>, s: Edit, ops: seq<Op>)
    requires WellFormed(s.nodes, s.edges)
    ensures var r := ApplyAll(catalog, s, ops);
            r.Some? ==> Accounts(s, r.value)
  {
    hide WellFormed, ApplyOn;
    if ops != [] && ApplyAll(catalog, s, ops).Some? {
      BatchKeepsWellFormed(catalog, s, ops[..|ops| - 1]);
      OpKeepsWellFormed(catalog, ApplyAll(catalog, s, ops[..|ops| - 1]).value, ops[|ops| - 1]);
    }
  }

  // ----- the editor

  method NodeIndex(nodes: seq<Node>, id: string) returns (i: int)
    ensures i == Find(nodes, id)
  {
    i := 0;
    while i < |nodes|
      invariant 0 <= i <= |nodes|
      invariant forall j :: 0 <= j < i ==> nodes[j].id != id
    {
      if nodes[i].id == id { return; }
      i := i + 1;
    }
    i := -1;
  }

  method FreeNodeID(nodes: seq<Node>, step: string) returns (id: string)
    ensures id == FreeId(Ids(nodes), step) && id !in Ids(nodes)
  {
    var base := BaseName(step);
    ghost var ids := Ids(nodes);
    id := base;
    var n := 2;
    var i := NodeIndex(nodes, id);
    while i >= 0
      invariant i == Find(nodes, id) && n >= 2
      invariant if n == 2 then id == base else Tried(ids, base, n - 1) && id == Candidate(base, n - 1)
      invariant i < 0 ==> id == FreeId(ids, step)
      invariant i >= 0 && n > 2 ==> FreeId(ids, step) == FreeFrom(ids, base, n - 1)
      decreases |ids| + 3 - n, i
    {
      if n > 2 { TriedBound(ids, base, n - 1); }
      assert Tried(ids, base, n);
      TriedBound(ids, base, n);
      id := Candidate(base, n);
      n := n + 1;
      i := NodeIndex(nodes, id);
    }
  }

  /** Parameters one by one, then the caption and the switch. */
  method Retouch(n: Node, touch: Touch) returns (n': Node)
    ensures n' == Retouched(n, touch)
  {
    var params := if touch.replaceParams then map[] else n.params;
    ghost var start := params;
    var left := touch.params.Keys;
    while left != {}
      invariant left <= touch.params.Keys
      invariant forall k :: k in params <==> if k in touch.params && k !in left then touch.params[k].Some? else k in start
      invariant forall k :: k in params ==> params[k] == if k in touch.params && k !in left then touch.params[k].value else start[k]
    {
      var k :| k in left;
      left := left - {k};
      params := if touch.params[k].None? then params - {k} else params[k := touch.params[k].value];
    }
    assert params == Merged(n.params, touch.params, touch.replaceParams);
    n' := n.(params := params);
    if touch.title.Some? { n' := n'.(title := touch.title.value); }
    if touch.disabled.Some? { n' := n'.(disabled := touch.disabled.value); }
  }

  class Editor {
    var nodes: seq<Node>
    var edges: seq<Edge>
    var flow: Flow
    var added: seq<string>
    var removed: seq<string>
    var updated: set<string>
    var connected: nat
    var disconnected: nat
    var flowChanged: bool

    ghost function View(): Edit
      reads this
    {
      Edit(nodes, edges, flow, added, removed, updated, connected, disconnected, flowChanged)
    }

    constructor (g: Graph, flow: Flow)
      ensures View() == Edit(g.nodes, g.edges, flow, [], [], {}, 0, 0, false)
    {
      nodes, edges, this.flow := g.nodes, g.edges, flow;
      added, removed, updated, connected, disconnected, flowChanged := [], [], {}, 0, 0, false;
    }

    method Connect(catalog: Option<Catalog>, from: string, fromPort: string, to: string, toPort: string, onError: OnError)
      returns (ok: bool)
      modifies this
      ensures ok == ConnectOn(catalog, old(View()), from, fromPort, to, toPort, onError).Some?
      ensures ok ==> View() == ConnectOn(catalog, old(View()), from, fromPort, to, toPort, onError).value
    {
      var i := NodeIndex(nodes, from);
      if i < 0 { return false; }
      var j := NodeIndex(nodes, to);
      if j < 0 { return false; }
      var out := PickPort(catalog, nodes[i].step, fromPort, true);
      if out.None? { return false; }
      var inn := PickPort(catalog, nodes[j].step, toPort, false);
      if inn.None? { return false; }
      var e := Edge(from, out.value, to, inn.value, onError);
      for k := 0 to |edges|
        invariant forall m :: 0 <= m < k ==> WireOf(edges[m]) != WireOf(e)
        invariant View() == old(View())
      {
        if edges[k].from == from && edges[k].fromPort == out.value && edges[k].to == to && edges[k].toPort == inn.value {
          assert WireOf(edges[k]) == WireOf(e);
          return true;
        }
      }
      edges, connected := edges + [e], connected + 1;
      return true;
    }

    method Add(catalog: Option<Catalog>, op: Op) returns (ok: bool)
      requires op.AddNode?
      modifies this
      ensures ok == AddOn(catalog, old(View()), op).Some?
      ensures ok ==> View() == AddOn(catalog, old(View()), op).value
    {
      if op.step == "" { return false; }
      if catalog.Some? && op.step !in catalog.value { return false; }
      var id := op.node;
      if id == "" {
        id := FreeNodeID(nodes, op.step);
      } else if !ValidId(id) {
        return false;
      } else {
        var taken := NodeIndex(nodes, id);
        if taken >= 0 { return false; }
      }
      var n := Retouch(Node(id, op.step, "", None, false, false, map[]), op.touch);
      nodes, added := nodes + [n], added + [id];
      ok := true;
      if op.after != "" { ok := Connect(catalog, op.after, "", id, "", Unset); }
    }

    /** Drops the edges the operation hits, and counts them. */
    method DropEdges(op: Op) returns (n: nat)
      modifies this`edges
      ensures edges == Kept(old(edges), op) && n == |old(edges)| - |edges|
    {
      hide Kept;
      var kept := [];
      n := 0;
      KeptStart(edges, op);
      for k := 0 to |edges|
        invariant edges == old(edges)
        invariant kept == Kept(edges[..k], op) && n == k - |kept|
      {
        KeptStep(edges, k, op);
        if Hits(op, edges[k]) { n := n + 1; } else { kept := kept + [edges[k]]; }
      }
      assert edges[..|edges|] == edges;
      edges := kept;
    }

    method Update(catalog: Option<Catalog>, op: Op) returns (ok: bool)
      requires op.UpdateNode?
      modifies this
      ensures ok == ApplyOn(catalog, old(View()), op).Some?
      ensures ok ==> View() == ApplyOn(catalog, old(View()), op).value
    {
      hide Find;
      var i := NodeIndex(nodes, op.node);
      if i < 0 { return false; }
      var n := Retouch(nodes[i], op.touch);
      nodes := nodes[i := n];
      updated := updated + {op.node};
      return true;
    }

    method Remove(catalog: Option<Catalog>, op: Op) returns (ok: bool)
      requires op.RemoveNode?
      modifies this
      ensures ok == ApplyOn(catalog, old(View()), op).Some?
      ensures ok ==> View() == ApplyOn(catalog, old(View()), op).value
    {
      hide Find, Kept;
      var i := NodeIndex(nodes, op.node);
      if i < 0 { return false; }
      nodes := nodes[..i] + nodes[i + 1..];
      var n := DropEdges(op);
      disconnected := disconnected + n;
      updated := updated - {op.node};
      removed := removed + [op.node];
      return true;
    }

    method Cut(catalog: Option<Catalog>, op: Op) returns (ok: bool)
      requires op.Disconnect?
      modifies this
      ensures ok == ApplyOn(catalog, old(View()), op).Some?
      ensures ok ==> View() == ApplyOn(catalog, old(View()), op).value
    {
      hide Find, Kept;
      var n := DropEdges(op);
      if n == 0 { return false; }
      disconnected := disconnected + n;
      return true;
    }

    method Apply(catalog: Option<Catalog>, op: Op) returns (ok: bool)
      modifies this
      ensures ok == ApplyOn(catalog, old(View()), op).Some?
      ensures ok ==> View() == ApplyOn(catalog, old(View()), op).value
    {
      hide AddOn, ConnectOn, Kept, Find, Retouched;
      match op
      case AddNode(_, _, _, _) => ok := Add(catalog, op);
      case UpdateNode(_, _) => ok := Update(catalog, op);
      case RemoveNode(_) => ok := Remove(catalog, op);
      case Connect(from, fromPort, to, toPort, onError) => ok := Connect(catalog, from, fromPort, to, toPort, onError);
      case Disconnect(_, _, _, _) => ok := Cut(catalog, op);
      case SetFlow(name, description, triggers) =>
        if name.Some? { flow := flow.(name := name.value); }
        if description.Some? { flow := flow.(description := description.value); }
        if triggers.Some? { flow := flow.(triggers := triggers.value); }
        flowChanged := true;
        ok := true;
      case Unknown => ok := false;
    }
  }

  lemma KeptStart(es: seq<Edge>, op: Op)
    ensures Kept(es[..0], op) == []
  {
  }

  lemma KeptStep(es: seq<Edge>, k: nat, op: Op)
    requires k < |es|
    ensures Kept(es[..k + 1], op) == Kept(es[..k], op) + if Hits(op, es[k]) then [] else [es[k]]
  {
    assert es[..k + 1][..k] == es[..k];
  }
}
