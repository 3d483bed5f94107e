/**
  What the dispatcher decides: how one edge reads its predecessor's record, what
  becomes of a dependent, whether a failure fails the run, and when a run is over.
 */
module Decisions {
  import opened Graphs

  datatype Status = Queued | Running | Succeeded | Failed | Cancelled | Skipped | Awaiting

  predicate IsTerminal(s: Status) {
    s.Succeeded? || s.Failed? || s.Cancelled? || s.Skipped?
  }

  /** A node record: its status and the ports its result carries (`None`: no output at all). */
  datatype Record = Record(status: Status, output: Option<set<string>>)

  type Records = map<string, Record>

  const QUEUED := Record(Queued, None)
  const SKIPPED := Record(Skipped, None)

  const PASS_PORT := "pass"

  datatype EdgeOutcome = Active | Dormant | NotRouted | Blocking

  predicate Emits(r: Record, port: string) {
    r.output.Some? && port in r.output.value
  }

  function ClassifyEdge(r: Record, e: Edge): EdgeOutcome {
    match r.status
    case Succeeded =>
      if e.onError.Fallback? then Dormant
      else if e.fromPort == PASS_PORT then Active
      else if Emits(r, e.fromPort) then Active
      else NotRouted
    case Failed =>
      if e.onError.Skip? || e.onError.Fallback? then Active else Blocking
    case Skipped =>
      if e.onError.Skip? then Active
      else if e.onError.Fallback? then Dormant
      else Blocking
    case Awaiting =>
      if e.fromPort == PASS_PORT then Blocking
      else if Emits(r, e.fromPort) then Active
      else Blocking
    case _ => Blocking
  }

  datatype Decision = DepWaiting | DepEnqueue | DepSkipped

  /** The predecessor has not said yet what happens on this edge. */
  predicate Open(recs: Records, e: Edge) {
    || e.from !in recs
    || (var r := recs[e.from];
        if r.status.Awaiting? then ClassifyEdge(r, e).Blocking? else !IsTerminal(r.status))
  }

  /** The edge forbids the dependent to run. */
  predicate Refuses(r: Record, e: Edge) {
    ClassifyEdge(r, e).Blocking? || ClassifyEdge(r, e).NotRouted?
  }

  /** What becomes of a dependent with incoming edges `inc`, whatever their order. */
  function Decide(recs: Records, inc: seq<Edge>): Decision {
    if exists e :: e in inc && Open(recs, e) then DepWaiting
    else if exists e :: e in inc && Refuses(recs[e.from], e) then DepSkipped
    else if exists e :: e in inc && ClassifyEdge(recs[e.from], e).Active? then DepEnqueue
    else DepSkipped
  }

  function DecideNode(g: Graph, recs: Records, d: string): Decision {
    Decide(recs, Incoming(g.edges, d))
  }

  /** A failure of `id` fails the whole run. */
  predicate FailurePropagates(g: Graph, id: string) {
    && !(exists n :: n in g.nodes && n.id == id && n.continueOnError)
    && !(exists e :: e in g.edges && e.from == id && e.onError.Fallback?)
    && ((exists e :: e in g.edges && e.from == id) ==>
          exists e :: e in g.edges && e.from == id && !e.onError.Skip?)
  }

  /** What a flow asks for: the node may fail, or a fallback takes over, or every edge out of it is a skip edge. */
  ghost predicate Tolerated(g: Graph, id: string) {
    || (exists n :: n in g.nodes && n.id == id && n.continueOnError)
    || (exists e :: e in g.edges && e.from == id && e.onError == Fallback)
    || ((exists e :: e in g.edges && e.from == id) && forall e :: e in g.edges && e.from == id ==> e.onError == Skip)
  }

  /** And what it forbids: a node that must not fail, without a fallback, that ends the flow or has an edge that tolerates nothing. */
  ghost predicate Fatal(g: Graph, id: string) {
    && (forall n :: n in g.nodes && n.id == id ==> !n.continueOnError)
    && (forall e :: e in g.edges && e.from == id ==> e.onError != Fallback)
    && ((forall e :: e in g.edges ==> e.from != id) ||
        exists e :: e in g.edges && e.from == id && (e.onError == Unset || e.onError == Abort || e.onError == Retry))
  }

  lemma FatalOrTolerated(g: Graph, id: string)
    ensures FailurePropagates(g, id) <==> Fatal(g, id)
    ensures FailurePropagates(g, id) <==> !Tolerated(g, id)
  {
  }

  /** The scan over nodes and outgoing edges that decides it. */
  method ScanFailurePropagates(g: Graph, id: string) returns (p: bool)
    requires UniqueIds(g.nodes)
    ensures p == FailurePropagates(g, id)
    ensures p <==> Fatal(g, id)
    ensures !p <==> Tolerated(g, id)
  {
    var i := 0;
    while i < |g.nodes| && g.nodes[i].id != id
      invariant 0 <= i <= |g.nodes|
      invariant forall k :: 0 <= k < i ==> g.nodes[k].id != id
    {
      i := i + 1;
    }
    if i < |g.nodes| && g.nodes[i].continueOnError {
      assert g.nodes[i] in g.nodes;
      FatalOrTolerated(g, id);
      return false;
    }
    var hasOutgoing, hasFallback, hasNonTolerant := false, false, false;
    for k := 0 to |g.edges|
      invariant hasOutgoing <==> exists e :: e in g.edges[..k] && e.from == id
      invariant hasFallback <==> exists e :: e in g.edges[..k] && e.from == id && e.onError.Fallback?
      invariant hasNonTolerant <==>
                exists e :: e in g.edges[..k] && e.from == id && !e.onError.Fallback? && !e.onError.Skip?
    {
      var e := g.edges[k];
      assert g.edges[..k + 1] == g.edges[..k] + [e];
      if e.from == id {
        hasOutgoing := true;
        match e.onError
        case Fallback => hasFallback := true;
        case Skip =>
        case _ => hasNonTolerant := true;
      }
    }
    assert g.edges[..|g.edges|] == g.edges;
    FatalOrTolerated(g, id);
    if !hasOutgoing { return true; }
    if hasFallback { return false; }
    return hasNonTolerant;
  }

  predicate Advances(g: Graph, id: string, s: Status) {
    s.Succeeded? || s.Awaiting? || (s.Failed? && !FailurePropagates(g, id))
  }

  predicate PropagatingFailure(g: Graph, recs: Records, id: string) {
    id in recs && recs[id].status.Failed? && FailurePropagates(g, id)
  }

  /** What a completion check over `nodes` concludes; `None` is "not finished". */
  function Verdict(g: Graph, nodes: seq<Node>, recs: Records): (v: Option<Status>)
    ensures v.Some? ==> v.value.Succeeded? || v.value.Failed?
    ensures v == Some(Failed) ==> exists n :: n in nodes && PropagatingFailure(g, recs, n.id)
    ensures v == Some(Succeeded) <==>
            forall n :: n in nodes ==> n.id in recs && IsTerminal(recs[n.id].status) &&
                                       !PropagatingFailure(g, recs, n.id)
  {
    if nodes == [] then Some(Succeeded)
    else
      var n := nodes[0];
      assert nodes == [n] + nodes[1..];
      if n.id !in recs || !IsTerminal(recs[n.id].status) then None
      else if PropagatingFailure(g, recs, n.id) then Some(Failed)
      else Verdict(g, nodes[1..], recs)
  }

  function RunVerdict(g: Graph, recs: Records): Option<Status> {
    Verdict(g, g.nodes, recs)
  }

  /** Records only appear, and a terminal record never changes. */
  ghost predicate Grows(r: Records, r': Records) {
    forall x :: x in r ==> x in r' && (IsTerminal(r[x].status) ==> r'[x] == r[x])
  }

  ghost predicate NoParking(recs: Records) {
    forall x :: x in recs ==> !recs[x].status.Awaiting?
  }

  /** What an edge asks of its predecessor, policy by policy; a parked one serves only the data ports it has emitted on. */
  predicate Delivers(r: Record, e: Edge) {
    if r.status.Awaiting? then e.fromPort != "pass" && Emits(r, e.fromPort)
    else match e.onError
         case Fallback => r.status.Failed?
         case Skip => r.status.Failed? || r.status.Skipped? || (r.status.Succeeded? && (e.fromPort == "pass" || Emits(r, e.fromPort)))
         case _ => r.status.Succeeded? && (e.fromPort == "pass" || Emits(r, e.fromPort))
  }

  /** Only a fallback that was not needed neither delivers nor objects. */
  predicate Spared(r: Record, e: Edge) {
    e.onError.Fallback? && (r.status.Succeeded? || r.status.Skipped?)
  }

  /** The predecessor has not started, is not finished, or is parked and keeps this port for its decision. */
  predicate Undecided(recs: Records, e: Edge) {
    e.from in recs ==>
      var r := recs[e.from];
      r.status.Queued? || r.status.Running? || (r.status.Awaiting? && !Delivers(r, e))
  }

  /**
    Whatever its predecessors are doing: a dependent waits exactly while some edge is undecided. After
    that it runs exactly when some edge delivers and every other edge delivers or is a fallback that
    was not needed; otherwise it is skipped.
   */
  lemma QueuedExactlyWhenDelivered(recs: Records, inc: seq<Edge>)
    ensures Decide(recs, inc).DepWaiting? <==> exists e :: e in inc && Undecided(recs, e)
    ensures Decide(recs, inc).DepEnqueue? <==>
            && (forall e :: e in inc ==> e.from in recs && (Delivers(recs[e.from], e) || Spared(recs[e.from], e)))
            && (exists e :: e in inc && e.from in recs && Delivers(recs[e.from], e))
  {
    forall e | e in inc ensures Open(recs, e) <==> Undecided(recs, e) { }
    forall e | e in inc && !Open(recs, e)
      ensures ClassifyEdge(recs[e.from], e).Active? <==> Delivers(recs[e.from], e)
      ensures Refuses(recs[e.from], e) <==> !Delivers(recs[e.from], e) && !Spared(recs[e.from], e)
    {
    }
    hide ClassifyEdge;
    forall e | e in inc && e.from in recs && (Delivers(recs[e.from], e) || Spared(recs[e.from], e)) ensures !Undecided(recs, e) { }
  }

  /** The edges into `d` call for it: some delivers, and each of the others delivers or was not needed. */
  ghost predicate LiveInto(g: Graph, recs: Records, d: string) {
    && (forall e :: e in g.edges && e.to == d ==> e.from in recs && (Delivers(recs[e.from], e) || Spared(recs[e.from], e)))
    && (exists e :: e in g.edges && e.to == d && e.from in recs && Delivers(recs[e.from], e))
  }

  ghost predicate UndecidedInto(g: Graph, recs: Records, d: string) {
    exists e :: e in g.edges && e.to == d && Undecided(recs, e)
  }

  lemma EnqueuedExactlyIfLive(g: Graph, recs: Records, d: string)
    ensures DecideNode(g, recs, d).DepWaiting? <==> UndecidedInto(g, recs, d)
    ensures DecideNode(g, recs, d).DepEnqueue? <==> LiveInto(g, recs, d)
  {
    hide Delivers, Spared, Decide, Undecided;
    QueuedExactlyWhenDelivered(recs, Incoming(g.edges, d));
  }

  /** A decision other than "wait" is final: nothing later can change it. */
  lemma {:induction false} DecisionIsFinal(r: Records, r': Records, inc: seq<Edge>)
    requires NoParking(r) && Grows(r, r') && !Decide(r, inc).DepWaiting?
    ensures Decide(r', inc) == Decide(r, inc)
  {
    forall e | e in inc ensures !Open(r', e) && r'[e.from] == r[e.from] {
      assert !Open(r, e);
    }
  }

  /** A completion verdict is final too. */
  lemma {:induction false} VerdictIsFinal(g: Graph, nodes: seq<Node>, r: Records, r': Records)
    requires Grows(r, r') && Verdict(g, nodes, r).Some?
    ensures Verdict(g, nodes, r') == Verdict(g, nodes, r)
  {
    if nodes != [] && !PropagatingFailure(g, r, nodes[0].id) {
      VerdictIsFinal(g, nodes[1..], r, r');
    }
  }

  /** Two stores that agree on the predecessors of `d` decide alike. */
  lemma SameEvidenceSameDecision(r: Records, r': Records, inc: seq<Edge>)
    requires forall e :: e in inc ==> (e.from in r <==> e.from in r')
    requires forall e :: e in inc && e.from in r ==> r[e.from] == r'[e.from]
    ensures Decide(r, inc) == Decide(r', inc)
  {
    forall e | e in inc ensures Open(r, e) == Open(r', e) {}
  }
}
