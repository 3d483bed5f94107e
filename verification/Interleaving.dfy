/**
  The dispatcher with every store operation a separate step: any number of workers,
  reapers and cancellers, each reading and writing one record at a time.
 */
module Interleaving {
  import opened Graphs
  import opened Decisions
  import opened RunStores

  /** What ended a run: its own records, a cancel, or the reaper giving up on it. */
  datatype Cause = OnRecords | OnCancel | OnAbandon

  datatype RunRecord = Alive | Ended(status: Status, cause: Cause)

  /** What one advance call has read: a record, or `None` for a record it did not find. */
  type Memo = map<string, Option<Record>>

  /** A dispatch loop over the dependents of `node`, about to look at the `k`-th. */
  datatype Frame = Frame(node: string, k: nat)

  datatype Work =
    | Planning(seen: Memo, k: nat, enqueue: seq<string>, revisit: bool)  // before the commit
    | Writing                                                           // about to write its record
    | Checking                                                          // written; about to read the run record
    | SkipWriting                                                       // about to record a switched-off node
    | Dispatching(memo: Memo, stack: seq<Frame>, queued: bool)
    | Flipping                                                          // a cancel about to end the run
    | Sweeping(k: nat)                                                  // a cancel about to visit the k-th node
    | Done

  /** A completion check in progress, nested in any work. */
  datatype Check = Idle | Listing | Finalizing(v: Status, cause: Cause) | Publishing(v: Status)

  /** One call in flight; `epoch` is the length of the log once its own record was written. */
  datatype Proc = Proc(node: string, outcome: Record, epoch: nat, work: Work, check: Check)

  /**
    The shared store and the calls in flight. `log` lists the nodes that a call finished, by
    executing them, switching them off or skipping them in a cascade, in the order of the writes;
    `returned` those that were finished by a call of their own which has returned.
   */
  datatype World = World(records: Records, run: RunRecord, log: seq<string>, returned: set<string>,
                         procs: map<nat, Proc>, terminals: seq<Status>)

  datatype Event =
    | Plan(pid: nat, node: string, outcome: Record)
    | Advance(pid: nat, node: string, outcome: Record)
    | SwitchOff(pid: nat, node: string)
    | Cancel(pid: nat)
    | Reap(pid: nat)
    | Abandon(pid: nat)
    | Claim(node: string)
    | Requeue(node: string)
    | Refuse(node: string)
    | Tick(pid: nat)

  // ----- one look at a dependent

  datatype Probe = Read(id: string) | Waits | Settled

  /** The next thing an analysis does: read a predecessor, give up waiting, or decide. */
  function NextProbe(memo: Memo, inc: seq<Edge>): (p: Probe)
    ensures p.Settled? ==> forall e :: e in inc ==>
              e.from in memo && memo[e.from].Some? && !Open(View(memo), e)
    ensures p.Waits? ==> exists e :: e in inc && e.from in memo && Unfinished(memo[e.from])
  {
    if inc == [] then Settled
    else if inc[0].from !in memo then Read(inc[0].from)
    else if memo[inc[0].from].None? || Open(View(memo), inc[0]) then Waits
    else
      assert inc == [inc[0]] + inc[1..];
      NextProbe(memo, inc[1..])
  }

  predicate Unfinished(rec: Option<Record>) {
    rec.None? || !IsTerminal(rec.value.status)
  }

  function View(memo: Memo): Records {
    map x | x in memo && memo[x].Some? :: memo[x].value
  }

  function Lookup(r: Records, x: string): Option<Record> {
    if x in r then Some(r[x]) else None
  }

  // ----- steps

  predicate Pending(r: Records, n: string) {
    n in r && !IsTerminal(r[n].status)
  }

  /** How a node that executed ends. */
  predicate Executed(o: Record) {
    o.status.Succeeded? || o.status.Failed?
  }

  function PlanDeps(g: Graph, p: Proc): seq<string> {
    if Advances(g, p.node, p.outcome.status) then Outgoing(g.edges, p.node) else []
  }

  /** The completion check that follows a node: blame it at once, or list the records. */
  function Conclude(g: Graph, n: string, o: Record): Check {
    if o.status.Failed? && FailurePropagates(g, n) then Finalizing(Failed, OnRecords) else Listing
  }

  function WithProc(w: World, pid: nat, p: Proc): World {
    w.(procs := w.procs[pid := p])
  }

  function TickCheck(g: Graph, w: World, pid: nat, p: Proc): World {
    match p.check
    case Idle => w
    case Listing =>
      var v := RunVerdict(g, w.records);
      WithProc(w, pid, p.(check := if v.Some? then Finalizing(v.value, OnRecords) else Idle))
    case Finalizing(v, cause) =>
      if w.run.Ended? then WithProc(w, pid, p.(check := Idle))
      else WithProc(w.(run := Ended(v, cause)), pid, p.(check := Publishing(v)))
    case Publishing(v) =>
      WithProc(w.(terminals := w.terminals + [v]), pid, p.(check := Idle))
  }

  function TickPlanning(g: Graph, w: World, pid: nat, p: Proc): World
    requires p.work.Planning?
  {
    var deps, k := PlanDeps(g, p), p.work.k;
    if k >= |deps| then Commit(g, w, pid, p)
    else
      var inc := Incoming(g.edges, deps[k]);
      match NextProbe(p.work.seen, inc)
      case Read(x) => WithProc(w, pid, p.(work := p.work.(seen := p.work.seen[x := Lookup(w.records, x)])))
      case Waits => WithProc(w, pid, p.(work := p.work.(k := k + 1, revisit := true)))
      case Settled =>
        if Decide(View(p.work.seen), inc).DepEnqueue?
        then WithProc(w, pid, p.(work := p.work.(k := k + 1, enqueue := p.work.enqueue + [deps[k]])))
        else WithProc(w, pid, p.(work := p.work.(k := k + 1, revisit := true)))
  }

  /** The one-transaction completion: the record, and its dependents unless the run is over. */
  function Commit(g: Graph, w: World, pid: nat, p: Proc): World
    requires p.work.Planning?
  {
    if !Pending(w.records, p.node) then WithProc(w, pid, p.(work := Done))
    else
      var r, log := w.records[p.node := p.outcome], w.log + [p.node];
      if w.run.Ended? then
        WithProc(w.(records := r, log := log), pid, p.(epoch := |log|, work := Done))
      else
        var r' := EnqueueAll(r, p.work.enqueue);
        var queued := r'.Keys != r.Keys;
        WithProc(w.(records := r', log := log), pid,
          if p.work.revisit
          then p.(epoch := |log|, work := Dispatching(map[p.node := Some(p.outcome)], [Frame(p.node, 0)], queued))
          else p.(epoch := |log|, work := Done,
                  check := if queued then Idle else Conclude(g, p.node, p.outcome)))
  }

  function TickWriting(g: Graph, w: World, pid: nat, p: Proc): World {
    if !Pending(w.records, p.node) then WithProc(w, pid, p.(work := Done))
    else
      var log := w.log + [p.node];
      WithProc(w.(records := w.records[p.node := p.outcome], log := log), pid,
               p.(epoch := |log|, work := if p.work.SkipWriting? then Dispatching(map[], [Frame(p.node, 0)], false)
                                          else Checking))
  }

  function TickChecking(g: Graph, w: World, pid: nat, p: Proc): World {
    if w.run.Ended? then WithProc(w, pid, p.(work := Done))
    else if Advances(g, p.node, p.outcome.status)
    then WithProc(w, pid, p.(work := Dispatching(map[], [Frame(p.node, 0)], false)))
    else WithProc(w, pid, p.(work := Done, check := Conclude(g, p.node, p.outcome)))
  }

  function Bump(stack: seq<Frame>): seq<Frame>
    requires stack != []
  {
    stack[|stack| - 1 := stack[|stack| - 1].(k := stack[|stack| - 1].k + 1)]
  }

  /** The top loop is through: leave it, and check completion unless the call queued work. */
  function TickPop(g: Graph, w: World, pid: nat, p: Proc): World
    requires p.work.Dispatching? && p.work.stack != []
  {
    if |p.work.stack| > 1
    then WithProc(w, pid, p.(work := p.work.(stack := p.work.stack[..|p.work.stack| - 1]), check := Listing))
    else WithProc(w, pid, p.(work := Done, check := if p.work.queued && p.outcome != SKIPPED then Idle
                                                   else Conclude(g, p.node, p.outcome)))
  }

  /** A decided dependent: one conditional write. */
  function TickDecided(g: Graph, w: World, pid: nat, p: Proc, d: string, decision: Decision): World
    requires p.work.Dispatching? && p.work.stack != []
  {
    var moved := Bump(p.work.stack);
    if d in w.records then WithProc(w, pid, p.(work := p.work.(stack := moved)))
    else if decision.DepEnqueue? then
      WithProc(w.(records := w.records[d := QUEUED]), pid,
               p.(work := p.work.(stack := moved, queued := p.work.queued || |moved| == 1)))
    else
      WithProc(w.(records := w.records[d := SKIPPED], log := w.log + [d]), pid,
               p.(work := p.work.(memo := p.work.memo[d := Some(SKIPPED)], stack := moved + [Frame(d, 0)])))
  }

  function TickDispatching(g: Graph, w: World, pid: nat, p: Proc): World
    requires p.work.Dispatching?
  {
    var stack, memo := p.work.stack, p.work.memo;
    if stack == [] then WithProc(w, pid, p.(work := Done))
    else
      var top := stack[|stack| - 1];
      var deps := Outgoing(g.edges, top.node);
      if top.k >= |deps| then TickPop(g, w, pid, p)
      else
        var inc := Incoming(g.edges, deps[top.k]);
        match NextProbe(memo, inc)
        case Read(x) => WithProc(w, pid, p.(work := p.work.(memo := memo[x := Lookup(w.records, x)])))
        case Waits => WithProc(w, pid, p.(work := p.work.(stack := Bump(stack))))
        case Settled => TickDecided(g, w, pid, p, deps[top.k], Decide(View(memo), inc))
  }

  function TickFlipping(w: World, pid: nat, p: Proc): World {
    if w.run.Ended? then WithProc(w, pid, p.(work := Done))
    else WithProc(w.(run := Ended(Cancelled, OnCancel)), pid, p.(work := Sweeping(0)))
  }

  const CANCELLED := Record(Cancelled, None)

  function TickSweeping(g: Graph, w: World, pid: nat, p: Proc): World
    requires p.work.Sweeping?
  {
    var k := p.work.k;
    if k >= |g.nodes| then WithProc(w, pid, p.(work := Done, check := Publishing(Cancelled)))
    else
      var n := g.nodes[k].id;
      WithProc(if Pending(w.records, n) then w.(records := w.records[n := CANCELLED]) else w,
               pid, p.(work := Sweeping(k + 1)))
  }

  /** A finished call returns; if it wrote its node's record, that node's advance is over. */
  function Return(w: World, pid: nat, p: Proc): World {
    w.(procs := w.procs - {pid}, returned := if p.epoch > 0 then w.returned + {p.node} else w.returned)
  }

  function TickWork(g: Graph, w: World, pid: nat, p: Proc): World {
    match p.work
    case Planning(_, _, _, _) => TickPlanning(g, w, pid, p)
    case Writing => TickWriting(g, w, pid, p)
    case SkipWriting => TickWriting(g, w, pid, p)
    case Checking => TickChecking(g, w, pid, p)
    case Dispatching(_, _, _) => TickDispatching(g, w, pid, p)
    case Flipping => TickFlipping(w, pid, p)
    case Sweeping(_) => TickSweeping(g, w, pid, p)
    case Done => Return(w, pid, p)
  }

  predicate Enabled(g: Graph, w: World, ev: Event) {
    match ev
    case Plan(pid, n, o) => pid !in w.procs && n in Ids(g.nodes) && Executed(o)
    case Advance(pid, n, o) => pid !in w.procs && n in Ids(g.nodes) && Executed(o)
    case SwitchOff(pid, n) => pid !in w.procs && n in Ids(g.nodes) && w.run.Alive?
    case Cancel(pid) => pid !in w.procs
    case Reap(pid) => pid !in w.procs
    case Abandon(pid) => pid !in w.procs && w.run.Alive? && forall n :: n in w.records ==> IsTerminal(w.records[n].status)
    case Claim(n) => n in w.records && w.records[n] == QUEUED
    case Requeue(n) => n in w.records && w.records[n] == Record(Running, None)
    case Refuse(n) => w.run.Ended? && Pending(w.records, n)
    case Tick(pid) => pid in w.procs
  }

  function Apply(g: Graph, w: World, ev: Event): World
    requires Enabled(g, w, ev)
  {
    match ev
    case Plan(pid, n, o) => WithProc(w, pid, Proc(n, o, 0, Planning(map[n := Some(o)], 0, [], false), Idle))
    case Advance(pid, n, o) => WithProc(w, pid, Proc(n, o, 0, Writing, Idle))
    case SwitchOff(pid, n) => WithProc(w, pid, Proc(n, SKIPPED, 0, SkipWriting, Idle))
    case Cancel(pid) => WithProc(w, pid, Proc("", SKIPPED, 0, Flipping, Idle))
    case Reap(pid) => WithProc(w, pid, Proc("", SKIPPED, 0, Done, Listing))
    case Abandon(pid) => WithProc(w, pid, Proc("", SKIPPED, 0, Done, Finalizing(Failed, OnAbandon)))
    case Claim(n) => w.(records := w.records[n := Record(Running, None)])
    case Requeue(n) => w.(records := w.records[n := QUEUED])
    case Refuse(n) => w.(records := w.records[n := CANCELLED])
    case Tick(pid) =>
      var p := w.procs[pid];
      if p.check.Idle? then TickWork(g, w, pid, p) else TickCheck(g, w, pid, p)
  }

  ghost predicate Next(g: Graph, w: World, w': World) {
    exists ev :: Enabled(g, w, ev) && w' == Apply(g, w, ev)
  }

  ghost predicate Init(g: Graph, w: World) {
    && w.run == Alive && w.log == [] && w.returned == {} && w.procs == map[] && w.terminals == []
    && (forall d :: d in w.records <==> IsSource(g, d))
    && (forall d :: d in w.records ==> w.records[d] == QUEUED)
  }

  /** A stretch of an execution. */
  ghost predicate IsTrace(g: Graph, tr: seq<World>) {
    tr != [] && forall i, j :: 0 <= i < j < |tr| && j == i + 1 ==> Next(g, tr[i], tr[j])
  }

  ghost predicate IsExecution(g: Graph, tr: seq<World>) {
    IsTrace(g, tr) && Init(g, tr[0])
  }
}
