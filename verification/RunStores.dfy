/**
  The job store as one run sees it: its node records, its run record, and the
  Terminal events published for it. Every method is one atomic store operation.
 */
module RunStores {
  import opened Decisions

  datatype RunState = RunState(records: Records, status: Status, terminals: seq<Status>)

  /** Queue each of `deps` that has no record yet. */
  function EnqueueAll(r: Records, deps: seq<string>): (r': Records)
    ensures forall x :: x in r ==> x in r' && r'[x] == r[x]
    ensures forall x :: x in r' && x !in r ==> x in deps && r'[x] == QUEUED
    ensures forall x :: x in deps ==> x in r'
  {
    if deps == [] then r else
    var r1 := EnqueueAll(r, deps[..|deps| - 1]);
    var last := deps[|deps| - 1];
    assert deps == deps[..|deps| - 1] + [last];
    if last in r1 then r1 else r1[last := QUEUED]
  }

  lemma SameSize(r: Records, id: string, rec: Record)
    requires id in r
    ensures |r[id := rec]| == |r|
  {
    assert r[id := rec].Keys == r.Keys;
    assert |r[id := rec]| == |r[id := rec].Keys| && |r| == |r.Keys|;
  }

  lemma OneMore(r: Records, id: string, rec: Record)
    requires id !in r
    ensures |r[id := rec]| == |r| + 1
  {
    assert r[id := rec].Keys == r.Keys + {id};
    assert |r[id := rec]| == |r[id := rec].Keys| && |r| == |r.Keys|;
  }

  class RunStore {
    var records: Records
    var status: Status
    var terminals: seq<Status>
    var workers: map<string, string>  // who has claimed a node

    constructor (records: Records)
      ensures State() == RunState(records, Running, []) && workers == map[]
    {
      this.records, this.status, this.terminals, this.workers := records, Running, [], map[];
    }

    /** A write in no worker's name, or in the name of the worker that has the node. */
    predicate Holds(id: string, worker: string)
      reads this`workers
    {
      worker == "" || (id in workers && workers[id] == worker)
    }

    /** The completion of `id` is let through: by its worker, once, and parking does not repeat. */
    predicate Accepts(id: string, worker: string, rec: Record)
      reads this`records, this`workers
    {
      && id in records && Holds(id, worker) && !IsTerminal(records[id].status)
      && (IsTerminal(rec.status) || (rec.status.Awaiting? && !records[id].status.Awaiting?))
    }

    ghost function State(): RunState
      reads this
    {
      RunState(records, status, terminals)
    }

    method Enqueue(id: string, rec: Record) returns (ok: bool)
      modifies this`records, this`workers
      ensures ok <==> id !in old(records)
      ensures records == if ok then old(records)[id := rec] else old(records)
      ensures workers == if ok then old(workers) - {id} else old(workers)
    {
      ok := id !in records;
      if ok { records, workers := records[id := rec], workers - {id}; }
    }

    /** A terminal record is never overwritten, a parked one never parks again, a worker that lost its claim writes nothing. */
    method Complete(id: string, worker: string, rec: Record) returns (ok: bool)
      modifies this`records
      ensures ok == old(Accepts(id, worker, rec))
      ensures worker != "" && !(id in workers && workers[id] == worker) ==> !ok
      ensures id in old(records) && old(records)[id].status in {Succeeded, Failed, Cancelled, Skipped} ==> !ok
      ensures records == if ok then old(records)[id := rec] else old(records)
    {
      if id !in records { return false; }
      if worker != "" && (id !in workers || workers[id] != worker) { return false; }
      if !IsTerminal(rec.status) && !rec.status.Awaiting? { return false; }
      if IsTerminal(records[id].status) { return false; }
      if rec.status.Awaiting? && records[id].status.Awaiting? { return false; }
      records := records[id := rec];
      return true;
    }

    method CompleteRun(s: Status) returns (ok: bool)
      requires IsTerminal(s)
      modifies this`status
      ensures ok <==> !IsTerminal(old(status))
      ensures status == if ok then s else old(status)
    {
      ok := !IsTerminal(status);
      if ok { status := s; }
    }

    method PublishTerminal(s: Status)
      modifies this`terminals
      ensures terminals == old(terminals) + [s]
    {
      terminals := terminals + [s];
    }

    /** Completion and released dependents in one transaction; nothing is queued on a finished run. */
    method CompleteAndEnqueue(id: string, worker: string, rec: Record, deps: seq<string>)
      returns (ok: bool, runStatus: Status, enqueued: nat)
      modifies this`records, this`workers
      ensures ok == old(Accepts(id, worker, rec))
      ensures !ok ==> records == old(records)
      ensures ok ==> records == if IsTerminal(status) then old(records)[id := rec]
                                else EnqueueAll(old(records)[id := rec], deps)
      ensures runStatus == status
      ensures enqueued > 0 <==> exists x :: x in records && x !in old(records)
      ensures enqueued == |records| - |old(records)|
    {
      runStatus, enqueued := status, 0;
      ok := Complete(id, worker, rec);
      if ok { SameSize(old(records), id, rec); }
      if !ok || IsTerminal(status) { return; }
      ghost var base := records;
      for k := 0 to |deps|
        invariant records == EnqueueAll(base, deps[..k])
        invariant status == old(status) && terminals == old(terminals)
        invariant enqueued > 0 <==> exists x :: x in records && x !in base
        invariant enqueued == |records| - |base|
      {
        assert deps[..k + 1][..k] == deps[..k];
        if deps[k] !in records { OneMore(records, deps[k], QUEUED); }
        var added := Enqueue(deps[k], QUEUED);
        if added { enqueued := enqueued + 1; assert deps[k] !in base; }
      }
      assert deps[..|deps|] == deps;
    }
  }
}
