/**
  The spooled event bus of one replica (daemon/eventbus_pg.go): the cursor, the set of ids already
  handled, and the re-scan window that lets rows become visible out of order.
 */
module EventBus {
  import opened Graphs

  const WINDOW := 256

  datatype Payload = Malformed | Event(body: string)
  datatype Row = Row(id: int, job: string, payload: Payload)

  /** The cursor, the ids handled within the window, and what has been fanned out so far. */
  datatype Bus = Bus(lastSeen: int, seen: set<int>, delivered: seq<Row>)

  function Floor(lastSeen: int): int {
    if lastSeen - WINDOW < 0 then 0 else lastSeen - WINDOW
  }

  function Prune(seen: set<int>, floor: int): set<int> {
    set x | x in seen && x > floor
  }

  function IdsOf(rows: seq<Row>): set<int> {
    set r | r in rows :: r.id
  }

  /** Ascending ids, as the query orders them. */
  predicate Ascending(rows: seq<Row>) {
    forall i, j :: 0 <= i < j < |rows| ==> rows[i].id < rows[j].id
  }

  function Unseen(rows: seq<Row>, seen: set<int>): (r: seq<Row>)
    ensures forall x :: x in r <==> x in rows && x.id !in seen
    ensures Ascending(rows) ==> Ascending(r)
  {
    if rows == [] then []
    else
      var k := |rows| - 1;
      assert rows == rows[..k] + [rows[k]];
      var rest := Unseen(rows[..k], seen);
      assert Ascending(rows) ==> forall x :: x in rest ==> x.id < rows[k].id;
      if rows[k].id in seen then rest else rest + [rows[k]]
  }

  function WellFormed(rows: seq<Row>): (r: seq<Row>)
    ensures forall x :: x in r <==> x in rows && x.payload.Event?
    ensures Ascending(rows) ==> Ascending(r)
  {
    if rows == [] then []
    else
      var k := |rows| - 1;
      assert rows == rows[..k] + [rows[k]];
      var rest := WellFormed(rows[..k]);
      assert Ascending(rows) ==> forall x :: x in rest ==> x.id < rows[k].id;
      if rows[k].payload.Malformed? then rest else rest + [rows[k]]
  }

  function MaxId(from: int, rows: seq<Row>): (m: int)
    ensures m >= from && forall r :: r in rows ==> r.id <= m
    ensures m == from || exists r :: r in rows && r.id == m
  {
    if rows == [] then from
    else
      var k := |rows| - 1;
      assert rows == rows[..k] + [rows[k]];
      var m := MaxId(from, rows[..k]);
      if rows[k].id > m then rows[k].id else m
  }

  /** A notice of a run nobody here watches only moves the cursor. */
  function SkipOn(b: Bus, id: int): Bus {
    if id <= b.lastSeen then b.(seen := b.seen + {id})
    else b.(lastSeen := id, seen := Prune(b.seen + {id}, id - WINDOW))
  }

  /** A successful drain of the rows a query answered. */
  function DrainOn(b: Bus, rows: seq<Row>): Bus {
    var batch := Unseen(rows, b.seen);
    var last := MaxId(b.lastSeen, batch);
    Bus(last, Prune(b.seen + IdsOf(batch), last - WINDOW), b.delivered + WellFormed(batch))
  }

  // ----- the listener

  class PgBus {
    var lastSeen: int
    var seen: set<int>
    var delivered: seq<Row>

    ghost function View(): Bus
      reads this
    {
      Bus(lastSeen, seen, delivered)
    }

    /** Starts behind what is already spooled: none of it is fanned out. */
    constructor (spooled: set<int>, maxId: Option<int>)
      requires maxId.None? <==> spooled == {}
      ensures lastSeen == (if maxId.Some? then maxId.value else 0) && delivered == []
      ensures seen == if maxId.Some? then Prune(spooled, maxId.value - WINDOW) else {}
    {
      delivered := [];
      if maxId.Some? {
        lastSeen := maxId.value;
        seen := set x | x in spooled && x > maxId.value - WINDOW;
      } else {
        lastSeen, seen := 0, {};
      }
    }

    method PruneSeen(floor: int)
      modifies this`seen
      ensures seen == Prune(old(seen), floor)
    {
      var left := seen;
      while left != {}
        invariant left <= old(seen)
        invariant seen == set x | x in old(seen) && (x in left || x > floor)
      {
        SomeElement(left);
        var x :| x in left;
        left := left - {x};
        if x <= floor { seen := seen - {x}; }
      }
    }

    method SkipTo(id: int)
      modifies this
      ensures View() == SkipOn(old(View()), id)
    {
      seen := seen + {id};
      if id <= lastSeen { return; }
      lastSeen := id;
      PruneSeen(lastSeen - WINDOW);
    }

    /** The rows not handled yet, and how far they move the cursor. */
    method Collect(rows: seq<Row>) returns (batch: seq<Row>, maxID: int)
      ensures batch == Unseen(rows, seen) && maxID == MaxId(lastSeen, batch)
    {
      hide Unseen, MaxId;
      batch, maxID := [], lastSeen;
      NoRows(rows, batch, lastSeen, seen);
      for i := 0 to |rows|
        invariant batch == Unseen(rows[..i], seen) && maxID == MaxId(lastSeen, batch)
      {
        UnseenStep(rows, i, seen);
        if rows[i].id in seen { continue; }
        MaxStep(lastSeen, batch, rows[i]);
        if rows[i].id > maxID { maxID := rows[i].id; }
        batch := batch + [rows[i]];
      }
      assert rows[..|rows|] == rows;
    }

    method MarkSeen(batch: seq<Row>)
      modifies this`seen
      ensures seen == old(seen) + IdsOf(batch)
    {
      for i := 0 to |batch|
        invariant seen == old(seen) + IdsOf(batch[..i])
      {
        IdsStep(batch, i);
        seen := seen + {batch[i].id};
      }
      assert batch[..|batch|] == batch;
    }

    method FanOut(batch: seq<Row>)
      modifies this`delivered
      ensures delivered == old(delivered) + WellFormed(batch)
    {
      for i := 0 to |batch|
        invariant delivered == old(delivered) + WellFormed(batch[..i])
      {
        WellFormedStep(batch, i);
        if !batch[i].payload.Malformed? { delivered := delivered + [batch[i]]; }
      }
      assert batch[..|batch|] == batch;
    }

    /** `answer` is what the query returns, or `None` if the query or reading its rows fails. */
    method DrainNew(watching: set<string>, answer: Option<seq<Row>>)
      modifies this
      ensures View() == if watching == {} || answer.None? then old(View()) else DrainOn(old(View()), answer.value)
    {
      if watching == {} { return; }
      if answer.None? { return; }
      var batch, maxID := Collect(answer.value);
      MarkSeen(batch);
      lastSeen := maxID;
      PruneSeen(lastSeen - WINDOW);
      FanOut(batch);
    }
  }

  lemma SomeElement(s: set<int>)
    ensures s == {} || exists x :: x in s
  {
    if forall x :: x !in s { assert s == {}; }
  }

  lemma NoRows(rows: seq<Row>, batch: seq<Row>, from: int, seen: set<int>)
    ensures Unseen(rows[..0], seen) == [] && MaxId(from, []) == from && IdsOf(batch[..0]) == {} && WellFormed(batch[..0]) == []
  {
  }

  lemma UnseenStep(rows: seq<Row>, i: nat, seen: set<int>)
    requires i < |rows|
    ensures Unseen(rows[..i + 1], seen) == Unseen(rows[..i], seen) + if rows[i].id in seen then [] else [rows[i]]
  {
    assert rows[..i + 1][..i] == rows[..i];
  }

  lemma MaxStep(from: int, rows: seq<Row>, r: Row)
    ensures MaxId(from, rows + [r]) == if r.id > MaxId(from, rows) then r.id else MaxId(from, rows)
  {
    assert (rows + [r])[..|rows|] == rows;
  }

  lemma IdsStep(rows: seq<Row>, i: nat)
    requires i < |rows|
    ensures IdsOf(rows[..i + 1]) == IdsOf(rows[..i]) + {rows[i].id}
  {
    assert rows[..i + 1] == rows[..i] + [rows[i]];
  }

  lemma WellFormedStep(rows: seq<Row>, i: nat)
    requires i < |rows|
    ensures WellFormed(rows[..i + 1]) == WellFormed(rows[..i]) + if rows[i].payload.Malformed? then [] else [rows[i]]
  {
    assert rows[..i + 1][..i] == rows[..i];
  }

  // ----- every run of the listener

  /** The spool: every row ever inserted, by id; which of them are visible changes in any order. */
  type Spool = map<int, Row>

  ghost predicate IsSpool(spool: Spool) {
    forall id :: id in spool ==> id >= 1 && spool[id].id == id
  }

  /** What the drain's query returns. */
  ghost predicate Answers(spool: Spool, visible: set<int>, floor: int, watching: set<string>, rows: seq<Row>) {
    && Ascending(rows)
    && (forall r :: r in rows <==> r.id in visible && r.id in spool && spool[r.id] == r && r.id > floor && r.job in watching)
  }

  datatype World = World(visible: set<int>, bus: Bus, skipped: set<int>, atStart: set<int>)

  datatype Step =
    | Visible(ids: set<int>)                      // commits, and the retention sweep
    | Notice(id: int)                             // of a run nobody watches
    | Drain(watching: set<string>, rows: seq<Row>)
    | FailedDrain

  ghost predicate Enabled(spool: Spool, w: World, st: Step) {
    st.Drain? ==> st.watching != {} && Answers(spool, w.visible, Floor(w.bus.lastSeen), st.watching, st.rows)
  }

  function Apply(w: World, st: Step): World {
    match st
    case Visible(ids) => w.(visible := ids)
    case Notice(id) => w.(bus := SkipOn(w.bus, id), skipped := w.skipped + {id})
    case Drain(watching, rows) => w.(bus := DrainOn(w.bus, rows))
    case FailedDrain => w
  }

  ghost predicate Next(spool: Spool, w: World, w': World) {
    exists st :: Enabled(spool, w, st) && w' == Apply(w, st)
  }

  ghost predicate IsExecution(spool: Spool, tr: seq<World>) {
    && tr != [] && tr[0].bus.delivered == [] && tr[0].atStart == tr[0].bus.seen && tr[0].skipped == {}
    && forall i, j :: 0 <= i < j < |tr| && j == i + 1 ==> Next(spool, tr[i], tr[j])
  }

  ghost predicate DistinctIds(rows: seq<Row>) {
    forall i, j :: 0 <= i < j < |rows| ==> rows[i].id != rows[j].id
  }

  ghost predicate Inv(spool: Spool, w: World) {
    && DistinctIds(w.bus.delivered)
    && (forall r :: r in w.bus.delivered ==>
         r.id in spool && spool[r.id] == r && r.payload.Event? && (r.id in w.bus.seen || r.id <= w.bus.lastSeen - WINDOW))
    && (forall id :: id in w.bus.seen ==> Handled(spool, w, id))
  }

  /** Why an id is not fanned out (again). */
  ghost predicate Handled(spool: Spool, w: World, id: int) {
    id in IdsOf(w.bus.delivered) || id in w.skipped || id in w.atStart || (id in spool && spool[id].payload.Malformed?)
  }

  lemma SkipKeepsInv(spool: Spool, w: World, id: int)
    requires Inv(spool, w)
    ensures Inv(spool, Apply(w, Notice(id)))
  {
  }

  lemma DistinctAppend(a: seq<Row>, b: seq<Row>)
    requires DistinctIds(a) && Ascending(b) && forall r :: r in b ==> r.id !in IdsOf(a)
    ensures DistinctIds(a + b)
  {
    var c := a + b;
    forall i, j | 0 <= i < j < |c| ensures c[i].id != c[j].id {
      if i < |a| <= j { assert c[i].id in IdsOf(a) && c[j] in b; }
    }
  }

  lemma DrainKeepsInv(spool: Spool, w: World, watching: set<string>, rows: seq<Row>)
    requires Inv(spool, w) && Answers(spool, w.visible, Floor(w.bus.lastSeen), watching, rows)
    ensures Inv(spool, Apply(w, Drain(watching, rows)))
  {
    hide Unseen, WellFormed, MaxId;
    var batch := Unseen(rows, w.bus.seen);
    var out := WellFormed(batch);
    forall r | r in out ensures r.id !in IdsOf(w.bus.delivered) {
      assert r in batch && r in rows;
    }
    DistinctAppend(w.bus.delivered, out);
    var w' := Apply(w, Drain(watching, rows));
    forall id | id in w'.bus.seen ensures Handled(spool, w', id) {
      if id in w.bus.seen {
        assert Handled(spool, w, id);
        assert forall r :: r in w.bus.delivered ==> r in w'.bus.delivered;
      } else {
        var r :| r in batch && r.id == id;
        assert r in rows;
        if r.payload.Event? { assert r in out && r in w'.bus.delivered; }
      }
    }
    forall r | r in w'.bus.delivered
      ensures r.id in spool && spool[r.id] == r && r.payload.Event? && (r.id in w'.bus.seen || r.id <= w'.bus.lastSeen - WINDOW)
    {
      if r in out { assert r in batch && r in rows && r.id in IdsOf(batch); }
    }
  }

  lemma StepKeepsInv(spool: Spool, w: World, w': World)
    requires Inv(spool, w) && Next(spool, w, w')
    ensures Inv(spool, w')
  {
    hide SkipOn, DrainOn;
    var st :| Enabled(spool, w, st) && w' == Apply(w, st);
    match st
    case Visible(ids) => assert forall id :: Handled(spool, w, id) ==> Handled(spool, w', id);
    case Notice(id) => SkipKeepsInv(spool, w, id);
    case Drain(watching, rows) => DrainKeepsInv(spool, w, watching, rows);
    case FailedDrain =>
  }

  lemma {:induction false} ExecutionKeepsInv(spool: Spool, tr: seq<World>, n: nat)
    requires IsExecution(spool, tr) && n < |tr|
    ensures Inv(spool, tr[n])
  {
    hide Next;
    if n > 0 {
      ExecutionKeepsInv(spool, tr, n - 1);
      StepKeepsInv(spool, tr[n - 1], tr[n]);
    }
  }

  /** The cursor never goes back: a notice takes it to its id if that is ahead, a drain to the highest unseen id it was answered. */
  lemma CursorIsHighest(spool: Spool, w: World, w': World, st: Step)
    requires Enabled(spool, w, st) && w' == Apply(w, st)
    ensures match st
            case Notice(id) => w'.bus.lastSeen == if id > w.bus.lastSeen then id else w.bus.lastSeen
            case Drain(_, rows) =>
              && w'.bus.lastSeen >= w.bus.lastSeen && (forall r :: r in rows && r.id !in w.bus.seen ==> r.id <= w'.bus.lastSeen)
              && (w'.bus.lastSeen == w.bus.lastSeen || exists r :: r in rows && r.id !in w.bus.seen && r.id == w'.bus.lastSeen)
            case _ => w'.bus == w.bus
  {
    hide Unseen, MaxId, WellFormed;
    if st.Drain? {
      var batch := Unseen(st.rows, w.bus.seen);
      if w'.bus.lastSeen != w.bus.lastSeen { var r :| r in batch && r.id == w'.bus.lastSeen; }
    }
  }

  /** Whatever order rows become visible in, no event id is fanned out twice. */
  lemma AtMostOnce(spool: Spool, tr: seq<World>, n: nat)
    requires IsExecution(spool, tr) && n < |tr|
    ensures DistinctIds(tr[n].bus.delivered)
  {
    ExecutionKeepsInv(spool, tr, n);
  }

  /** In some step before `n` a notice of `id` was passed over. */
  ghost predicate WasNoticed(tr: seq<World>, n: nat, id: int)
    requires n < |tr|
  {
    exists i, j :: 0 <= i < j <= n && j == i + 1 && PassedOver(tr[i], tr[j], id)
  }

  ghost predicate PassedOver(w: World, w': World, id: int) {
    w' == Apply(w, Notice(id))
  }

  lemma {:induction false} HistoryIsTrue(spool: Spool, tr: seq<World>, n: nat, id: int)
    requires IsExecution(spool, tr) && n < |tr|
    ensures id in tr[n].skipped ==> WasNoticed(tr, n, id) || id in tr[0].skipped
    ensures tr[n].atStart == tr[0].bus.seen
  {
    if n > 0 {
      HistoryIsTrue(spool, tr, n - 1, id);
      var w, w' := tr[n - 1], tr[n];
      assert Next(spool, w, w');
      var st :| Enabled(spool, w, st) && w' == Apply(w, st);
      hide SkipOn, DrainOn;
      if st == Notice(id) { assert PassedOver(tr[n - 1], tr[n], id); }
      if WasNoticed(tr, n - 1, id) {
        var i, j :| 0 <= i < j <= n - 1 && j == i + 1 && PassedOver(tr[i], tr[j], id);
        assert PassedOver(tr[i], tr[j], id);
      }
    }
  }

  /** `id` will not be answered any more, or is known to have been handled. */
  ghost predicate Behind(b: Bus, id: int) {
    (id in b.seen || id <= b.lastSeen - WINDOW) && id !in IdsOf(b.delivered)
  }

  lemma EventKeepsBehind(spool: Spool, w: World, w': World, id: int)
    requires Next(spool, w, w') && Behind(w.bus, id)
    ensures Behind(w'.bus, id)
  {
    hide Unseen, WellFormed, MaxId;
    var st :| Enabled(spool, w, st) && w' == Apply(w, st);
    if st.Drain? {
      var batch := Unseen(st.rows, w.bus.seen);
      forall r | r in w'.bus.delivered ensures r.id != id {
        if r in WellFormed(batch) { assert r in batch && r in st.rows; }
      }
    }
  }

  /** An id that was passed over is never fanned out afterwards. */
  lemma {:induction false} PassedOverForGood(spool: Spool, tr: seq<World>, m: nat, n: nat, id: int)
    requires IsExecution(spool, tr) && m < n < |tr| && PassedOver(tr[m], tr[m + 1], id) && id !in IdsOf(tr[m].bus.delivered)
    ensures Behind(tr[n].bus, id) && id !in IdsOf(tr[n].bus.delivered)
    decreases n
  {
    hide Next, Behind;
    if n == m + 1 { assert Behind(tr[n].bus, id) by { SkipIsBehind(tr[m].bus, id); } }
    else {
      PassedOverForGood(spool, tr, m, n - 1, id);
      EventKeepsBehind(spool, tr[n - 1], tr[n], id);
    }
    BehindMeans(tr[n].bus, id);
  }

  lemma SkipIsBehind(b: Bus, id: int)
    requires id !in IdsOf(b.delivered)
    ensures Behind(SkipOn(b, id), id)
  {
  }

  lemma BehindMeans(b: Bus, id: int)
    requires Behind(b, id)
    ensures id !in IdsOf(b.delivered)
  {
  }

  /** A well-formed row of a watched run above the floor of the window. */
  ghost predicate Due(spool: Spool, watching: set<string>, floor: int, id: int) {
    id in spool && spool[id].job in watching && spool[id].payload.Event? && id > floor
  }

  /**
    The next successful drain misses nothing: it fans out, in id order, rows of watched runs only, and
    afterwards every visible well-formed row of a watched run within the window has been fanned out,
    unless it was passed over while nobody watched its run or was counted as seen when this replica started.
   */
  lemma DrainMissesNothing(spool: Spool, tr: seq<World>, n: nat, watching: set<string>, rows: seq<Row>)
    requires IsSpool(spool) && IsExecution(spool, tr) && n + 1 < |tr|
    requires Enabled(spool, tr[n], Drain(watching, rows)) && tr[n + 1] == Apply(tr[n], Drain(watching, rows))
    ensures var sent := tr[n + 1].bus.delivered[|tr[n].bus.delivered|..];
            && tr[n].bus.delivered <= tr[n + 1].bus.delivered && Ascending(sent)
            && forall r :: r in sent ==> r.job in watching && r.id in tr[n].visible
    ensures forall id :: id in tr[n].visible && Due(spool, watching, tr[n].bus.lastSeen - 256, id) ==>
              spool[id] in tr[n + 1].bus.delivered || WasNoticed(tr, n, id) || id in tr[0].bus.seen
  {
    hide Unseen, WellFormed, MaxId, Next;
    ExecutionKeepsInv(spool, tr, n);
    var b := tr[n].bus;
    var batch := Unseen(rows, b.seen);
    var out := WellFormed(batch);
    assert (b.delivered + out)[|b.delivered|..] == out;
    forall r | r in out ensures r.job in watching && r.id in tr[n].visible { assert r in batch && r in rows; }
    forall id | id in tr[n].visible && Due(spool, watching, b.lastSeen - 256, id)
      ensures spool[id] in tr[n + 1].bus.delivered || WasNoticed(tr, n, id) || id in tr[0].bus.seen
    {
      HistoryIsTrue(spool, tr, n, id);
      assert spool[id].id == id;
      assert spool[id] in rows;
      if id in b.seen {
        assert Handled(spool, tr[n], id);
        if id in IdsOf(b.delivered) {
          var r :| r in b.delivered && r.id == id;
          assert r == spool[id];
        }
      } else {
        assert spool[id] in batch && spool[id] in out;
      }
    }
  }
}
