/**
  The debounced pusher of git mirrors (daemon/gitmirror.go): its three critical sections, and every
  interleaving of notifications, timers, pushes and a stop. A workspace is its key,
  tenant and name joined by a slash.
 */
module MirrorPusher {
  import opened Graphs

  const SAVE := "save"

  /** Every trigger but a save pushes whatever the mirror is set to push on. */
  predicate Strong(trigger: string) {
    trigger != "" && trigger != SAVE
  }

  function Stronger(have: string, next: string): string {
    if have == "" || have == SAVE then next else have
  }

  /** Merging two triggers never loses the strong one. */
  lemma StrongerKeepsStrong(have: string, next: string)
    ensures Strong(Stronger(have, next)) <==> Strong(have) || Strong(next)
  {
  }

  /** Whether a push with this trigger does anything on an enabled mirror. */
  predicate Pushes(pushOn: string, trigger: string) {
    !(trigger == SAVE && pushOn != SAVE)
  }

  /**
    When a merged trigger pushes wherever one of the two would have: always, except that the empty
    trigger merged with a later save is that save, which a mirror that does not push on save ignores.
    The empty trigger stands for "none yet" and is what no caller notifies with.
   */
  lemma MergeKeepsPush(pushOn: string, have: string, next: string)
    ensures (Pushes(pushOn, have) || Pushes(pushOn, next) ==> Pushes(pushOn, Stronger(have, next))) <==>
            !(have == "" && next == SAVE && pushOn != SAVE)
  {
  }

  lemma EmptyTriggerIsNone()
    ensures Pushes("publish", "") && !Pushes("publish", Stronger("", SAVE))
  {
    assert "publish"[0] != SAVE[0];
  }

  datatype Entry = Entry(timer: Option<nat>, running: bool, dirty: bool, trigger: string, dirtyTrigger: string)

  /** The pusher, with the timers it has armed and not seen fire. */
  datatype State = State(pending: map<string, Entry>, stopped: bool, wg: int, armed: map<nat, string>, nextTimer: nat)

  // ----- the critical sections as functions

  /** A fresh timer for `key`, counted in the wait group. */
  function Arm(s: State, key: string, e: Entry): State {
    State(s.pending[key := e.(timer := Some(s.nextTimer))], s.stopped, s.wg + 1, s.armed[s.nextTimer := key], s.nextTimer + 1)
  }

  const IDLE := Entry(None, false, false, "", "")

  function NotifyOn(s: State, key: string, trigger: string): State {
    if s.stopped then s
    else
      var e := if key in s.pending then s.pending[key] else IDLE;
      if e.running then
        s.(pending := s.pending[key := e.(dirty := true, dirtyTrigger := Stronger(e.dirtyTrigger, trigger))])
      else if e.timer.Some? then
        s.(pending := s.pending[key := e.(trigger := Stronger(e.trigger, trigger))])
      else Arm(s, key, e.(trigger := trigger))
  }

  /** The push about to run, if there still is one. */
  function Begun(s: State, key: string): Option<string> {
    if key in s.pending then Some(s.pending[key].trigger) else None
  }

  function BeginOn(s: State, key: string): State {
    if key !in s.pending then s
    else s.(pending := s.pending[key := s.pending[key].(timer := None, running := true, trigger := "")])
  }

  function EndOn(s: State, key: string): State
    requires key in s.pending
  {
    var e := s.pending[key].(running := false, dirty := false);
    if s.pending[key].dirty && !s.stopped then Arm(s, key, e.(trigger := e.dirtyTrigger, dirtyTrigger := ""))
    else if e.timer.None? then s.(pending := s.pending - {key})
    else s.(pending := s.pending[key := e])
  }

  function Id(timer: Option<nat>): set<nat> {
    if timer.Some? then {timer.value} else {}
  }

  /** The timers of entries still in the table. */
  function Timers(pending: map<string, Entry>): set<nat> {
    set k | k in pending && pending[k].timer.Some? :: pending[k].timer.value
  }

  function Running(pending: map<string, Entry>): map<string, Entry> {
    map k | k in pending && pending[k].running :: pending[k].(timer := None)
  }

  /** Stops what has not fired yet and forgets every entry no push is running for. */
  function StopOn(s: State): State {
    var armed := s.armed - Timers(s.pending);
    s.(stopped := true, pending := Running(s.pending), armed := armed, wg := s.wg - (|s.armed| - |armed|))
  }

  // ----- the critical sections as code

  class Pusher {
    var pending: map<string, Entry>
    var stopped: bool
    var wg: int
    var armed: map<nat, string>
    var nextTimer: nat

    ghost function View(): State
      reads this
    {
      State(pending, stopped, wg, armed, nextTimer)
    }

    constructor ()
      ensures View() == State(map[], false, 0, map[], 0)
    {
      pending, stopped, wg, armed, nextTimer := map[], false, 0, map[], 0;
    }

    method Schedule(key: string, st: Entry)
      modifies this
      ensures View() == Arm(old(View()), key, st)
    {
      wg := wg + 1;
      pending := pending[key := st.(timer := Some(nextTimer))];
      armed := armed[nextTimer := key];
      nextTimer := nextTimer + 1;
    }

    method Notify(tenant: string, workspace: string, trigger: string)
      modifies this
      ensures View() == if tenant == "" || workspace == "" then old(View()) else NotifyOn(old(View()), tenant + "/" + workspace, trigger)
    {
      if tenant == "" || workspace == "" { return; }
      var key := tenant + "/" + workspace;
      if stopped { return; }
      var st := if key in pending then pending[key] else IDLE;
      if st.running {
        st := st.(dirty := true, dirtyTrigger := Stronger(st.dirtyTrigger, trigger));
        pending := pending[key := st];
      } else if st.timer.Some? {
        st := st.(trigger := Stronger(st.trigger, trigger));
        pending := pending[key := st];
      } else {
        Schedule(key, st.(trigger := trigger));
      }
    }

    /** The first half of a queued push. */
    method BeginRun(key: string) returns (trigger: Option<string>)
      modifies this
      ensures trigger == Begun(old(View()), key) && View() == BeginOn(old(View()), key)
    {
      if key !in pending { return None; }
      var st := pending[key];
      pending := pending[key := st.(timer := None, running := true, trigger := "")];
      return Some(st.trigger);
    }

    /** The second half, after the push itself. */
    method EndRun(key: string)
      requires key in pending
      modifies this
      ensures View() == EndOn(old(View()), key)
    {
      var st := pending[key].(running := false);
      var again := st.dirty && !stopped;
      st := st.(dirty := false);
      if again {
        st := st.(trigger := st.dirtyTrigger, dirtyTrigger := "");
        Schedule(key, st);
      } else if st.timer.None? {
        pending := pending - {key};
      } else {
        pending := pending[key := st];
      }
    }

    /** Takes a timer back, and off the wait group, if it has not fired. */
    method StopTimer(timer: Option<nat>)
      modifies this`armed, this`wg
      ensures armed == old(armed) - Id(timer) && wg == old(wg) - (|old(armed)| - |armed|)
    {
      if timer.Some? && timer.value in armed {
        RemoveOne(armed, timer.value);
        armed := armed - {timer.value};
        wg := wg - 1;
      }
      assert armed == old(armed) - Id(timer);
    }

    /** Stops every timer it can and drops the entries no push is running for. */
    method StopAll()
      modifies this`pending, this`armed, this`wg
      ensures pending == Running(old(pending)) && armed == old(armed) - Timers(old(pending))
      ensures wg == old(wg) - (|old(armed)| - |armed|)
    {
      ghost var was, clock, count := pending, armed, wg;
      var left := pending.Keys;
      StopStarts(was, clock, count);
      hide Stopping, Running, Timers, Id;
      while left != {}
        invariant left <= was.Keys
        invariant Stopping(was, clock, count, left, pending, armed, wg)
      {
        var key :| key in left;
        StopEntry(was, clock, count, left, key, pending, armed, wg);
        var st := pending[key];
        ghost var armed0, wg0 := armed, wg;
        StopTimer(st.timer);
        StopStep(was, clock, count, left, key, pending, armed0, wg0, armed, wg);
        pending := if st.running then pending[key := st.(timer := None)] else pending - {key};
        left := left - {key};
      }
      StopEnds(was, clock, count, pending, armed, wg);
    }

    method Stop()
      modifies this
      ensures View() == StopOn(old(View()))
    {
      stopped := true;
      StopAll();
    }
  }

  /** A stop halfway through the table. */
  ghost predicate Stopping(was: map<string, Entry>, clock: map<nat, string>, count: int, left: set<string>,
                           pending: map<string, Entry>, armed: map<nat, string>, wg: int) {
    pending == Half(was, left) && armed == clock - Timers(Walked(was, left)) && wg == count - (|clock| - |armed|)
  }

  /** The entries the stop has been through, and what it leaves of the table meanwhile. */
  function Walked(was: map<string, Entry>, left: set<string>): map<string, Entry> {
    map k | k in was && k !in left :: was[k]
  }

  function Half(was: map<string, Entry>, left: set<string>): map<string, Entry> {
    map k | k in was && (k in left || was[k].running) :: if k in left then was[k] else was[k].(timer := None)
  }

  lemma StopStarts(was: map<string, Entry>, clock: map<nat, string>, count: int)
    ensures Stopping(was, clock, count, was.Keys, was, clock, count)
  {
    assert Walked(was, was.Keys) == map[];
    assert clock - {} == clock;
  }

  lemma StopEnds(was: map<string, Entry>, clock: map<nat, string>, count: int, pending: map<string, Entry>,
                 armed: map<nat, string>, wg: int)
    requires Stopping(was, clock, count, {}, pending, armed, wg)
    ensures pending == Running(was) && armed == clock - Timers(was) && wg == count - (|clock| - |armed|)
  {
    assert Walked(was, {}) == was;
  }

  lemma StopEntry(was: map<string, Entry>, clock: map<nat, string>, count: int, left: set<string>, key: string,
                  pending: map<string, Entry>, armed: map<nat, string>, wg: int)
    requires Stopping(was, clock, count, left, pending, armed, wg) && left <= was.Keys && key in left
    ensures key in pending && pending[key] == was[key]
  {
  }

  lemma HalfStep(was: map<string, Entry>, left: set<string>, key: string)
    requires left <= was.Keys && key in left
    ensures Half(was, left - {key}) ==
            if was[key].running then Half(was, left)[key := was[key].(timer := None)] else Half(was, left) - {key}
    ensures Timers(Walked(was, left - {key})) == Timers(Walked(was, left)) + Id(was[key].timer)
  {
    assert Walked(was, left - {key}) == Walked(was, left)[key := was[key]];
    TimersStep(Walked(was, left), key, was[key]);
  }

  lemma StopStep(was: map<string, Entry>, clock: map<nat, string>, count: int, left: set<string>, key: string,
                 pending: map<string, Entry>, armed: map<nat, string>, wg: int, armed': map<nat, string>, wg': int)
    requires Stopping(was, clock, count, left, pending, armed, wg) && left <= was.Keys && key in left
    requires key in pending && pending[key] == was[key]
    requires armed' == armed - Id(pending[key].timer) && wg' == wg - (|armed| - |armed'|)
    ensures var pending' := if pending[key].running then pending[key := pending[key].(timer := None)] else pending - {key};
            Stopping(was, clock, count, left - {key}, pending', armed', wg')
  {
    hide Half, Walked, Timers, Id;
    HalfStep(was, left, key);
    MinusMinus(clock, Timers(Walked(was, left)), Id(was[key].timer));
  }

  lemma MinusMinus(m: map<nat, string>, a: set<nat>, b: set<nat>)
    ensures m - a - b == m - (a + b)
  {
  }

  lemma TimersStep(m: map<string, Entry>, key: string, e: Entry)
    requires key !in m
    ensures Timers(m[key := e]) == Timers(m) + Id(e.timer)
  {
    var m' := m[key := e];
    assert forall k :: k in m ==> k in m' && m'[k] == m[k];
    assert key in m' && m'[key] == e;
  }

  lemma RemoveOne<K, V>(m: map<K, V>, k: K)
    requires k in m
    ensures |m - {k}| == |m| - 1
  {
    assert (m - {k}).Keys == m.Keys - {k};
    assert |m - {k}| == |(m - {k}).Keys| && |m| == |m.Keys|;
  }

  lemma AddOne<K, V>(m: map<K, V>, k: K, v: V)
    requires k !in m
    ensures |m[k := v]| == |m| + 1
  {
    assert m[k := v].Keys == m.Keys + {k};
    assert |m[k := v]| == |m[k := v].Keys| && |m| == |m.Keys|;
  }

  // ----- timers and pushes in flight

  datatype Callback =
    | Fired(key: string)                     // the timer went off, the lock is not taken yet
    | Pushing(key: string, trigger: string)
    | Returning                              // only the wait group is left to tell

  /**
    `owed` holds the workspaces with a strong notification no push has started for yet, and
    `runner` the callback that started the latest push of each workspace.
   */
  datatype World = World(s: State, calls: map<nat, Callback>, owed: set<string>, runner: map<string, nat>)

  datatype Event =
    | Notified(key: string, trigger: string)
    | Fires(timer: nat)
    | Ticks(callback: nat)
    | Stops

  predicate Enabled(w: World, ev: Event) {
    match ev
    case Notified(_, _) => true
    case Fires(id) => id in w.s.armed
    case Ticks(id) => id in w.calls
    case Stops => true
  }

  function TickOn(w: World, id: nat): World
    requires id in w.calls
  {
    match w.calls[id]
    case Fired(k) =>
      var t := Begun(w.s, k);
      if t.None? then w.(calls := w.calls[id := Returning])
      else World(BeginOn(w.s, k), w.calls[id := Pushing(k, t.value)], w.owed - {k}, w.runner[k := id])
    case Pushing(k, _) =>
      w.(s := if k in w.s.pending then EndOn(w.s, k) else w.s, calls := w.calls[id := Returning])
    case Returning => w.(s := w.s.(wg := w.s.wg - 1), calls := w.calls - {id})
  }

  function Apply(w: World, ev: Event): World
    requires Enabled(w, ev)
  {
    match ev
    case Notified(k, t) =>
      w.(s := NotifyOn(w.s, k, t), owed := if !w.s.stopped && Strong(t) then w.owed + {k} else w.owed)
    case Fires(id) => w.(s := w.s.(armed := w.s.armed - {id}), calls := w.calls[id := Fired(w.s.armed[id])])
    case Ticks(id) => TickOn(w, id)
    case Stops => w.(s := StopOn(w.s))
  }

  ghost predicate Next(w: World, w': World) {
    exists ev :: Enabled(w, ev) && w' == Apply(w, ev)
  }

  ghost predicate IsExecution(tr: seq<World>) {
    && tr != [] && tr[0] == World(State(map[], false, 0, map[], 0), map[], {}, map[])
    && forall i, j :: 0 <= i < j < |tr| && j == i + 1 ==> Next(tr[i], tr[j])
  }

  // ----- what every step keeps

  ghost predicate Counted(w: World) {
    && w.s.wg == |w.s.armed| + |w.calls| && w.s.armed.Keys !! w.calls.Keys
    && (forall id :: id in w.s.armed ==> id < w.s.nextTimer) && (forall id :: id in w.calls ==> id < w.s.nextTimer)
  }

  /** An entry waits for its timer or for its push, never both. */
  ghost predicate EntryOk(e: Entry) {
    if e.running then e.timer.None? && (e.dirty || e.dirtyTrigger == "") else e.timer.Some? && !e.dirty && e.dirtyTrigger == ""
  }

  ghost predicate TimerOk(w: World, k: string, id: nat) {
    (id in w.s.armed && w.s.armed[id] == k) || (id in w.calls && w.calls[id] == Fired(k))
  }

  ghost predicate Entries(w: World) {
    forall k :: k in w.s.pending ==> EntryOk(w.s.pending[k]) && (w.s.stopped ==> w.s.pending[k].running) &&
                                     (w.s.pending[k].timer.Some? ==> TimerOk(w, k, w.s.pending[k].timer.value))
  }

  ghost predicate ArmedOk(w: World) {
    forall id :: id in w.s.armed ==>
      !w.s.stopped && w.s.armed[id] in w.s.pending && w.s.pending[w.s.armed[id]].timer == Some(id)
  }

  ghost predicate CallOk(w: World, id: nat, c: Callback) {
    match c
    case Fired(k) => if k in w.s.pending then w.s.pending[k].timer == Some(id) else w.s.stopped
    case Pushing(k, _) => k in w.s.pending && w.s.pending[k].running && k in w.runner && w.runner[k] == id
    case Returning => true
  }

  ghost predicate Calls(w: World) {
    forall id :: id in w.calls ==> CallOk(w, id, w.calls[id])
  }

  ghost predicate RunnerOk(w: World, k: string) {
    k in w.runner && w.runner[k] in w.calls && w.calls[w.runner[k]].Pushing? && w.calls[w.runner[k]].key == k
  }

  /** Every running entry has its push. */
  ghost predicate Runners(w: World) {
    forall k :: k in w.s.pending && w.s.pending[k].running ==> RunnerOk(w, k)
  }

  /** A strong notification is remembered wherever the next push will look. */
  ghost predicate Remembered(w: World) {
    forall k :: k in w.owed && !w.s.stopped ==> k in w.s.pending && Promises(w.s.pending[k])
  }

  predicate Promises(e: Entry) {
    if e.running then e.dirty && Strong(e.dirtyTrigger) else Strong(e.trigger)
  }

  ghost predicate Inv(w: World) {
    Counted(w) && Entries(w) && ArmedOk(w) && Calls(w) && Runners(w) && Remembered(w)
  }

  lemma ArmKeepsInv(w: World, w': World, k: string, e: Entry)
    requires Counted(w) && ArmedOk(w) && !w.s.stopped && w'.s == Arm(w.s, k, e) && w'.calls == w.calls
    requires k in w.s.pending ==> w.s.pending[k].timer.None?
    requires forall x :: x in w.s.pending && x != k ==> EntryOk(w.s.pending[x]) && (w.s.pending[x].timer.Some? ==> TimerOk(w, x, w.s.pending[x].timer.value))
    requires !e.running && !e.dirty && e.dirtyTrigger == ""
    ensures Counted(w') && Entries(w') && ArmedOk(w')
  {
    AddOne(w.s.armed, w.s.nextTimer, k);
  }

  /** Changing only an entry's triggers. */
  lemma RetriggerTables(w: World, w': World, k: string, e: Entry)
    requires Counted(w) && Entries(w) && ArmedOk(w)
    requires k in w.s.pending && e.timer == w.s.pending[k].timer && e.running == w.s.pending[k].running && EntryOk(e)
    requires w' == w.(s := w.s.(pending := w.s.pending[k := e]), owed := w'.owed)
    ensures Counted(w') && Entries(w') && ArmedOk(w')
  {
    assert forall x, i :: TimerOk(w, x, i) ==> TimerOk(w', x, i);
  }

  lemma RetriggerCalls(w: World, w': World, k: string, e: Entry)
    requires Calls(w) && Runners(w)
    requires k in w.s.pending && e.timer == w.s.pending[k].timer && e.running == w.s.pending[k].running
    requires w' == w.(s := w.s.(pending := w.s.pending[k := e]), owed := w'.owed)
    ensures Calls(w') && Runners(w')
  {
  }

  lemma RetriggerKeepsInv(w: World, w': World, k: string, e: Entry)
    requires Inv(w) && k in w.s.pending && e.timer == w.s.pending[k].timer && e.running == w.s.pending[k].running && EntryOk(e)
    requires w' == w.(s := w.s.(pending := w.s.pending[k := e]), owed := w'.owed) && w'.owed <= w.owed + {k}
    requires k in w'.owed && !w.s.stopped ==> Promises(e)
    ensures Inv(w')
  {
    RetriggerTables(w, w', k, e);
    RetriggerCalls(w, w', k, e);
    hide Counted, Entries, ArmedOk, Calls, Runners, Promises;
  }

  lemma FreshCalls(w: World, w': World, k: string, e: Entry)
    requires Calls(w) && Runners(w) && k !in w.s.pending && !w.s.stopped && !e.running
    requires w' == w.(s := Arm(w.s, k, e), owed := w'.owed)
    ensures Calls(w') && Runners(w')
  {
  }

  lemma FreshKeepsInv(w: World, w': World, k: string, t: string)
    requires Inv(w) && k !in w.s.pending && !w.s.stopped
    requires w' == w.(s := Arm(w.s, k, IDLE.(trigger := t)), owed := w'.owed) && w'.owed <= w.owed + {k}
    requires k in w'.owed ==> Strong(t)
    ensures Inv(w')
  {
    ArmKeepsInv(w, w', k, IDLE.(trigger := t));
    FreshCalls(w, w', k, IDLE.(trigger := t));
    hide Counted, Entries, ArmedOk, Calls, Runners, Strong;
  }

  lemma NotifyKeepsInv(w: World, k: string, t: string)
    requires Inv(w)
    ensures Inv(Apply(w, Notified(k, t)))
  {
    hide Inv, Stronger;
    InvEntry(w, k);
    var w' := Apply(w, Notified(k, t));
    if !w.s.stopped {
      if k in w.s.pending {
        var e := w.s.pending[k];
        StrongerKeepsStrong(e.dirtyTrigger, t);
        StrongerKeepsStrong(e.trigger, t);
        RetriggerKeepsInv(w, w', k, w'.s.pending[k]);
      } else {
        FreshKeepsInv(w, w', k, t);
      }
    }
  }

  lemma InvEntry(w: World, k: string)
    requires Inv(w)
    ensures k in w.s.pending ==> EntryOk(w.s.pending[k])
    ensures k in w.owed && !w.s.stopped ==> k in w.s.pending && Promises(w.s.pending[k])
  {
  }

  lemma FireKeepsInv(w: World, id: nat)
    requires Inv(w) && id in w.s.armed
    ensures Inv(Apply(w, Fires(id)))
  {
    hide Promises;
    AddOne(w.calls, id, Fired(w.s.armed[id]));
    RemoveOne(w.s.armed, id);
  }

  lemma StopEmpties(w: World)
    requires ArmedOk(w)
    ensures StopOn(w.s).armed == map[] && StopOn(w.s).wg == w.s.wg - |w.s.armed|
  {
    forall id | id in w.s.armed ensures id in Timers(w.s.pending) {
      assert w.s.pending[w.s.armed[id]].timer == Some(id);
    }
    assert StopOn(w.s).armed == map[];
  }

  lemma StopCalls(w: World)
    requires Entries(w) && Calls(w) && Runners(w)
    ensures Calls(w.(s := StopOn(w.s))) && Runners(w.(s := StopOn(w.s)))
  {
    hide Timers, TimerOk;
  }

  lemma StopKeepsInv(w: World)
    requires Inv(w)
    ensures Inv(Apply(w, Stops))
  {
    StopEmpties(w);
    StopCalls(w);
    hide Calls, Runners, Remembered, Timers;
  }

  lemma SameSize<K, V>(m: map<K, V>, k: K, v: V)
    requires k in m
    ensures |m[k := v]| == |m| && m[k := v].Keys == m.Keys
  {
    assert m[k := v].Keys == m.Keys;
    assert |m[k := v]| == |m[k := v].Keys| && |m| == |m.Keys|;
  }

  lemma BeginTables(w: World, id: nat)
    requires Counted(w) && Entries(w) && ArmedOk(w) && id in w.calls && w.calls[id].Fired? && CallOk(w, id, w.calls[id])
    ensures var w' := TickOn(w, id); Counted(w') && Entries(w') && ArmedOk(w')
  {
    var w' := TickOn(w, id);
    SameSize(w.calls, id, w'.calls[id]);
  }

  lemma BeginCalls(w: World, id: nat)
    requires Entries(w) && Calls(w) && Runners(w) && id in w.calls && w.calls[id].Fired?
    ensures var w' := TickOn(w, id); Calls(w') && Runners(w')
  {
    hide TimerOk;
    assert CallOk(w, id, w.calls[id]);
  }

  lemma BeginKeepsInv(w: World, id: nat)
    requires Inv(w) && id in w.calls && w.calls[id].Fired?
    ensures Inv(Apply(w, Ticks(id)))
  {
    assert CallOk(w, id, w.calls[id]);
    BeginTables(w, id);
    BeginCalls(w, id);
    hide Counted, Entries, ArmedOk, Calls, Runners, Promises;
  }

  lemma DropTables(w: World, w': World, id: nat)
    requires Counted(w) && Entries(w) && ArmedOk(w) && id in w.calls && w.calls[id].Pushing? && CallOk(w, id, w.calls[id])
    requires w' == w.(s := w.s.(pending := w.s.pending - {w.calls[id].key}), calls := w.calls[id := Returning])
    ensures Counted(w') && Entries(w') && ArmedOk(w')
  {
    SameSize(w.calls, id, Returning);
  }

  lemma DropCalls(w: World, w': World, id: nat)
    requires Entries(w) && Calls(w) && Runners(w) && id in w.calls && w.calls[id].Pushing?
    requires w' == w.(s := w.s.(pending := w.s.pending - {w.calls[id].key}), calls := w.calls[id := Returning])
    ensures Calls(w') && Runners(w')
  {
    hide TimerOk;
    assert CallOk(w, id, w.calls[id]);
  }

  /** A push ends and nothing came meanwhile, or the pusher has stopped. */
  lemma EndDropsEntry(w: World, w': World, id: nat)
    requires Inv(w) && id in w.calls && w.calls[id].Pushing? && w.calls[id].key in w.s.pending
    requires w.s.pending[w.calls[id].key].dirty ==> w.s.stopped
    requires w' == w.(s := w.s.(pending := w.s.pending - {w.calls[id].key}), calls := w.calls[id := Returning])
    ensures Inv(w')
  {
    assert CallOk(w, id, w.calls[id]);
    DropTables(w, w', id);
    DropCalls(w, w', id);
    hide Counted, Entries, ArmedOk, Calls, Runners;
    assert !w.s.stopped ==> w.calls[id].key !in w.owed;
  }

  /** A push ends and a new one is due. */
  lemma EndRearms(w: World, w': World, id: nat)
    requires Inv(w) && id in w.calls && w.calls[id].Pushing? && w.calls[id].key in w.s.pending
    requires w.s.pending[w.calls[id].key].dirty && !w.s.stopped
    requires var k := w.calls[id].key; var e := w.s.pending[k];
             w' == w.(s := Arm(w.s, k, e.(running := false, dirty := false, trigger := e.dirtyTrigger, dirtyTrigger := "")),
                      calls := w.calls[id := Returning])
    ensures Inv(w')
  {
    hide Strong;
    var k := w.calls[id].key;
    var e := w.s.pending[k];
    assert CallOk(w, id, w.calls[id]);
    SameSize(w.calls, id, Returning);
    var mid := w.(calls := w'.calls);
    assert forall x, i :: TimerOk(w, x, i) ==> TimerOk(mid, x, i);
    ArmKeepsInv(mid, w', k, e.(running := false, dirty := false, trigger := e.dirtyTrigger, dirtyTrigger := ""));
  }

  lemma EndKeepsInv(w: World, id: nat)
    requires Inv(w) && id in w.calls && w.calls[id].Pushing?
    ensures Inv(Apply(w, Ticks(id)))
  {
    var w', k := Apply(w, Ticks(id)), w.calls[id].key;
    assert CallOk(w, id, w.calls[id]);
    InvEntry(w, k);
    hide Inv;
    if w.s.pending[k].dirty && !w.s.stopped { EndRearms(w, w', id); } else { EndDropsEntry(w, w', id); }
  }

  lemma ReturnKeepsInv(w: World, id: nat)
    requires Inv(w) && id in w.calls && w.calls[id].Returning?
    ensures Inv(Apply(w, Ticks(id)))
  {
    hide Promises;
    RemoveOne(w.calls, id);
  }

  lemma EventKeepsInv(w: World, w': World)
    requires Inv(w) && Next(w, w')
    ensures Inv(w')
  {
    hide Inv, NotifyOn, StopOn, TickOn;
    var ev :| Enabled(w, ev) && w' == Apply(w, ev);
    match ev
    case Notified(k, t) => NotifyKeepsInv(w, k, t);
    case Fires(id) => FireKeepsInv(w, id);
    case Stops => StopKeepsInv(w);
    case Ticks(id) =>
      match w.calls[id] {
        case Fired(_) => BeginKeepsInv(w, id);
        case Pushing(_, _) => EndKeepsInv(w, id);
        case Returning => ReturnKeepsInv(w, id);
      }
  }

  lemma {:induction false} ExecutionKeepsInv(tr: seq<World>, n: nat)
    requires IsExecution(tr) && n < |tr|
    ensures Inv(tr[n])
  {
    hide Next;
    if n > 0 {
      ExecutionKeepsInv(tr, n - 1);
      EventKeepsInv(tr[n - 1], tr[n]);
    }
  }

  // ----- what follows for every run

  /** At most one queued push of a workspace is in flight. */
  lemma OnePushAtATime(tr: seq<World>, n: nat, i: nat, j: nat)
    requires IsExecution(tr) && n < |tr| && i in tr[n].calls && j in tr[n].calls
    requires tr[n].calls[i].Pushing? && tr[n].calls[j].Pushing? && tr[n].calls[i].key == tr[n].calls[j].key
    ensures i == j
  {
    ExecutionKeepsInv(tr, n);
    assert CallOk(tr[n], i, tr[n].calls[i]) && CallOk(tr[n], j, tr[n].calls[j]);
  }

  /** The wait group counts exactly the armed timers and the callbacks that have not returned. */
  lemma WaitGroupIsExact(tr: seq<World>, n: nat)
    requires IsExecution(tr) && n < |tr|
    ensures tr[n].s.wg == |tr[n].s.armed| + |tr[n].calls| && tr[n].s.wg >= 0
  {
    ExecutionKeepsInv(tr, n);
  }

  /**
    Until the pusher stops, a strong notification is on its way: a timer or a callback of that
    workspace is still to come, and the push it starts goes out whatever the mirror pushes on.
   */
  lemma PublishIsNeverDowngraded(tr: seq<World>, n: nat, k: string, pushOn: string)
    requires IsExecution(tr) && n < |tr| && k in tr[n].owed && !tr[n].s.stopped
    ensures k in tr[n].s.pending
    ensures (exists id :: id in tr[n].s.armed && tr[n].s.armed[id] == k) || (exists id :: id in tr[n].calls && tr[n].calls[id] == Fired(k)) ||
            (exists id :: id in tr[n].calls && tr[n].calls[id].Pushing? && tr[n].calls[id].key == k && tr[n].s.pending[k].dirty)
    ensures forall id :: id in tr[n].calls && tr[n].calls[id] == Fired(k) ==>
              Begun(tr[n].s, k).Some? && Strong(Begun(tr[n].s, k).value) && Pushes(pushOn, Begun(tr[n].s, k).value)
  {
    ExecutionKeepsInv(tr, n);
    var w := tr[n];
    InvEntry(w, k);
    if w.s.pending[k].running { assert RunnerOk(w, k); }
    else { assert TimerOk(w, k, w.s.pending[k].timer.value); }
    forall id | id in w.calls && w.calls[id] == Fired(k) ensures !w.s.pending[k].running { assert CallOk(w, id, w.calls[id]); }
  }

  /** A push that starts leaves nothing owed behind unless something strong came since. */
  lemma PushSettlesWhatIsOwed(tr: seq<World>, n: nat, id: nat)
    requires IsExecution(tr) && n < |tr| && id in tr[n].calls && tr[n].calls[id].Fired? && tr[n].calls[id].key in tr[n].s.pending
    ensures var w', k := Apply(tr[n], Ticks(id)), tr[n].calls[id].key;
            && k !in w'.owed && w'.calls[id].Pushing?
            && (k in tr[n].owed ==> Strong(w'.calls[id].trigger))
  {
    ExecutionKeepsInv(tr, n);
    var w, k := tr[n], tr[n].calls[id].key;
    assert CallOk(w, id, w.calls[id]);
    InvEntry(w, k);
  }
}
