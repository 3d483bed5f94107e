/**
  Notifications of the debounced pusher followed through whole executions.
 */
module PusherRuns {
  import opened Graphs
  import opened MirrorPusher

  /** What the next push of this entry will be told: what came during the running one, or since. */
  function Heard(e: Entry): string {
    if e.running then e.dirtyTrigger else e.trigger
  }

  /** The entry has the notification in it. */
  ghost predicate Bears(pending: map<string, Entry>, k: string, t: string) {
    && k in pending && (pending[k].running ==> pending[k].dirty)
    && (t != "save" && t != "" ==> Heard(pending[k]) != "save" && Heard(pending[k]) != "")
  }

  /** In this step a push of `k` starts. */
  ghost predicate StartsPush(w: World, w': World, k: string) {
    exists id :: id in w.calls && w.calls[id] == Fired(k) && id in w'.calls && w'.calls[id].Pushing?
  }

  lemma NotifyBears(s: State, k: string, t: string)
    requires !s.stopped && (k in s.pending ==> EntryOk(s.pending[k]))
    ensures Bears(NotifyOn(s, k, t).pending, k, t)
  {
  }

  lemma NotifyKeepsBearing(s: State, x: string, u: string, k: string, t: string)
    requires Bears(s.pending, k, t) && EntryOk(s.pending[k])
    ensures Bears(NotifyOn(s, x, u).pending, k, t)
  {
  }

  lemma BeginKeepsBearing(s: State, x: string, k: string, t: string)
    requires Bears(s.pending, k, t) && x != k
    ensures Bears(BeginOn(s, x).pending, k, t)
  {
  }

  lemma EndKeepsBearing(s: State, x: string, k: string, t: string)
    requires Bears(s.pending, k, t) && !s.stopped && x in s.pending && s.pending[x].running
    ensures Bears(EndOn(s, x).pending, k, t)
  {
  }

  lemma BeginIsStart(w: World, id: nat, x: string)
    requires id in w.calls && w.calls[id] == Fired(x)
    ensures x in w.s.pending ==> StartsPush(w, TickOn(w, id), x)
  {
    if x in w.s.pending { assert id in TickOn(w, id).calls && TickOn(w, id).calls[id].Pushing?; }
  }

  lemma BorneIsPending(pending: map<string, Entry>, k: string, t: string)
    requires Bears(pending, k, t)
    ensures k in pending
  {
  }

  lemma TickKeepsBearing(w: World, id: nat, k: string, t: string)
    requires id in w.calls && CallOk(w, id, w.calls[id]) && Bears(w.s.pending, k, t) && !w.s.stopped
    requires !StartsPush(w, TickOn(w, id), k)
    ensures Bears(TickOn(w, id).s.pending, k, t)
  {
    hide Bears, BeginOn, EndOn;
    match w.calls[id]
    case Fired(x) =>
      BeginIsStart(w, id, x);
      if x != k { BeginKeepsBearing(w.s, x, k, t); } else { BorneIsPending(w.s.pending, k, t); }
    case Pushing(x, _) => EndKeepsBearing(w.s, x, k, t);
    case Returning =>
  }

  lemma EventKeepsBearing(w: World, w': World, k: string, t: string)
    requires Inv(w) && Next(w, w') && Bears(w.s.pending, k, t) && !w.s.stopped && !w'.s.stopped && !StartsPush(w, w', k)
    ensures Bears(w'.s.pending, k, t)
  {
    var ev :| Enabled(w, ev) && w' == Apply(w, ev);
    BorneIsPending(w.s.pending, k, t);
    InvEntry(w, k);
    hide Inv, Bears, NotifyOn, TickOn, StartsPush, Timers, Running, EntryOk;
    match ev
    case Notified(x, u) => NotifyKeepsBearing(w.s, x, u, k, t);
    case Ticks(id) =>
      CallIsOk(w, id);
      TickKeepsBearing(w, id, k, t);
    case _ =>
  }

  lemma CallIsOk(w: World, id: nat)
    requires Inv(w) && id in w.calls
    ensures CallOk(w, id, w.calls[id])
  {
  }

  lemma StopsForGood(w: World, w': World)
    requires Next(w, w') && w.s.stopped
    ensures w'.s.stopped
  {
    hide Stronger, Timers, Running;
    var ev :| Enabled(w, ev) && w' == Apply(w, ev);
  }

  lemma {:induction false} StaysStopped(tr: seq<World>, m: nat, n: nat)
    requires IsExecution(tr) && m <= n < |tr| && tr[m].s.stopped
    ensures tr[n].s.stopped
  {
    hide Next;
    if m < n {
      StaysStopped(tr, m, n - 1);
      StopsForGood(tr[n - 1], tr[n]);
    }
  }

  /** No push of `k` starts between the two moments. */
  ghost predicate NoStart(tr: seq<World>, m: nat, n: nat, k: string)
    requires n < |tr|
  {
    forall i, j :: m <= i < j <= n && j == i + 1 ==> !StartsPush(tr[i], tr[j], k)
  }

  lemma NoStartBefore(tr: seq<World>, m: nat, n: nat, k: string)
    requires m < n < |tr| && NoStart(tr, m, n, k)
    ensures NoStart(tr, m, n - 1, k) && !StartsPush(tr[n - 1], tr[n], k)
  {
  }

  /** In this step `k` is notified with `t`. */
  ghost predicate Notifies(w: World, w': World, k: string, t: string) {
    w' == Apply(w, Notified(k, t))
  }

  lemma NotifiedIsBorne(w: World, w': World, k: string, t: string)
    requires Inv(w) && Notifies(w, w', k, t) && !w'.s.stopped
    ensures Bears(w'.s.pending, k, t)
  {
    InvEntry(w, k);
    hide Inv, Bears, EntryOk, Stronger;
    NotifyBears(w.s, k, t);
  }

  lemma {:induction false} StillBorne(tr: seq<World>, m: nat, n: nat, k: string, t: string)
    requires IsExecution(tr) && m < n < |tr| && Notifies(tr[m], tr[m + 1], k, t)
    requires !tr[n].s.stopped && NoStart(tr, m + 1, n, k)
    ensures Bears(tr[n].s.pending, k, t)
    decreases n
  {
    hide Next, Bears, Inv, StartsPush, NoStart, Notifies;
    if tr[n - 1].s.stopped { StaysStopped(tr, n - 1, n); }
    ExecutionKeepsInv(tr, n - 1);
    if m + 1 == n {
      NotifiedIsBorne(tr[m], tr[n], k, t);
    } else {
      NoStartBefore(tr, m + 1, n, k);
      StillBorne(tr, m, n - 1, k, t);
      EventKeepsBearing(tr[n - 1], tr[n], k, t);
    }
  }

  /** A push of `k` is on its way: by a timer, by a callback, or after the push that is running. */
  ghost predicate OnItsWay(w: World, k: string) {
    || (exists id :: id in w.s.armed && w.s.armed[id] == k)
    || (exists id :: id in w.calls && w.calls[id] == Fired(k))
    || (exists id :: id in w.calls && w.calls[id].Pushing? && w.calls[id].key == k && k in w.s.pending && w.s.pending[k].dirty)
  }

  /** A push of a mirror set to `pushOn` does nothing only for a save it is not set to push on. */
  predicate Ignores(pushOn: string, trigger: string) {
    trigger == "save" && pushOn != "save"
  }

  /**
    No notification is lost, a save as little as a publish: until the pusher stops or a push of the workspace
    starts, one is on its way; and a push that starts now is told something that no mirror ignores unless it
    ignores the notification.
   */
  lemma NoNotificationIsLost(tr: seq<World>, m: nat, n: nat, k: string, t: string)
    requires IsExecution(tr) && m < n < |tr| && Notifies(tr[m], tr[m + 1], k, t) && t != ""
    requires !tr[n].s.stopped && NoStart(tr, m + 1, n, k)
    ensures OnItsWay(tr[n], k)
    ensures forall id :: id in tr[n].calls && tr[n].calls[id] == Fired(k) ==>
              var c := Apply(tr[n], Ticks(id)).calls[id];
              c.Pushing? && c.key == k && forall pushOn :: Ignores(pushOn, c.trigger) ==> Ignores(pushOn, t)
  {
    StillBorne(tr, m, n, k, t);
    ExecutionKeepsInv(tr, n);
    hide IsExecution, NoStart, Notifies;
    BorneIsOnItsWay(tr[n], k, t);
    forall id | id in tr[n].calls && tr[n].calls[id] == Fired(k)
      ensures var c := Apply(tr[n], Ticks(id)).calls[id]; c.Pushing? && c.key == k && forall pushOn :: Ignores(pushOn, c.trigger) ==> Ignores(pushOn, t)
    {
      StartsWithIt(tr[n], k, t, id);
    }
  }

  lemma BorneIsOnItsWay(w: World, k: string, t: string)
    requires Inv(w) && Bears(w.s.pending, k, t)
    ensures OnItsWay(w, k)
  {
    if w.s.pending[k].running { assert RunnerOk(w, k); }
    else { assert TimerOk(w, k, w.s.pending[k].timer.value); }
  }

  lemma StartsWithIt(w: World, k: string, t: string, id: nat)
    requires Inv(w) && Bears(w.s.pending, k, t) && t != "" && id in w.calls && w.calls[id] == Fired(k)
    ensures var c := Apply(w, Ticks(id)).calls[id]; c.Pushing? && c.key == k && forall pushOn :: Ignores(pushOn, c.trigger) ==> Ignores(pushOn, t)
  {
    CallIsOk(w, id);
    InvEntry(w, k);
    hide Inv;
  }

  /** Notifications collapse: a workspace never has two timers, or a timer and a callback, waiting. */
  lemma OneTimer(tr: seq<World>, n: nat, i: nat, j: nat, k: string)
    requires IsExecution(tr) && n < |tr| && !tr[n].s.stopped && Waits(tr[n], i, k) && Waits(tr[n], j, k)
    ensures i == j
  {
    ExecutionKeepsInv(tr, n);
    var w := tr[n];
    if i in w.calls { CallIsOk(w, i); }
    if j in w.calls { CallIsOk(w, j); }
  }

  ghost predicate Waits(w: World, id: nat, k: string) {
    (id in w.s.armed && w.s.armed[id] == k) || (id in w.calls && w.calls[id] == Fired(k))
  }

  /** A callback starts a push only of a workspace that is still in the table. */
  lemma StartsPending(w: World, w': World, id: nat, k: string)
    requires Next(w, w') && id in w.calls && w.calls[id] == Fired(k) && id in w'.calls && w'.calls[id].Pushing?
    ensures k in w.s.pending
  {
    hide Stronger, Timers, Running, NotifyOn, StopOn;
    var ev :| Enabled(w, ev) && w' == Apply(w, ev);
  }

  lemma StoppedIsForgotten(w: World, id: nat, k: string)
    requires Inv(w) && w.s.stopped && id in w.calls && w.calls[id] == Fired(k)
    ensures k !in w.s.pending
  {
    CallIsOk(w, id);
  }

  /** Once the pusher has stopped no timer is armed and no push starts, whatever is notified. */
  lemma NothingStartsAfterStop(tr: seq<World>, m: nat, n: nat, k: string)
    requires IsExecution(tr) && m <= n && n + 1 < |tr| && tr[m].s.stopped
    ensures tr[n].s.armed == map[] && !StartsPush(tr[n], tr[n + 1], k)
  {
    StaysStopped(tr, m, n);
    ExecutionKeepsInv(tr, n);
    var w, w' := tr[n], tr[n + 1];
    assert Next(w, w');
    assert forall id :: id !in w.s.armed;
    hide IsExecution, Inv, Next;
    forall id | id in w.calls && w.calls[id] == Fired(k) ensures !(id in w'.calls && w'.calls[id].Pushing?) {
      StoppedIsForgotten(w, id, k);
      if id in w'.calls && w'.calls[id].Pushing? { StartsPending(w, w', id, k); }
    }
  }

  lemma EventKeepsOwed(w: World, w': World, k: string)
    requires Next(w, w') && k in w.owed && !StartsPush(w, w', k)
    ensures k in w'.owed
  {
    var ev :| Enabled(w, ev) && w' == Apply(w, ev);
    if ev.Ticks? && w.calls[ev.callback].Fired? { BeginIsStart(w, ev.callback, w.calls[ev.callback].key); }
    hide StartsPush, NotifyOn, BeginOn, EndOn, StopOn;
  }

  /** What counts as owed: from a notification other than a save on, until a push starts. */
  lemma {:induction false} OwedSince(tr: seq<World>, m: nat, n: nat, k: string, t: string)
    requires IsExecution(tr) && m < n < |tr| && Notifies(tr[m], tr[m + 1], k, t) && !tr[m].s.stopped && t != "" && t != "save"
    requires NoStart(tr, m + 1, n, k)
    ensures k in tr[n].owed
    decreases n
  {
    hide Next, StartsPush, NoStart;
    if m + 1 < n {
      NoStartBefore(tr, m + 1, n, k);
      OwedSince(tr, m, n - 1, k, t);
      EventKeepsOwed(tr[n - 1], tr[n], k);
    }
  }
}
