/**
  Any number of processes using, provisioning and re-wrapping data keys at once
  (daemon/encrypted_secrets.go), one store operation at a time. Tenants are not deleted.
 */
module KeyRaces {
  import opened Graphs
  import opened DataKeys

  datatype Process = Process(kek: nat, cache: map<string, nat>)

  /** What a call wants its data key for; a read has fetched its row first. */
  datatype Job = Storing(name: string, value: string) | Reading(name: string, row: Box<string>)

  datatype Call =
    | Asking(job: Job)                       // the cache comes next
    | Looking(job: Job)                      // then the store
    | Provisioning(job: Job, made: nat)      // which had no key
    | Rereading(job: Job)                    // another process was faster
    | Unwrapping(job: Job, box: Box<nat>)
    | Keyed(job: Job, dek: nat)
    | Done(job: Job)
    | Opened(job: Job, plain: string)
    | Failed(job: Job, tried: Option<Box<nat>>)  // the wrapped key that did not open, if that is why
    | Turning(newKek: nat)                   // a re-wrap of one tenant
    | Replacing(newBox: Box<nat>)
    | Turned

  /** A call belongs to a process and is about a tenant. */
  datatype Flight = Flight(process: nat, tenant: string, call: Call)

  /** `values` is what was last put in each row. */
  datatype World = World(deks: Wrapped, secrets: Rows, processes: map<nat, Process>, flights: map<nat, Flight>,
                         values: map<RowKey, string>)

  datatype Event =
    | Spawn(process: nat, kek: nat)
    | Put(call: nat, pid: nat, tenant: string, name: string, value: string)
    | Get(call: nat, pid: nat, tenant: string, name: string)
    | Rewrap(call: nat, pid: nat, tenant: string, newKek: nat)
    | Tick(call: nat, made: nat)

  predicate Enabled(w: World, ev: Event) {
    match ev
    case Spawn(p, _) => p !in w.processes
    case Put(c, p, _, _, _) => c !in w.flights && p in w.processes
    case Get(c, p, t, n) => c !in w.flights && p in w.processes && RowKey(t, n) in w.secrets
    case Rewrap(c, p, _, _) => c !in w.flights && p in w.processes
    case Tick(c, _) => c in w.flights && w.flights[c].process in w.processes
  }

  function Fly(w: World, c: nat, f: Flight, call: Call): World {
    w.(flights := w.flights[c := f.(call := call)])
  }

  function Lookup(deks: Wrapped, t: string): Option<Box<nat>> {
    if t in deks then Some(deks[t]) else None
  }

  /** The last step of a call that has its key. */
  function Use(w: World, c: nat, f: Flight, job: Job, dek: nat): World {
    match job
    case Storing(name, value) =>
      Fly(w.(secrets := w.secrets[RowKey(f.tenant, name) := Box(dek, SecretAAD(f.tenant, name), value)],
             values := w.values[RowKey(f.tenant, name) := value]), c, f, Done(job))
    case Reading(name, row) =>
      var plain := OpenBound(dek, row, SecretAAD(f.tenant, name));
      Fly(w, c, f, if plain.Some? then Opened(job, plain.value) else Failed(job, None))
  }

  function TickOn(w: World, c: nat, made: nat): World
    requires c in w.flights && w.flights[c].process in w.processes
  {
    var f := w.flights[c];
    var t, p := f.tenant, w.processes[f.process];
    match f.call
    case Asking(job) => Fly(w, c, f, if t in p.cache then Keyed(job, p.cache[t]) else Looking(job))
    case Looking(job) =>
      var row := Lookup(w.deks, t);
      Fly(w, c, f, if row.Some? then Unwrapping(job, row.value) else Provisioning(job, made))
    case Provisioning(job, dek) =>
      if t in w.deks then Fly(w, c, f, Rereading(job))
      else
        var box := Box(p.kek, DekAAD(t), dek);
        Fly(w.(deks := w.deks[t := box]), c, f, Unwrapping(job, box))
    case Rereading(job) =>
      var row := Lookup(w.deks, t);
      Fly(w, c, f, if row.Some? then Unwrapping(job, row.value) else Failed(job, None))
    case Unwrapping(job, box) =>
      var dek := OpenBound(p.kek, box, DekAAD(t));
      if dek.None? then Fly(w, c, f, Failed(job, Some(box)))
      else Fly(w.(processes := w.processes[f.process := p.(cache := p.cache[t := dek.value])]), c, f, Keyed(job, dek.value))
    case Keyed(job, dek) => Use(w, c, f, job, dek)
    case Done(_) => w
    case Opened(_, _) => w
    case Failed(_, _) => w
    case Turning(newKek) =>
      var row := Lookup(w.deks, t);
      if row.None? then Fly(w, c, f, Turned)
      else
        var dek := OpenBound(p.kek, row.value, DekAAD(t));
        Fly(w, c, f, if dek.Some? then Replacing(Box(newKek, DekAAD(t), dek.value)) else Turned)
    case Replacing(box) =>
      Fly(if t in w.deks then w.(deks := w.deks[t := box]) else w, c, f, Turned)
    case Turned => w
  }

  function Apply(w: World, ev: Event): World
    requires Enabled(w, ev)
  {
    match ev
    case Spawn(p, kek) => w.(processes := w.processes[p := Process(kek, map[])])
    case Put(c, p, t, n, v) => w.(flights := w.flights[c := Flight(p, t, Asking(Storing(n, v)))])
    case Get(c, p, t, n) => w.(flights := w.flights[c := Flight(p, t, Asking(Reading(n, w.secrets[RowKey(t, n)])))])
    case Rewrap(c, p, t, newKek) => w.(flights := w.flights[c := Flight(p, t, Turning(newKek))])
    case Tick(c, made) => TickOn(w, c, made)
  }

  ghost predicate Next(w: World, w': World) {
    exists ev :: Enabled(w, ev) && w' == Apply(w, ev)
  }

  ghost predicate IsExecution(tr: seq<World>) {
    && tr != [] && tr[0] == World(map[], map[], map[], map[], map[])
    && forall i, j :: 0 <= i < j < |tr| && j == i + 1 ==> Next(tr[i], tr[j])
  }

  // ----- one key per tenant

  /** `dek` is the tenant's key. */
  ghost predicate IsKey(deks: Wrapped, t: string, dek: nat) {
    t in deks && deks[t].plain == dek
  }

  /** A row sealed with its tenant's key for its own place. */
  ghost predicate SealedFor(deks: Wrapped, t: string, name: string, row: Box<string>) {
    IsKey(deks, t, row.key) && row.aad == SecretAAD(t, name)
  }

  ghost predicate JobOk(deks: Wrapped, t: string, job: Job) {
    job.Reading? ==> SealedFor(deks, t, job.name, job.row)
  }

  /** `kek` is the master key of the call's process. */
  ghost predicate FlightOk(deks: Wrapped, kek: nat, f: Flight) {
    match f.call
    case Asking(job) => JobOk(deks, f.tenant, job)
    case Looking(job) => JobOk(deks, f.tenant, job)
    case Provisioning(job, _) => JobOk(deks, f.tenant, job)
    case Rereading(job) => JobOk(deks, f.tenant, job) && f.tenant in deks
    case Unwrapping(job, box) => JobOk(deks, f.tenant, job) && IsKey(deks, f.tenant, box.plain)
    case Keyed(job, dek) => JobOk(deks, f.tenant, job) && IsKey(deks, f.tenant, dek)
    case Opened(job, plain) => job.Reading? && plain == job.row.plain
    case Failed(_, tried) => tried.Some? && IsKey(deks, f.tenant, tried.value.plain) && OpenBound(kek, tried.value, DekAAD(f.tenant)).None?
    case Replacing(box) => IsKey(deks, f.tenant, box.plain)
    case _ => true
  }

  ghost predicate CachesOk(w: World) {
    forall p, t :: p in w.processes && t in w.processes[p].cache ==> IsKey(w.deks, t, w.processes[p].cache[t])
  }

  ghost predicate FlightsOk(w: World) {
    forall c :: c in w.flights ==> FlightFits(w, w.flights[c])
  }

  ghost predicate FlightFits(w: World, f: Flight) {
    f.process in w.processes && FlightOk(w.deks, w.processes[f.process].kek, f)
  }

  ghost predicate RowsOk(w: World) {
    forall k :: k in w.secrets ==>
      SealedFor(w.deks, k.tenant, k.name, w.secrets[k]) && k in w.values && w.secrets[k].plain == w.values[k]
  }

  ghost predicate Inv(w: World) {
    CachesOk(w) && FlightsOk(w) && RowsOk(w)
  }

  /** Keys are added and re-wrapped, never changed. */
  ghost predicate KeepsKeys(deks: Wrapped, deks': Wrapped) {
    forall t :: t in deks ==> IsKey(deks', t, deks[t].plain)
  }

  lemma FlightStays(deks: Wrapped, deks': Wrapped, kek: nat, f: Flight)
    requires FlightOk(deks, kek, f) && KeepsKeys(deks, deks')
    ensures FlightOk(deks', kek, f)
  {
  }

  /** A change of keys that keeps them keeps everything that depends on them. */
  lemma KeysKeepInv(w: World, deks': Wrapped)
    requires Inv(w) && KeepsKeys(w.deks, deks')
    ensures Inv(w.(deks := deks'))
  {
    hide FlightOk;
    forall c | c in w.flights ensures FlightFits(w.(deks := deks'), w.flights[c]) {
      FlightStays(w.deks, deks', w.processes[w.flights[c].process].kek, w.flights[c]);
    }
  }

  lemma FlyKeepsInv(w: World, c: nat, f: Flight, call: Call)
    requires Inv(w) && FlightFits(w, f.(call := call))
    ensures Inv(Fly(w, c, f, call))
  {
    hide FlightOk, IsKey;
  }

  lemma CacheKeepsInv(w: World, p: nat, t: string, dek: nat)
    requires Inv(w) && p in w.processes && IsKey(w.deks, t, dek)
    ensures Inv(w.(processes := w.processes[p := w.processes[p].(cache := w.processes[p].cache[t := dek])]))
  {
    hide FlightOk, IsKey, RowsOk;
    var w' := w.(processes := w.processes[p := w.processes[p].(cache := w.processes[p].cache[t := dek])]);
    assert RowsOk(w') by { RowsOnly(w, w'); }
  }

  lemma RowsOnly(w: World, w': World)
    requires RowsOk(w) && w'.deks == w.deks && w'.secrets == w.secrets && w'.values == w.values
    ensures RowsOk(w')
  {
  }

  lemma StoreKeepsInv(w: World, t: string, name: string, value: string, dek: nat)
    requires Inv(w) && IsKey(w.deks, t, dek)
    ensures Inv(w.(secrets := w.secrets[RowKey(t, name) := Box(dek, SecretAAD(t, name), value)], values := w.values[RowKey(t, name) := value]))
  {
    hide FlightOk;
  }

  lemma UseKeepsInv(w: World, c: nat, job: Job, dek: nat)
    requires Inv(w) && c in w.flights && w.flights[c].call == Keyed(job, dek)
    ensures Inv(Use(w, c, w.flights[c], job, dek))
  {
    var f := w.flights[c];
    assert FlightFits(w, f);
    hide Inv;
    match job
    case Storing(name, value) =>
      StoreKeepsInv(w, f.tenant, name, value, dek);
      var w1 := w.(secrets := w.secrets[RowKey(f.tenant, name) := Box(dek, SecretAAD(f.tenant, name), value)],
                   values := w.values[RowKey(f.tenant, name) := value]);
      FlyKeepsInv(w1, c, f, Done(job));
    case Reading(name, row) =>
      var plain := OpenBound(dek, row, SecretAAD(f.tenant, name));
      FlyKeepsInv(w, c, f, Opened(job, plain.value));
  }

  lemma TickKeepsInv(w: World, c: nat, made: nat)
    requires Inv(w) && Enabled(w, Tick(c, made))
    ensures Inv(TickOn(w, c, made)) && KeepsKeys(w.deks, TickOn(w, c, made).deks)
  {
    var f := w.flights[c];
    assert FlightFits(w, f);
    var t, p := f.tenant, w.processes[f.process];
    assert t in p.cache ==> IsKey(w.deks, t, p.cache[t]);
    hide Inv, DekAAD;
    match f.call
    case Asking(job) => FlyKeepsInv(w, c, f, if t in p.cache then Keyed(job, p.cache[t]) else Looking(job));
    case Looking(job) =>
      var row := Lookup(w.deks, t);
      FlyKeepsInv(w, c, f, if row.Some? then Unwrapping(job, row.value) else Provisioning(job, made));
    case Provisioning(job, dek) =>
      if t in w.deks { FlyKeepsInv(w, c, f, Rereading(job)); }
      else {
        var box := Box(p.kek, DekAAD(t), dek);
        KeysKeepInv(w, w.deks[t := box]);
        FlyKeepsInv(w.(deks := w.deks[t := box]), c, f, Unwrapping(job, box));
      }
    case Rereading(job) =>
      FlyKeepsInv(w, c, f, Unwrapping(job, w.deks[t]));
    case Unwrapping(job, box) => UnwrapKeepsInv(w, c, job, box);
    case Keyed(job, dek) => UseKeepsInv(w, c, job, dek);
    case Turning(newKek) => TurnKeepsInv(w, c, newKek);
    case Replacing(box) =>
      if t in w.deks {
        KeysKeepInv(w, w.deks[t := box]);
        FlyKeepsInv(w.(deks := w.deks[t := box]), c, f, Turned);
      } else {
        FlyKeepsInv(w, c, f, Turned);
      }
    case _ =>
  }

  lemma TurnKeepsInv(w: World, c: nat, newKek: nat)
    requires Inv(w) && c in w.flights && w.flights[c].call == Turning(newKek) && w.flights[c].process in w.processes
    ensures Inv(TickOn(w, c, 0)) && TickOn(w, c, 0).deks == w.deks
  {
    hide Inv, DekAAD;
    var f := w.flights[c];
    var t, p, row := f.tenant, w.processes[f.process], Lookup(w.deks, f.tenant);
    FlyKeepsInv(w, c, f, Turned);
    if row.Some? && OpenBound(p.kek, row.value, DekAAD(t)).Some? {
      FlyKeepsInv(w, c, f, Replacing(Box(newKek, DekAAD(t), OpenBound(p.kek, row.value, DekAAD(t)).value)));
    }
  }

  lemma UnwrapKeepsInv(w: World, c: nat, job: Job, box: Box<nat>)
    requires Inv(w) && c in w.flights && w.flights[c].call == Unwrapping(job, box) && w.flights[c].process in w.processes
    requires FlightFits(w, w.flights[c])
    ensures Inv(TickOn(w, c, 0)) && TickOn(w, c, 0).deks == w.deks
  {
    hide Inv;
    var f := w.flights[c];
    var t, p := f.tenant, w.processes[f.process];
    var dek := OpenBound(p.kek, box, DekAAD(t));
    if dek.None? {
      FlyKeepsInv(w, c, f, Failed(job, Some(box)));
    } else {
      CacheKeepsInv(w, f.process, t, dek.value);
      FlyKeepsInv(w.(processes := w.processes[f.process := p.(cache := p.cache[t := dek.value])]), c, f, Keyed(job, dek.value));
    }
  }

  lemma SpawnKeepsInv(w: World, p: nat, kek: nat)
    requires Inv(w) && p !in w.processes
    ensures Inv(w.(processes := w.processes[p := Process(kek, map[])]))
  {
    hide FlightOk, IsKey, SealedFor;
  }

  lemma SameKeysKept(deks: Wrapped)
    ensures KeepsKeys(deks, deks)
  {
  }

  lemma RowIsSealed(w: World, k: RowKey)
    requires Inv(w) && k in w.secrets
    ensures SealedFor(w.deks, k.tenant, k.name, w.secrets[k]) && k in w.values && w.secrets[k].plain == w.values[k]
  {
  }

  lemma EventKeepsInv(w: World, w': World)
    requires Inv(w) && Next(w, w')
    ensures Inv(w') && KeepsKeys(w.deks, w'.deks)
  {
    hide TickOn, Inv, KeepsKeys, SealedFor;
    SameKeysKept(w.deks);
    var ev :| Enabled(w, ev) && w' == Apply(w, ev);
    match ev
    case Spawn(p, kek) => SpawnKeepsInv(w, p, kek);
    case Put(c, p, t, n, v) => FlyKeepsInv(w, c, Flight(p, t, Turned), Asking(Storing(n, v)));
    case Get(c, p, t, n) =>
      RowIsSealed(w, RowKey(t, n));
      FlyKeepsInv(w, c, Flight(p, t, Turned), Asking(Reading(n, w.secrets[RowKey(t, n)])));
    case Rewrap(c, p, t, newKek) => FlyKeepsInv(w, c, Flight(p, t, Turned), Turning(newKek));
    case Tick(c, made) => TickKeepsInv(w, c, made);
  }

  lemma {:induction false} ExecutionKeepsInv(tr: seq<World>, n: nat)
    requires IsExecution(tr) && n < |tr|
    ensures Inv(tr[n])
  {
    hide Next;
    if n > 0 {
      ExecutionKeepsInv(tr, n - 1);
      EventKeepsInv(tr[n - 1], tr[n]);
    }
  }

  /** Once a tenant has a key it keeps that key, whoever provisions, races or re-wraps. */
  lemma {:induction false} KeyNeverChanges(tr: seq<World>, m: nat, n: nat, t: string)
    requires IsExecution(tr) && m <= n < |tr| && t in tr[m].deks
    ensures IsKey(tr[n].deks, t, tr[m].deks[t].plain)
  {
    hide Next;
    if m < n {
      KeyNeverChanges(tr, m, n - 1, t);
      ExecutionKeepsInv(tr, n - 1);
      EventKeepsInv(tr[n - 1], tr[n]);
    }
  }

  /** Processes that race on a tenant's first use all end up with the same key. */
  lemma SameKeyEverywhere(tr: seq<World>, m: nat, n: nat, p: nat, q: nat, t: string)
    requires IsExecution(tr) && m <= n < |tr| && p in tr[m].processes && q in tr[n].processes
    requires t in tr[m].processes[p].cache && t in tr[n].processes[q].cache
    ensures tr[m].processes[p].cache[t] == tr[n].processes[q].cache[t]
  {
    ExecutionKeepsInv(tr, m);
    ExecutionKeepsInv(tr, n);
    assert IsKey(tr[m].deks, t, tr[m].processes[p].cache[t]);
    KeyNeverChanges(tr, m, n, t);
    assert IsKey(tr[n].deks, t, tr[n].processes[q].cache[t]);
  }

  /** A call that failed because the tenant's wrapped key did not open under the master key of its process. */
  ghost predicate LacksMasterKey(w: World, f: Flight)
    requires f.call.Failed?
  {
    && f.process in w.processes && f.call.tried.Some? && IsKey(w.deks, f.tenant, f.call.tried.value.plain)
    && OpenBound(w.processes[f.process].kek, f.call.tried.value, DekAAD(f.tenant)).None?
  }

  /**
    A value put by one process is read by all: a read that starts at `m` takes the value last put there,
    whichever process put it, and if it ever fails it is for want of the master key, never because the
    data key it got is the wrong one.
   */
  lemma PutIsReadByAll(tr: seq<World>, m: nat, n: nat, c: nat, p: nat, t: string, name: string)
    requires IsExecution(tr) && m < n < |tr|
    requires Enabled(tr[m], Get(c, p, t, name)) && tr[m + 1] == Apply(tr[m], Get(c, p, t, name))
    ensures c in tr[n].flights && tr[n].flights[c].tenant == t
    ensures RowKey(t, name) in tr[m].values
    ensures tr[n].flights[c].call.Opened? ==> tr[n].flights[c].call.plain == tr[m].values[RowKey(t, name)]
    ensures tr[n].flights[c].call.Keyed? ==>
              Enabled(tr[n], Tick(c, 0)) && Apply(tr[n], Tick(c, 0)).flights[c].call.Opened?
    ensures tr[n].flights[c].call.Failed? ==> LacksMasterKey(tr[n], tr[n].flights[c])
  {
    ExecutionKeepsInv(tr, m);
    ExecutionKeepsInv(tr, n);
    JobStays(tr, m + 1, n, c, t, Reading(name, tr[m].secrets[RowKey(t, name)]));
    assert FlightFits(tr[n], tr[n].flights[c]);
  }

  function JobOf(call: Call): Option<Job> {
    match call
    case Turning(_) => None
    case Replacing(_) => None
    case Turned => None
    case Asking(job) => Some(job)
    case Looking(job) => Some(job)
    case Provisioning(job, _) => Some(job)
    case Rereading(job) => Some(job)
    case Unwrapping(job, _) => Some(job)
    case Keyed(job, _) => Some(job)
    case Done(job) => Some(job)
    case Opened(job, _) => Some(job)
    case Failed(job, _) => Some(job)
  }

  /** What a call has to do never changes. */
  ghost predicate Does(w: World, c: nat, t: string, job: Job) {
    c in w.flights && w.flights[c].tenant == t && JobOf(w.flights[c].call) == Some(job)
  }

  /** Only call `c` may have moved on, with the same job. */
  ghost predicate Moves(w: World, w': World, c: nat)
    requires c in w.flights
  {
    && w'.flights.Keys == w.flights.Keys
    && (forall d :: d in w.flights && d != c ==> w'.flights[d] == w.flights[d])
    && w'.flights[c].tenant == w.flights[c].tenant && JobOf(w'.flights[c].call) == JobOf(w.flights[c].call)
  }

  lemma FlyMoves(w: World, w1: World, c: nat, call: Call)
    requires c in w.flights && w1.flights == w.flights && JobOf(call) == JobOf(w.flights[c].call)
    ensures Moves(w, Fly(w1, c, w.flights[c], call), c)
  {
  }

  lemma StayMoves(w: World, c: nat)
    requires c in w.flights
    ensures Moves(w, w, c)
  {
  }

  lemma UseMoves(w: World, c: nat, job: Job, dek: nat)
    requires c in w.flights && JobOf(w.flights[c].call) == Some(job)
    ensures Moves(w, Use(w, c, w.flights[c], job, dek), c)
  {
    hide Moves, Fly, OpenBound, SecretAAD;
    var f := w.flights[c];
    match job
    case Storing(name, value) =>
      FlyMoves(w, w.(secrets := w.secrets[RowKey(f.tenant, name) := Box(dek, SecretAAD(f.tenant, name), value)],
                     values := w.values[RowKey(f.tenant, name) := value]), c, Done(job));
    case Reading(name, row) =>
      var plain := OpenBound(dek, row, SecretAAD(f.tenant, name));
      FlyMoves(w, w, c, if plain.Some? then Opened(job, plain.value) else Failed(job, None));
  }

  lemma TickMoves(w: World, c: nat, made: nat)
    requires c in w.flights && w.flights[c].process in w.processes
    ensures Moves(w, TickOn(w, c, made), c)
  {
    hide Moves, Fly, Use, OpenBound, DekAAD;
    var f := w.flights[c];
    var t, p := f.tenant, w.processes[f.process];
    var row := Lookup(w.deks, t);
    StayMoves(w, c);
    match f.call
    case Asking(job) => FlyMoves(w, w, c, if t in p.cache then Keyed(job, p.cache[t]) else Looking(job));
    case Looking(job) => FlyMoves(w, w, c, if row.Some? then Unwrapping(job, row.value) else Provisioning(job, made));
    case Provisioning(job, dek) =>
      FlyMoves(w, w, c, Rereading(job));
      var box := Box(p.kek, DekAAD(t), dek);
      FlyMoves(w, w.(deks := w.deks[t := box]), c, Unwrapping(job, box));
    case Rereading(job) => FlyMoves(w, w, c, if row.Some? then Unwrapping(job, row.value) else Failed(job, None));
    case Unwrapping(job, box) =>
      FlyMoves(w, w, c, Failed(job, Some(box)));
      var dek := OpenBound(p.kek, box, DekAAD(t));
      if dek.Some? {
        FlyMoves(w, w.(processes := w.processes[f.process := p.(cache := p.cache[t := dek.value])]), c, Keyed(job, dek.value));
      }
    case Keyed(job, dek) => UseMoves(w, c, job, dek);
    case Turning(newKek) =>
      FlyMoves(w, w, c, Turned);
      if row.Some? {
        var dek := OpenBound(p.kek, row.value, DekAAD(t));
        FlyMoves(w, w, c, if dek.Some? then Replacing(Box(newKek, DekAAD(t), dek.value)) else Turned);
      }
    case Replacing(box) => FlyMoves(w, if t in w.deks then w.(deks := w.deks[t := box]) else w, c, Turned);
    case _ =>
  }

  lemma EventKeepsJob(w: World, w': World, c: nat, t: string, job: Job)
    requires Does(w, c, t, job) && Next(w, w')
    ensures Does(w', c, t, job)
  {
    hide TickOn, JobOf;
    var ev :| Enabled(w, ev) && w' == Apply(w, ev);
    if ev.Tick? { TickMoves(w, ev.call, ev.made); }
  }

  lemma {:induction false} JobStays(tr: seq<World>, m: nat, n: nat, c: nat, t: string, job: Job)
    requires IsExecution(tr) && m <= n < |tr| && Does(tr[m], c, t, job)
    ensures Does(tr[n], c, t, job)
  {
    hide Next, Does;
    if m < n {
      JobStays(tr, m, n - 1, c, t, job);
      EventKeepsJob(tr[n - 1], tr[n], c, t, job);
    }
  }

  /** In this step a call stores `value` under the tenant's `name`. */
  ghost predicate StoresAt(w: World, w': World, c: nat, t: string, name: string, value: string) {
    && c in w.flights && w.flights[c].tenant == t && w.flights[c].call.Keyed? && w.flights[c].call.job == Storing(name, value)
    && c in w'.flights && w'.flights[c].call == Done(Storing(name, value))
  }

  /** Nothing is stored there between the two moments. */
  ghost predicate NoStore(tr: seq<World>, k: nat, m: nat, t: string, name: string)
    requires m < |tr|
  {
    forall i, j :: k <= i < j <= m && j == i + 1 ==> NothingStored(tr[i], tr[j], t, name)
  }

  ghost predicate NothingStored(w: World, w': World, t: string, name: string) {
    forall c, value :: !StoresAt(w, w', c, t, name, value)
  }

  lemma StoreWrites(w: World, w': World, c: nat, t: string, name: string, value: string)
    requires Next(w, w') && StoresAt(w, w', c, t, name, value)
    ensures RowKey(t, name) in w'.secrets && w'.secrets[RowKey(t, name)].plain == value
  {
    hide OpenBound, SecretAAD, DekAAD;
    var ev :| Enabled(w, ev) && w' == Apply(w, ev);
    if ev.Tick? && ev.call != c { TickMoves(w, ev.call, ev.made); }
  }

  /** A row changes only when something is stored there. */
  lemma RowKept(w: World, w': World, t: string, name: string)
    requires Next(w, w') && RowKey(t, name) in w.secrets && NothingStored(w, w', t, name)
    ensures RowKey(t, name) in w'.secrets && w'.secrets[RowKey(t, name)] == w.secrets[RowKey(t, name)]
  {
    hide OpenBound, SecretAAD, DekAAD;
    var ev :| Enabled(w, ev) && w' == Apply(w, ev);
    if ev.Tick? && w.flights[ev.call].call.Keyed? && w.flights[ev.call].call.job.Storing? {
      var f := w.flights[ev.call];
      assert StoresAt(w, w', ev.call, f.tenant, f.call.job.name, f.call.job.value);
    }
  }

  lemma NoStoreBefore(tr: seq<World>, k: nat, m: nat, t: string, name: string)
    requires k < m < |tr| && NoStore(tr, k, m, t, name)
    ensures NoStore(tr, k, m - 1, t, name) && NothingStored(tr[m - 1], tr[m], t, name)
  {
  }

  lemma {:induction false} RowStays(tr: seq<World>, k: nat, m: nat, c: nat, t: string, name: string, value: string)
    requires IsExecution(tr) && k < m < |tr| && StoresAt(tr[k], tr[k + 1], c, t, name, value) && NoStore(tr, k + 1, m, t, name)
    ensures RowKey(t, name) in tr[m].secrets && tr[m].secrets[RowKey(t, name)].plain == value
    decreases m
  {
    hide Next, StoresAt, NoStore, NothingStored;
    if m == k + 1 { StoreWrites(tr[k], tr[m], c, t, name, value); }
    else {
      NoStoreBefore(tr, k + 1, m, t, name);
      RowStays(tr, k, m - 1, c, t, name, value);
      RowKept(tr[m - 1], tr[m], t, name);
    }
  }

  /**
    What was stored last is what every process reads: a read that starts after a put of `value` with no other
    in between can start, and if it comes to an answer that is `value`; it fails only for want of the master key.
   */
  lemma LastPutIsRead(tr: seq<World>, k: nat, m: nat, n: nat, c0: nat, c: nat, p: nat, t: string, name: string, value: string)
    requires IsExecution(tr) && k < m < n < |tr|
    requires StoresAt(tr[k], tr[k + 1], c0, t, name, value) && NoStore(tr, k + 1, m, t, name)
    requires c !in tr[m].flights && p in tr[m].processes
    ensures Enabled(tr[m], Get(c, p, t, name))
    ensures tr[m + 1] == Apply(tr[m], Get(c, p, t, name)) ==>
              && c in tr[n].flights
              && (tr[n].flights[c].call.Opened? ==> tr[n].flights[c].call.plain == value)
              && (tr[n].flights[c].call.Failed? ==> LacksMasterKey(tr[n], tr[n].flights[c]))
  {
    RowStays(tr, k, m, c0, t, name, value);
    hide StoresAt, NoStore, LacksMasterKey;
    if tr[m + 1] == Apply(tr[m], Get(c, p, t, name)) {
      PutIsReadByAll(tr, m, n, c, p, t, name);
      ExecutionKeepsInv(tr, m);
      RowIsSealed(tr[m], RowKey(t, name));
    }
  }

  // ----- re-wrapping while others work

  /** Everything happens under one of two master keys, and re-wraps go to the new one. */
  ghost predicate TwoKeks(w: World, oldKek: nat, newKek: nat) {
    && (forall p :: p in w.processes ==> w.processes[p].kek == oldKek || w.processes[p].kek == newKek)
    && (forall c :: c in w.flights && w.flights[c].call.Turning? ==> w.flights[c].call.newKek == newKek)
  }

  ghost predicate WrapsOk(w: World, oldKek: nat, newKek: nat) {
    && Recoverable(w.deks, oldKek, newKek)
    && (forall c :: c in w.flights ==> Replaces(w.flights[c], newKek))
  }

  lemma BoundOpens(deks: Wrapped, t: string, box: Box<nat>, oldKek: nat, newKek: nat)
    requires Recoverable(deks, oldKek, newKek) && box.aad == DekAAD(t) && (box.key == oldKek || box.key == newKek)
    ensures Recoverable(deks[t := box], oldKek, newKek)
  {
    var deks' := deks[t := box];
    forall x | x in deks' ensures Opens(deks', x, oldKek) || Opens(deks', x, newKek) {
      if x != t { assert Opens(deks, x, oldKek) || Opens(deks, x, newKek); }
    }
  }

  /** What a call is replacing a wrapped key with is bound and under the new master key. */
  ghost predicate Replaces(f: Flight, newKek: nat) {
    f.call.Replacing? ==> f.call.newBox.key == newKek && f.call.newBox.aad == DekAAD(f.tenant)
  }

  lemma FlyKeepsWraps(w: World, c: nat, f: Flight, call: Call, oldKek: nat, newKek: nat)
    requires WrapsOk(w, oldKek, newKek) && Replaces(f.(call := call), newKek)
    ensures WrapsOk(Fly(w, c, f, call), oldKek, newKek)
  {
    hide Recoverable, DekAAD;
  }

  lemma WrapKeepsWraps(w: World, t: string, box: Box<nat>, oldKek: nat, newKek: nat)
    requires WrapsOk(w, oldKek, newKek) && box.aad == DekAAD(t) && (box.key == oldKek || box.key == newKek)
    ensures WrapsOk(w.(deks := w.deks[t := box]), oldKek, newKek)
  {
    hide Recoverable, DekAAD;
    BoundOpens(w.deks, t, box, oldKek, newKek);
  }

  lemma UseKeepsWraps(w: World, c: nat, f: Flight, job: Job, dek: nat, oldKek: nat, newKek: nat)
    requires WrapsOk(w, oldKek, newKek)
    ensures WrapsOk(Use(w, c, f, job, dek), oldKek, newKek)
  {
    hide Recoverable, DekAAD, OpenBound, SecretAAD;
  }

  lemma TickKeepsWraps(w: World, c: nat, made: nat, oldKek: nat, newKek: nat)
    requires Enabled(w, Tick(c, made)) && TwoKeks(w, oldKek, newKek) && WrapsOk(w, oldKek, newKek)
    ensures WrapsOk(TickOn(w, c, made), oldKek, newKek)
  {
    var f := w.flights[c];
    var t, p := f.tenant, w.processes[f.process];
    assert Replaces(f, newKek) && (f.call.Turning? ==> f.call.newKek == newKek) && (p.kek == oldKek || p.kek == newKek);
    var row := Lookup(w.deks, t);
    hide WrapsOk, TwoKeks, Fly, Use, OpenBound, DekAAD;
    match f.call
    case Asking(job) => FlyKeepsWraps(w, c, f, if t in p.cache then Keyed(job, p.cache[t]) else Looking(job), oldKek, newKek);
    case Looking(job) => FlyKeepsWraps(w, c, f, if row.Some? then Unwrapping(job, row.value) else Provisioning(job, made), oldKek, newKek);
    case Provisioning(job, dek) =>
      FlyKeepsWraps(w, c, f, Rereading(job), oldKek, newKek);
      var box := Box(p.kek, DekAAD(t), dek);
      WrapKeepsWraps(w, t, box, oldKek, newKek);
      FlyKeepsWraps(w.(deks := w.deks[t := box]), c, f, Unwrapping(job, box), oldKek, newKek);
    case Rereading(job) => FlyKeepsWraps(w, c, f, if row.Some? then Unwrapping(job, row.value) else Failed(job, None), oldKek, newKek);
    case Unwrapping(job, box) =>
      FlyKeepsWraps(w, c, f, Failed(job, Some(box)), oldKek, newKek);
      var dek := OpenBound(p.kek, box, DekAAD(t));
      if dek.Some? {
        var w1 := w.(processes := w.processes[f.process := p.(cache := p.cache[t := dek.value])]);
        SameWraps(w, w1, oldKek, newKek);
        FlyKeepsWraps(w1, c, f, Keyed(job, dek.value), oldKek, newKek);
      }
    case Keyed(job, dek) => UseKeepsWraps(w, c, f, job, dek, oldKek, newKek);
    case Turning(kek) =>
      FlyKeepsWraps(w, c, f, Turned, oldKek, newKek);
      if row.Some? {
        var dek := OpenBound(p.kek, row.value, DekAAD(t));
        FlyKeepsWraps(w, c, f, if dek.Some? then Replacing(Box(kek, DekAAD(t), dek.value)) else Turned, oldKek, newKek);
      }
    case Replacing(box) =>
      WrapKeepsWraps(w, t, box, oldKek, newKek);
      FlyKeepsWraps(if t in w.deks then w.(deks := w.deks[t := box]) else w, c, f, Turned, oldKek, newKek);
    case _ =>
  }

  lemma SameWraps(w: World, w': World, oldKek: nat, newKek: nat)
    requires WrapsOk(w, oldKek, newKek) && w'.deks == w.deks && w'.flights == w.flights
    ensures WrapsOk(w', oldKek, newKek)
  {
  }

  lemma EventKeepsWraps(w: World, w': World, oldKek: nat, newKek: nat)
    requires Next(w, w') && TwoKeks(w, oldKek, newKek) && WrapsOk(w, oldKek, newKek)
    ensures WrapsOk(w', oldKek, newKek)
  {
    hide TickOn, Recoverable, DekAAD;
    var ev :| Enabled(w, ev) && w' == Apply(w, ev);
    if ev.Tick? { TickKeepsWraps(w, ev.call, ev.made, oldKek, newKek); }
  }

  /**
    However re-wraps to the new master key interleave with processes still on the old one, every data
    key there is can be recovered under one of the two at every moment.
   */
  lemma {:induction false} AlwaysRecoverable(tr: seq<World>, n: nat, oldKek: nat, newKek: nat)
    requires IsExecution(tr) && n < |tr| && forall i :: 0 <= i <= n ==> TwoKeks(tr[i], oldKek, newKek)
    ensures WrapsOk(tr[n], oldKek, newKek) && Recoverable(tr[n].deks, oldKek, newKek)
  {
    hide Next, TwoKeks;
    if n > 0 {
      AlwaysRecoverable(tr, n - 1, oldKek, newKek);
      EventKeepsWraps(tr[n - 1], tr[n], oldKek, newKek);
    }
  }

  // ----- a call that nothing disturbs

  /** The call has its data key, or has failed to get one. */
  predicate Settled(call: Call) {
    call.Keyed? || call.Failed?
  }

  /** Up to `n` steps of call `c` alone, until it has its key or has failed. */
  function Settle(w: World, c: nat, made: nat, n: nat): World
    requires c in w.flights && w.flights[c].process in w.processes
    decreases n
  {
    if n == 0 || Settled(w.flights[c].call) then w
    else
      var w' := TickOn(w, c, made);
      if c in w'.flights && w'.flights[c].process in w'.processes then Settle(w', c, made, n - 1) else w'
  }

  /** `w'` is `w` after call `c` has come by its key, or failed to, as the sequential operation does. */
  ghost predicate GetsKey(w: World, w': World, c: nat, job: Job, key: Option<nat>, deks: Wrapped)
    requires c in w.flights && w.flights[c].process in w.processes
  {
    var f := w.flights[c];
    var p := w.processes[f.process];
    && c in w'.flights && w'.flights[c].process == f.process && w'.flights[c].tenant == f.tenant
    && f.process in w'.processes && w'.processes[f.process] == p.(cache := CacheAfter(p.cache, f.tenant, key))
    && w'.deks == deks && w'.secrets == w.secrets
    && (if key.Some? then w'.flights[c].call == Keyed(job, key.value)
        else w'.flights[c].call.Failed? && w'.flights[c].call.job == job)
  }

  /** The steps of a call that nothing disturbs are one `DekFor`: they come by the same key and leave the same store and cache. */
  lemma StepsAreDekFor(w: World, c: nat, job: Job, made: nat)
    requires c in w.flights && w.flights[c].process in w.processes && w.flights[c].call == Asking(job)
    ensures var f, p := w.flights[c], w.processes[w.flights[c].process];
            GetsKey(w, Settle(w, c, made, 4), c, job, KeyFor(p.kek, p.cache, w.deks, f.tenant, made, None),
                    DeksAfter(p.kek, p.cache, w.deks, f.tenant, made, None))
  {
    hide DekAAD;
    var f, p := w.flights[c], w.processes[w.flights[c].process];
    var w1 := TickOn(w, c, made);
    assert Settle(w, c, made, 4) == Settle(w1, c, made, 3);
    if f.tenant in p.cache {
      assert p.cache[f.tenant := p.cache[f.tenant]] == p.cache;
    } else {
      var w2 := TickOn(w1, c, made);
      assert Settle(w1, c, made, 3) == Settle(w2, c, made, 2);
      if f.tenant in w.deks {
        SettleUnwraps(w2, c, job, w.deks[f.tenant], made, 2);
      } else {
        var w3 := TickOn(w2, c, made);
        assert Settle(w2, c, made, 2) == Settle(w3, c, made, 1);
        SettleUnwraps(w3, c, job, Box(p.kek, DekAAD(f.tenant), made), made, 1);
      }
    }
  }

  lemma SettleUnwraps(w: World, c: nat, job: Job, box: Box<nat>, made: nat, n: nat)
    requires c in w.flights && w.flights[c].process in w.processes && w.flights[c].call == Unwrapping(job, box) && n > 0
    ensures var f, p := w.flights[c], w.processes[w.flights[c].process];
            GetsKey(w, Settle(w, c, made, n), c, job, OpenBound(p.kek, box, DekAAD(f.tenant)), w.deks)
  {
    hide DekAAD, OpenBound;
    var w1 := TickOn(w, c, made);
    assert Settled(w1.flights[c].call);
    assert Settle(w, c, made, n) == Settle(w1, c, made, n - 1) == w1;
  }

  /** And one that another process beats to the provisioning is a `DekFor` with that rival. */
  lemma StepsAreRacedDekFor(w: World, c: nat, job: Job, made: nat)
    requires c in w.flights && w.flights[c].process in w.processes && w.flights[c].call == Provisioning(job, made)
    requires var f := w.flights[c]; f.tenant in w.deks && f.tenant !in w.processes[f.process].cache
    ensures var f, p := w.flights[c], w.processes[w.flights[c].process];
            var before := w.deks - {f.tenant};
            GetsKey(w, Settle(w, c, made, 3), c, job, KeyFor(p.kek, p.cache, before, f.tenant, made, Some(w.deks[f.tenant])),
                    DeksAfter(p.kek, p.cache, before, f.tenant, made, Some(w.deks[f.tenant])))
  {
    hide DekAAD;
    var f, p := w.flights[c], w.processes[w.flights[c].process];
    var w1 := TickOn(w, c, made);
    var w2 := TickOn(w1, c, made);
    assert Settle(w, c, made, 3) == Settle(w1, c, made, 2) == Settle(w2, c, made, 1);
    SettleUnwraps(w2, c, job, w.deks[f.tenant], made, 1);
    assert (w.deks - {f.tenant})[f.tenant := w.deks[f.tenant]] == w.deks;
  }

  /**
    A whole call that nothing disturbs is one `Put` or one `GetRaw`: it leaves the store and the cache
    they leave, and a read comes to the same value or to none.
   */
  lemma StepsArePutAndGet(w: World, c: nat, job: Job, made: nat)
    requires c in w.flights && w.flights[c].process in w.processes && w.flights[c].call == Asking(job)
    ensures var f, p := w.flights[c], w.processes[w.flights[c].process];
            var key := KeyFor(p.kek, p.cache, w.deks, f.tenant, made, None);
            var w' := Settle(w, c, made, 4);
            && Enabled(w', Tick(c, 0))
            && var w'' := TickOn(w', c, 0);
            && w''.deks == DeksAfter(p.kek, p.cache, w.deks, f.tenant, made, None)
            && f.process in w''.processes && w''.processes[f.process].cache == CacheAfter(p.cache, f.tenant, key)
            && c in w''.flights && w''.secrets == Written(w.secrets, f.tenant, job, key)
            && (job.Reading? ==> Answer(w''.flights[c].call) == Read(f.tenant, job, key))
  {
    hide DekAAD, SecretAAD, OpenBound, Settle, KeyFor, DeksAfter, CacheAfter;
    StepsAreDekFor(w, c, job, made);
  }

  function Written(secrets: Rows, t: string, job: Job, key: Option<nat>): Rows {
    if job.Storing? && key.Some? then secrets[RowKey(t, job.name) := Box(key.value, SecretAAD(t, job.name), job.value)] else secrets
  }

  function Read(t: string, job: Job, key: Option<nat>): Option<string>
    requires job.Reading?
  {
    if key.None? then None else OpenBound(key.value, job.row, SecretAAD(t, job.name))
  }

  function Answer(call: Call): Option<string> {
    if call.Opened? then Some(call.plain) else None
  }

  /** The steps of a re-wrap that nothing disturbs bind the tenant's key under the new master key, or leave it alone if it does not open. */
  lemma StepsAreRewrap(w: World, c: nat, newKek: nat)
    requires c in w.flights && w.flights[c].process in w.processes && w.flights[c].call == Turning(newKek)
    ensures var t, kek := w.flights[c].tenant, w.processes[w.flights[c].process].kek;
            var w1 := TickOn(w, c, 0);
            && c in w1.flights && w1.flights[c].process in w1.processes
            && var w2 := TickOn(w1, c, 0);
            && c in w2.flights && w2.flights[c].call == Turned && w2.secrets == w.secrets && w2.processes == w.processes
            && w2.deks == if t in w.deks then w.deks[t := TurnedTo(t, w.deks[t], kek, newKek)] else w.deks
  {
    var t, kek := w.flights[c].tenant, w.processes[w.flights[c].process].kek;
    assert DekAAD(t) == "dazyflow/dek/v1\0" + t;
    hide DekAAD;
    if t in w.deks && OpenBound(kek, w.deks[t], DekAAD(t)).None? { assert w.deks[t := w.deks[t]] == w.deks; }
  }

  /** A put that nothing disturbs, from its start on: with the tenant's key it stores the value sealed for its place, and without it nothing. */
  lemma UndisturbedPut(w: World, c: nat, p: nat, t: string, n: string, v: string, made: nat)
    requires Enabled(w, Put(c, p, t, n, v))
    ensures var key := KeyFor(w.processes[p].kek, w.processes[p].cache, w.deks, t, made, None);
            var w' := Settle(Apply(w, Put(c, p, t, n, v)), c, made, 4);
            && Enabled(w', Tick(c, 0))
            && TickOn(w', c, 0).secrets == if key.Some? then w.secrets[RowKey(t, n) := Box(key.value, SecretAAD(t, n), v)] else w.secrets
  {
    StepsArePutAndGet(Apply(w, Put(c, p, t, n, v)), c, Storing(n, v), made);
    hide Settle, KeyFor, DeksAfter, CacheAfter, SecretAAD, TickOn;
  }

  /** A read that nothing disturbs, from its start on: with the tenant's key it opens the stored row for its place, and without it fails. */
  lemma UndisturbedGet(w: World, c: nat, p: nat, t: string, n: string, made: nat)
    requires Enabled(w, Get(c, p, t, n))
    ensures var key := KeyFor(w.processes[p].kek, w.processes[p].cache, w.deks, t, made, None);
            var w' := Settle(Apply(w, Get(c, p, t, n)), c, made, 4);
            && Enabled(w', Tick(c, 0))
            && var w'' := TickOn(w', c, 0);
            && w''.secrets == w.secrets && c in w''.flights
            && Answer(w''.flights[c].call) == if key.Some? then OpenBound(key.value, w.secrets[RowKey(t, n)], SecretAAD(t, n)) else None
  {
    StepsArePutAndGet(Apply(w, Get(c, p, t, n)), c, Reading(n, w.secrets[RowKey(t, n)]), made);
    hide Settle, KeyFor, DeksAfter, CacheAfter, SecretAAD, TickOn, OpenBound;
  }

  /** A re-wrap that nothing disturbs, from its start on, turns the named tenant's key and no other. */
  lemma UndisturbedRewrap(w: World, c: nat, p: nat, t: string, newKek: nat)
    requires Enabled(w, Rewrap(c, p, t, newKek))
    ensures var w1 := TickOn(Apply(w, Rewrap(c, p, t, newKek)), c, 0);
            && c in w1.flights && w1.flights[c].process in w1.processes
            && var w2 := TickOn(w1, c, 0);
            && w2.secrets == w.secrets && w2.processes == w.processes
            && w2.deks == if t in w.deks then w.deks[t := TurnedTo(t, w.deks[t], w.processes[p].kek, newKek)] else w.deks
  {
    StepsAreRewrap(Apply(w, Rewrap(c, p, t, newKek)), c, newKek);
    hide TickOn, TurnedTo;
  }
}
