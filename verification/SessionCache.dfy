/**
  The TTL cache in front of the session store (auth/session_cache.go): its critical sections,
  and every interleaving of the calls made of them.
 */
module SessionCache {
  import opened Graphs

  datatype Session = Session(subject: string, expiresAt: int)
  datatype Cached = Cached(sess: Session, cachedAt: int)

  type Sessions = map<string, Session>
  type Items = map<string, Cached>

  /** What a sign-out takes away: one session, or all of one subject. */
  datatype Target = OneSession(id: string) | AllOf(subject: string)

  predicate Hits(t: Target, id: string, s: Session) {
    match t
    case OneSession(x) => id == x
    case AllOf(subject) => s.subject == subject
  }

  // ----- the critical sections as functions

  datatype Cache = Cache(items: Items, evictions: nat)

  predicate Fresh(e: Cached, ttl: int, now: int) {
    now - e.cachedAt < ttl && now < e.sess.expiresAt
  }

  function Hit(c: Cache, ttl: int, id: string, now: int): Option<Session> {
    if id in c.items && Fresh(c.items[id], ttl, now) then Some(c.items[id].sess) else None
  }

  /** A stale entry is dropped by the lookup that finds it. */
  function AfterLookup(c: Cache, ttl: int, id: string, now: int): Cache {
    if Hit(c, ttl, id, now).Some? then c else c.(items := c.items - {id})
  }

  function FreshOnly(items: Items, ttl: int, now: int): Items {
    map k | k in items && Fresh(items[k], ttl, now) :: items[k]
  }

  /** At capacity stale entries go first, and then everything. */
  function Room(items: Items, ttl: int, max: nat, now: int): Items {
    if |items| < max then items
    else if |FreshOnly(items, ttl, now)| < max then FreshOnly(items, ttl, now)
    else map[]
  }

  function PutOn(c: Cache, ttl: int, max: nat, id: string, s: Session, now: int): Cache {
    c.(items := Room(c.items, ttl, max, now)[id := Cached(s, now)])
  }

  /** What a miss does with what it read: nothing, if anything was evicted since it began. */
  function FillOn(c: Cache, ttl: int, max: nat, id: string, s: Session, now: int, gen: nat): Cache {
    if c.evictions == gen then PutOn(c, ttl, max, id, s, now) else c
  }

  function Without(items: Items, t: Target): Items {
    map k | k in items && !Hits(t, k, items[k].sess) :: items[k]
  }

  function EvictOn(c: Cache, t: Target): Cache {
    Cache(Without(c.items, t), c.evictions + 1)
  }

  // ----- the critical sections as code

  class CachingSessionStore {
    const ttl: int
    const max: nat
    var items: Items
    var evictions: nat
    var hits: nat
    var misses: nat

    ghost function View(): Cache
      reads this
    {
      Cache(items, evictions)
    }

    constructor (ttl: int, max: int)
      requires ttl > 0
      ensures View() == Cache(map[], 0) && this.ttl == ttl && this.max == if max <= 0 then 50000 else max
      ensures hits == misses == 0
    {
      this.ttl := ttl;
      this.max := if max <= 0 then 50000 else max;
      items, evictions, hits, misses := map[], 0, 0, 0;
    }

    /** The first half of GetSession: a fresh entry, or the generation a miss goes on with. */
    method Lookup(id: string, now: int) returns (hit: Option<Session>, gen: nat)
      modifies this
      ensures hit == Hit(old(View()), ttl, id, now) && gen == evictions
      ensures View() == AfterLookup(old(View()), ttl, id, now)
      ensures if hit.Some? then hits == old(hits) + 1 && misses == old(misses) else misses == old(misses) + 1 && hits == old(hits)
    {
      gen := evictions;
      if id in items {
        var e := items[id];
        if now - e.cachedAt < ttl && now < e.sess.expiresAt {
          hits := hits + 1;
          return Some(e.sess), gen;
        }
        items := items - {id};
      }
      misses := misses + 1;
      return None, gen;
    }

    method PutLocked(id: string, s: Session, now: int)
      modifies this`items
      ensures View() == PutOn(old(View()), ttl, max, id, s, now)
    {
      if |items| >= max {
        ghost var was := items;
        var left := items.Keys;
        while left != {}
          invariant left <= was.Keys
          invariant items == map k | k in was && (k in left || Fresh(was[k], ttl, now)) :: was[k]
        {
          var k :| k in left;
          left := left - {k};
          if now - items[k].cachedAt >= ttl || !(now < items[k].sess.expiresAt) { items := items - {k}; }
        }
        assert items == FreshOnly(was, ttl, now);
        if |items| >= max { items := map[]; }
      }
      items := items[id := Cached(s, now)];
    }

    /** The second half of a miss. */
    method Fill(id: string, s: Session, now: int, gen: nat)
      modifies this`items
      ensures View() == FillOn(old(View()), ttl, max, id, s, now, gen)
    {
      if evictions == gen { PutLocked(id, s, now); }
    }

    method Evict(t: Target)
      modifies this`items, this`evictions
      ensures View() == EvictOn(old(View()), t)
    {
      evictions := evictions + 1;
      match t
      case OneSession(id) =>
        items := items - {id};
      case AllOf(subject) =>
        ghost var was := items;
        var left := items.Keys;
        while left != {}
          invariant left <= was.Keys && evictions == old(evictions) + 1
          invariant items == map k | k in was && (k in left || was[k].sess.subject != subject) :: was[k]
        {
          var k :| k in left;
          left := left - {k};
          if items[k].sess.subject == subject { items := items - {k}; }
        }
    }
  }

  // ----- calls in flight

  datatype Phase =
    | Timed(now: int)                          // GetSession has read the clock
    | Missed(since: int, gen: nat)             // and found no fresh entry
    | Read(asOf: int, seen: nat, sess: Session) // and read the store
    | Got(result: Option<Session>)

  datatype Call =
    | Get(id: string, phase: Phase)
    | Putting(key: string, value: Session)
    | Stored(key: string, value: Session)
    | PutTimed(key: string, value: Session, at: int)
    | PutDone(key: string, value: Session)
    | Evicting(target: Target)                 // DeleteSession or RevokeSubjectSessions
    | Deleting(target: Target)
    | Deleted(target: Target, ok: bool)
    | Dropped(target: Target, ok: bool)

  datatype World = World(inner: Sessions, cache: Cache, time: int, calls: map<nat, Call>, readFilled: set<string>)

  datatype Event =
    | Start(pid: nat, call: Call)
    | Tick(pid: nat, succeeds: bool)           // the next critical section or store call of `pid`
    | Wait(duration: nat)
    | Elsewhere(sessions: Sessions)            // another instance changes the store

  datatype Config = Config(ttl: int, max: nat)

  predicate Starts(w: World, c: Call) {
    match c
    case Get(_, phase) => phase == Timed(w.time)
    case Putting(_, _) => true
    case Evicting(_) => true
    case _ => false
  }

  function WithCall(w: World, pid: nat, c: Call): World {
    w.(calls := w.calls[pid := c])
  }

  function TickGet(g: Config, w: World, pid: nat, id: string, p: Phase, ok: bool): World {
    match p
    case Timed(now) =>
      var hit := Hit(w.cache, g.ttl, id, now);
      WithCall(w.(cache := AfterLookup(w.cache, g.ttl, id, now)), pid,
               Get(id, if hit.Some? then Got(hit) else Missed(now, w.cache.evictions)))
    case Missed(now, gen) =>
      WithCall(w, pid, Get(id, if ok && id in w.inner then Read(now, gen, w.inner[id]) else Got(None)))
    case Read(now, gen, s) =>
      WithCall(w.(cache := FillOn(w.cache, g.ttl, g.max, id, s, now, gen),
                  readFilled := if w.cache.evictions == gen then w.readFilled + {id} else w.readFilled),
               pid, Get(id, Got(Some(s))))
    case Got(_) => w
  }

  function Remaining(inner: Sessions, t: Target): Sessions {
    map k | k in inner && !Hits(t, k, inner[k]) :: inner[k]
  }

  function TickOn(g: Config, w: World, pid: nat, ok: bool): World
    requires pid in w.calls
  {
    match w.calls[pid]
    case Get(id, p) => TickGet(g, w, pid, id, p, ok)
    case Putting(id, s) =>
      if ok then WithCall(w.(inner := w.inner[id := s]), pid, Stored(id, s)) else WithCall(w, pid, PutDone(id, s))
    case Stored(id, s) => WithCall(w, pid, PutTimed(id, s, w.time))
    case PutTimed(id, s, now) =>
      WithCall(w.(cache := PutOn(w.cache, g.ttl, g.max, id, s, now), readFilled := w.readFilled - {id}), pid, PutDone(id, s))
    case PutDone(_, _) => w
    case Evicting(t) => WithCall(w.(cache := EvictOn(w.cache, t)), pid, Deleting(t))
    case Deleting(t) => WithCall(if ok then w.(inner := Remaining(w.inner, t)) else w, pid, Deleted(t, ok))
    case Deleted(t, done) => WithCall(w.(cache := EvictOn(w.cache, t)), pid, Dropped(t, done))
    case Dropped(_, _) => w
  }

  predicate Enabled(w: World, ev: Event) {
    match ev
    case Start(pid, c) => pid !in w.calls && Starts(w, c)
    case Tick(pid, _) => pid in w.calls
    case Wait(_) => true
    case Elsewhere(_) => true
  }

  function Apply(g: Config, w: World, ev: Event): World
    requires Enabled(w, ev)
  {
    match ev
    case Start(pid, c) => WithCall(w, pid, c)
    case Tick(pid, ok) => TickOn(g, w, pid, ok)
    case Wait(d) => w.(time := w.time + d)
    case Elsewhere(sessions) => w.(inner := sessions)
  }

  ghost predicate Next(g: Config, w: World, w': World) {
    exists ev :: Enabled(w, ev) && w' == Apply(g, w, ev)
  }

  ghost predicate Init(w: World) {
    w.cache == Cache(map[], 0) && w.calls == map[] && w.readFilled == {}
  }

  ghost predicate IsExecution(g: Config, tr: seq<World>) {
    && tr != [] && Init(tr[0])
    && forall i, j :: 0 <= i < j < |tr| && j == i + 1 ==> Next(g, tr[i], tr[j])
  }

  // ----- the cache is bounded, and generations only grow

  ghost predicate Inv(g: Config, w: World) {
    && |w.cache.items| <= g.max
    && forall pid :: pid in w.calls && w.calls[pid].Get? ==>
         (w.calls[pid].phase.Missed? ==> w.calls[pid].phase.gen <= w.cache.evictions) &&
         (w.calls[pid].phase.Read? ==> w.calls[pid].phase.seen <= w.cache.evictions)
  }

  lemma SubmapSize(a: Items, b: Items)
    requires forall k :: k in a ==> k in b
    ensures |a| <= |b|
  {
    SubsetSize(a.Keys, b.Keys);
    assert |a| == |a.Keys| && |b| == |b.Keys|;
  }

  lemma {:induction false} SubsetSize(a: set<string>, b: set<string>)
    requires a <= b
    ensures |a| <= |b|
    decreases a
  {
    if a != {} {
      var x :| x in a;
      SubsetSize(a - {x}, b - {x});
    }
  }

  lemma PutBounded(c: Cache, ttl: int, max: nat, id: string, s: Session, now: int)
    requires |c.items| <= max && max > 0
    ensures |PutOn(c, ttl, max, id, s, now).items| <= max
  {
    var room := Room(c.items, ttl, max, now);
    assert |room| < max;
    var after := room[id := Cached(s, now)];
    assert after.Keys == room.Keys + {id};
    assert |after| == |after.Keys| <= |room.Keys| + 1;
  }

  lemma SectionsBounded(g: Config, c: Cache, id: string, s: Session, now: int, gen: nat, t: Target)
    requires |c.items| <= g.max && g.max > 0
    ensures |AfterLookup(c, g.ttl, id, now).items| <= g.max
    ensures |FillOn(c, g.ttl, g.max, id, s, now, gen).items| <= g.max
    ensures |EvictOn(c, t).items| <= g.max
  {
    PutBounded(c, g.ttl, g.max, id, s, now);
    SubmapSize(c.items - {id}, c.items);
    SubmapSize(Without(c.items, t), c.items);
  }

  lemma TickKeepsInv(g: Config, w: World, pid: nat, ok: bool)
    requires Inv(g, w) && g.max > 0 && pid in w.calls
    ensures Inv(g, TickOn(g, w, pid, ok))
  {
    hide FillOn, EvictOn, AfterLookup, PutOn, Hit;
    match w.calls[pid]
    case Get(id, p) =>
      match p {
        case Timed(now) => SectionsBounded(g, w.cache, id, Session("", 0), now, 0, OneSession(""));
        case Missed(now, gen) =>
        case Read(now, gen, s) => SectionsBounded(g, w.cache, id, s, now, gen, OneSession(""));
        case Got(_) =>
      }
      SectionsKeepGeneration(g, w.cache, id, p);
    case PutTimed(id, s, now) => PutBounded(w.cache, g.ttl, g.max, id, s, now); PutKeepsGeneration(g, w.cache, id, s, now);
    case Evicting(t) => SectionsBounded(g, w.cache, "", Session("", 0), 0, 0, t); EvictRaises(w.cache, t);
    case Deleted(t, _) => SectionsBounded(g, w.cache, "", Session("", 0), 0, 0, t); EvictRaises(w.cache, t);
    case _ =>
  }

  lemma SectionsKeepGeneration(g: Config, c: Cache, id: string, p: Phase)
    ensures p.Timed? ==> AfterLookup(c, g.ttl, id, p.now).evictions == c.evictions
    ensures p.Read? ==> FillOn(c, g.ttl, g.max, id, p.sess, p.asOf, p.seen).evictions == c.evictions
  {
  }

  lemma PutKeepsGeneration(g: Config, c: Cache, id: string, s: Session, now: int)
    ensures PutOn(c, g.ttl, g.max, id, s, now).evictions == c.evictions
  {
  }

  lemma EvictRaises(c: Cache, t: Target)
    ensures EvictOn(c, t).evictions == c.evictions + 1
    ensures forall k :: k in EvictOn(c, t).items ==> !Hits(t, k, EvictOn(c, t).items[k].sess)
  {
  }

  lemma EventKeepsInv(g: Config, w: World, w': World)
    requires Inv(g, w) && g.max > 0 && Next(g, w, w')
    ensures Inv(g, w')
  {
    hide TickOn;
    var ev :| Enabled(w, ev) && w' == Apply(g, w, ev);
    if ev.Tick? { TickKeepsInv(g, w, ev.pid, ev.succeeds); }
  }

  /** The cache never outgrows its bound, whatever runs at the same time. */
  lemma {:induction false} SizeNeverExceedsMax(g: Config, tr: seq<World>, n: nat)
    requires IsExecution(g, tr) && n < |tr| && g.max > 0
    ensures Inv(g, tr[n]) && |tr[n].cache.items| <= g.max
  {
    if n > 0 {
      SizeNeverExceedsMax(g, tr, n - 1);
      EventKeepsInv(g, tr[n - 1], tr[n]);
    }
  }

  // ----- a sign-out takes effect at once

  /** Nothing the sign-out was for is in the store, in the cache, or about to be cached. */
  ghost predicate Gone(w: World, t: Target) {
    && (forall k :: k in w.inner ==> !Hits(t, k, w.inner[k]))
    && (forall k :: k in w.cache.items ==> !Hits(t, k, w.cache.items[k].sess))
    && (forall pid :: pid in w.calls && Carries(w.calls[pid], t) ==> w.calls[pid].phase.seen < w.cache.evictions)
  }

  /** A miss that read such a session and has not decided yet whether to cache it. */
  ghost predicate Carries(c: Call, t: Target) {
    c.Get? && c.phase.Read? && Hits(t, c.id, c.phase.sess)
  }

  /** No put writes such a session to the cache in this step. */
  ghost predicate NoLatePut(w: World, w': World, t: Target) {
    forall pid :: pid in w.calls && w.calls[pid].PutTimed? && Hits(t, w.calls[pid].key, w.calls[pid].value) ==>
      pid in w'.calls && w'.calls[pid] == w.calls[pid]
  }

  /** And nobody, here or in another instance, stores one. */
  ghost predicate NoNew(w: World, w': World, t: Target) {
    forall k :: k in w'.inner && Hits(t, k, w'.inner[k]) ==> k in w.inner && w.inner[k] == w'.inner[k]
  }

  /** How far the sign-out has got: the store is clean once it deleted, everything is once it returned. */
  ghost predicate Progress(w: World, drop: nat, t: Target) {
    drop in w.calls &&
    match w.calls[drop]
    case Evicting(x) => x == t
    case Deleting(x) => x == t
    case Deleted(x, ok) => x == t && (ok ==> forall k :: k in w.inner ==> !Hits(t, k, w.inner[k]))
    case Dropped(x, ok) => x == t && (ok ==> Gone(w, t))
    case _ => false
  }

  lemma SectionsStayClean(g: Config, c: Cache, t: Target, id: string, s: Session, now: int, gen: nat, u: Target)
    requires forall k :: k in c.items ==> !Hits(t, k, c.items[k].sess)
    ensures forall k :: k in AfterLookup(c, g.ttl, id, now).items ==> !Hits(t, k, c.items[k].sess) && AfterLookup(c, g.ttl, id, now).items[k] == c.items[k]
    ensures forall k :: k in EvictOn(c, u).items ==> k in c.items && EvictOn(c, u).items[k] == c.items[k]
    ensures !Hits(t, id, s) || gen != c.evictions ==>
              forall k :: k in FillOn(c, g.ttl, g.max, id, s, now, gen).items ==>
                !Hits(t, k, FillOn(c, g.ttl, g.max, id, s, now, gen).items[k].sess)
    ensures !Hits(t, id, s) ==>
              forall k :: k in PutOn(c, g.ttl, g.max, id, s, now).items ==> !Hits(t, k, PutOn(c, g.ttl, g.max, id, s, now).items[k].sess)
  {
  }

  /** A step of a call that puts nothing and a cache that keeps only clean entries. */
  lemma CallKeepsGone(w: World, cache: Cache, inner: Sessions, filled: set<string>, pid: nat, c: Call, t: Target)
    requires Gone(w, t) && cache.evictions >= w.cache.evictions
    requires forall k :: k in cache.items ==> !Hits(t, k, cache.items[k].sess)
    requires forall k :: k in inner ==> !Hits(t, k, inner[k])
    requires Carries(c, t) ==> c.phase.seen < cache.evictions
    ensures Gone(WithCall(w.(cache := cache, inner := inner, readFilled := filled), pid, c), t)
  {
    hide Hits, Carries;
  }

  lemma GetKeepsGone(g: Config, w: World, pid: nat, ok: bool, t: Target)
    requires Gone(w, t) && pid in w.calls && w.calls[pid].Get?
    ensures Gone(TickOn(g, w, pid, ok), t)
  {
    hide FillOn, EvictOn, AfterLookup, PutOn, Hit, Hits, Gone;
    var id, p := w.calls[pid].id, w.calls[pid].phase;
    GoneMeans(w, t, pid);
    SectionsKeepGeneration(g, w.cache, id, p);
    var w' := TickOn(g, w, pid, ok);
    match p
    case Timed(now) => SectionsStayClean(g, w.cache, t, id, Session("", 0), now, 0, t);
      CallKeepsGone(w, w'.cache, w'.inner, w'.readFilled, pid, w'.calls[pid], t);
    case Missed(now, gen) => CallKeepsGone(w, w'.cache, w'.inner, w'.readFilled, pid, w'.calls[pid], t);
    case Read(now, gen, s) => SectionsStayClean(g, w.cache, t, id, s, now, gen, t);
      CallKeepsGone(w, w'.cache, w'.inner, w'.readFilled, pid, w'.calls[pid], t);
    case Got(_) =>
  }

  lemma GoneMeans(w: World, t: Target, pid: nat)
    requires Gone(w, t) && pid in w.calls
    ensures forall k :: k in w.inner ==> !Hits(t, k, w.inner[k])
    ensures forall k :: k in w.cache.items ==> !Hits(t, k, w.cache.items[k].sess)
    ensures Carries(w.calls[pid], t) ==> w.calls[pid].phase.seen < w.cache.evictions
  {
  }

  lemma TickKeepsGone(g: Config, w: World, pid: nat, ok: bool, t: Target)
    requires pid in w.calls && Gone(w, t) && NoLatePut(w, TickOn(g, w, pid, ok), t) && NoNew(w, TickOn(g, w, pid, ok), t)
    ensures Gone(TickOn(g, w, pid, ok), t)
  {
    GoneMeans(w, t, pid);
    if w.calls[pid].Get? { GetKeepsGone(g, w, pid, ok, t); }
    else { OtherKeepsGone(g, w, pid, ok, t); }
  }

  lemma OtherKeepsGone(g: Config, w: World, pid: nat, ok: bool, t: Target)
    requires Gone(w, t) && pid in w.calls && !w.calls[pid].Get?
    requires w.calls[pid].PutTimed? ==> !Hits(t, w.calls[pid].key, w.calls[pid].value)
    requires NoNew(w, TickOn(g, w, pid, ok), t)
    ensures Gone(TickOn(g, w, pid, ok), t)
  {
    hide EvictOn, PutOn, Hits, Gone;
    GoneMeans(w, t, pid);
    var w' := TickOn(g, w, pid, ok);
    match w.calls[pid] {
      case PutTimed(id, s, now) =>
        SectionsStayClean(g, w.cache, t, id, s, now, 0, t);
        PutKeepsGeneration(g, w.cache, id, s, now);
      case Evicting(u) => SectionsStayClean(g, w.cache, t, "", Session("", 0), 0, 0, u); EvictRaises(w.cache, u);
      case Deleted(u, _) => SectionsStayClean(g, w.cache, t, "", Session("", 0), 0, 0, u); EvictRaises(w.cache, u);
      case _ =>
    }
    if !w.calls[pid].PutDone? && !w.calls[pid].Dropped? {
      CallKeepsGone(w, w'.cache, w'.inner, w'.readFilled, pid, w'.calls[pid], t);
    }
  }

  lemma EventKeepsGone(g: Config, w: World, w': World, t: Target)
    requires Gone(w, t) && NoLatePut(w, w', t) && NoNew(w, w', t) && Next(g, w, w')
    ensures Gone(w', t)
  {
    hide TickOn, Hits, NoLatePut;
    var ev :| Enabled(w, ev) && w' == Apply(g, w, ev);
    if ev.Tick? { TickKeepsGone(g, w, ev.pid, ev.succeeds, t); }
  }

  /** The sign-out's own steps. */
  lemma DropStep(g: Config, w: World, drop: nat, ok: bool, t: Target)
    requires Inv(g, w) && Progress(w, drop, t)
    ensures Progress(TickOn(g, w, drop, ok), drop, t)
  {
    hide EvictOn, Hits;
    EvictRaises(w.cache, t);
  }

  /** Steps of others leave the sign-out where it is. */
  lemma TickLeavesOthers(g: Config, w: World, pid: nat, ok: bool, other: nat)
    requires pid in w.calls && other in w.calls && other != pid
    ensures other in TickOn(g, w, pid, ok).calls && TickOn(g, w, pid, ok).calls[other] == w.calls[other]
  {
  }

  lemma EventKeepsProgress(g: Config, w: World, w': World, drop: nat, t: Target)
    requires Inv(g, w) && Progress(w, drop, t) && Calm(w, w', drop, t) && Next(g, w, w')
    ensures Progress(w', drop, t)
  {
    hide TickOn, Hits, Inv, Gone, NoLatePut;
    var ev :| Enabled(w, ev) && w' == Apply(g, w, ev);
    if ev.Tick? && ev.pid == drop { DropStep(g, w, drop, ev.succeeds, t); }
    else {
      if ev.Tick? { TickLeavesOthers(g, w, ev.pid, ev.succeeds, drop); }
      if w.calls[drop].Dropped? && w.calls[drop].ok { EventKeepsGone(g, w, w', t); }
    }
  }

  /**
    Nothing brings such a session back: from the sign-out's delete on nobody stores one, and once the
    sign-out has returned no put that stored one before writes it to the cache.
   */
  ghost predicate Undisturbed(tr: seq<World>, i: nat, n: nat, drop: nat, t: Target) {
    forall k, m :: i <= k < m <= n && m == k + 1 && m < |tr| ==> Calm(tr[k], tr[m], drop, t)
  }

  ghost predicate Calm(w: World, w': World, drop: nat, t: Target) {
    && drop in w.calls && (w.calls[drop].Deleted? || w.calls[drop].Dropped? ==> NoNew(w, w', t))
    && (w.calls[drop].Dropped? ==> NoLatePut(w, w', t))
  }

  lemma UndisturbedBefore(tr: seq<World>, i: nat, n: nat, drop: nat, t: Target)
    requires i < n < |tr| && Undisturbed(tr, i, n, drop, t)
    ensures Undisturbed(tr, i, n - 1, drop, t) && Calm(tr[n - 1], tr[n], drop, t)
  {
  }

  lemma {:induction false} ProgressHolds(g: Config, tr: seq<World>, i: nat, n: nat, drop: nat, t: Target)
    requires IsExecution(g, tr) && g.max > 0 && i <= n < |tr|
    requires drop in tr[i].calls && (tr[i].calls[drop] == Evicting(t) || tr[i].calls[drop] == Deleting(t))
    requires Undisturbed(tr, i, n, drop, t)
    ensures Progress(tr[n], drop, t)
  {
    hide Inv, Next, Progress, Calm;
    if n == i { ProgressStarts(tr[i], drop, t); }
    else {
      UndisturbedBefore(tr, i, n, drop, t);
      ProgressHolds(g, tr, i, n - 1, drop, t);
      SizeNeverExceedsMax(g, tr, n - 1);
      EventKeepsProgress(g, tr[n - 1], tr[n], drop, t);
    }
  }

  lemma ProgressStarts(w: World, drop: nat, t: Target)
    requires drop in w.calls && (w.calls[drop] == Evicting(t) || w.calls[drop] == Deleting(t))
    ensures Progress(w, drop, t)
  {
  }

  /** What a GetSession that started after the sign-out can be carrying. */
  ghost predicate Harmless(w: World, get: nat, t: Target) {
    get in w.calls && w.calls[get].Get? ==>
      match w.calls[get].phase
      case Read(_, _, s) => !Hits(t, w.calls[get].id, s)
      case Got(r) => r.Some? ==> !Hits(t, w.calls[get].id, r.value)
      case _ => true
  }

  lemma EventKeepsHarmless(g: Config, w: World, w': World, get: nat, t: Target)
    requires Gone(w, t) && Harmless(w, get, t) && Next(g, w, w')
    ensures Harmless(w', get, t)
  {
    hide Hits;
    var ev :| Enabled(w, ev) && w' == Apply(g, w, ev);
    if ev.Tick? && ev.pid != get && get in w.calls {
      TickLeavesOthers(g, w, ev.pid, ev.succeeds, get);
    }
  }

  lemma {:induction false} HarmlessHolds(g: Config, tr: seq<World>, i: nat, j: nat, n: nat, drop: nat, get: nat, t: Target)
    requires IsExecution(g, tr) && g.max > 0 && i <= j <= n < |tr|
    requires drop in tr[i].calls && (tr[i].calls[drop] == Evicting(t) || tr[i].calls[drop] == Deleting(t))
    requires drop in tr[j].calls && tr[j].calls[drop] == Dropped(t, true)
    requires Undisturbed(tr, i, n, drop, t) && get !in tr[j].calls
    ensures Harmless(tr[n], get, t) && drop in tr[n].calls && tr[n].calls[drop] == Dropped(t, true)
  {
    hide Inv, Next, Progress, Calm, Gone;
    if n > j {
      UndisturbedBefore(tr, i, n, drop, t);
      HarmlessHolds(g, tr, i, j, n - 1, drop, get, t);
      ProgressHolds(g, tr, i, n - 1, drop, t);
      ReturnedIsGone(tr[n - 1], drop, t);
      EventKeepsHarmless(g, tr[n - 1], tr[n], get, t);
      ReturnedStays(g, tr[n - 1], tr[n], drop);
    }
  }

  lemma ReturnedIsGone(w: World, drop: nat, t: Target)
    requires Progress(w, drop, t) && w.calls[drop] == Dropped(t, true)
    ensures Gone(w, t)
  {
  }

  lemma ReturnedStays(g: Config, w: World, w': World, drop: nat)
    requires Next(g, w, w') && drop in w.calls && w.calls[drop].Dropped?
    ensures drop in w'.calls && w'.calls[drop] == w.calls[drop]
  {
    var ev :| Enabled(w, ev) && w' == Apply(g, w, ev);
    if ev.Tick? && ev.pid != drop { TickLeavesOthers(g, w, ev.pid, ev.succeeds, drop); }
  }

  /**
    Once a sign-out has returned successfully, no GetSession that starts afterwards returns a session it
    was for, unless one is brought back: somebody stores one after the delete, or a put that had stored
    one before the delete reaches the cache after the sign-out has returned. Puts that overlap the
    sign-out in any other way do no harm.
   */
  lemma SignedOutStaysOut(g: Config, tr: seq<World>, i: nat, j: nat, n: nat, drop: nat, get: nat, t: Target)
    requires IsExecution(g, tr) && g.max > 0 && i <= j <= n < |tr| && Undisturbed(tr, i, n, drop, t)
    requires drop in tr[i].calls && (tr[i].calls[drop] == Evicting(t) || tr[i].calls[drop] == Deleting(t))
    requires drop in tr[j].calls && tr[j].calls[drop] == Dropped(t, true)
    requires get !in tr[j].calls
    requires get in tr[n].calls && tr[n].calls[get].Get? && tr[n].calls[get].phase.Got? && tr[n].calls[get].phase.result.Some?
    ensures !Hits(t, tr[n].calls[get].id, tr[n].calls[get].phase.result.value)
  {
    HarmlessHolds(g, tr, i, j, n, drop, get, t);
  }

  /** The cache write the theorem leaves out does bring the session back: a GetSession that follows while it is fresh returns it. */
  lemma LatePutBringsBack(g: Config, w: World, put: nat, get: nat)
    requires put in w.calls && w.calls[put].PutTimed? && get !in w.calls
    ensures var c, w1 := w.calls[put], TickOn(g, w, put, true);
            var start := Start(get, Get(c.key, Timed(w1.time)));
            && Enabled(w1, start)
            && var w3 := TickOn(g, Apply(g, w1, start), get, true);
            && get in w3.calls && (Fresh(Cached(c.value, c.at), g.ttl, w.time) ==> w3.calls[get] == Get(c.key, Got(Some(c.value))))
  {
  }

  /**
    And such a run exists, for every session and every sign-out it is subject to: the put stores the
    session, the sign-out evicts, deletes, evicts and returns, the put reaches the cache, and a
    GetSession started after all that returns the session.
   */
  lemma PutStraddlesSignOut(g: Config, id: string, s: Session, t: Target) returns (tr: seq<World>, j: nat)
    requires g.ttl > 0 && Hits(t, id, s)
    ensures IsExecution(g, tr) && j < |tr| && 1 in tr[j].calls && tr[j].calls[1] == Dropped(t, true) && 2 !in tr[j].calls
    ensures var w := tr[|tr| - 1]; 2 in w.calls && w.calls[2] == Get(id, Got(Some(s)))
  {
    hide IsExecution, PutOn, EvictOn, Hits;
    tr := SignOutOvertakesPut(g, id, s, t);
    j := |tr| - 1;
    ghost var returned := tr[j];
    tr := Run(g, tr, Tick(0, true));
    LatePutBringsBack(g, tr[|tr| - 1], 0, 2);
    tr := Run(g, tr, Tick(0, true));
    tr := Run(g, tr, Start(2, Get(id, Timed(s.expiresAt - 1))));
    tr := Run(g, tr, Tick(2, true));
    assert tr[j] == returned;
  }

  lemma SignOutOvertakesPut(g: Config, id: string, s: Session, t: Target) returns (tr: seq<World>)
    ensures IsExecution(g, tr) && tr != []
    ensures var w := tr[|tr| - 1]; w.time == s.expiresAt - 1 && w.calls == map[0 := Stored(id, s), 1 := Dropped(t, true)]
  {
    hide PutOn, EvictOn, Hits, Remaining, TickGet;
    tr := [World(map[], Cache(map[], 0), s.expiresAt - 1, map[], {})];
    assert IsExecution(g, tr);
    hide IsExecution;
    tr := Run(g, tr, Start(0, Putting(id, s)));
    tr := Run(g, tr, Tick(0, true));
    assert tr[|tr| - 1].calls == map[0 := Stored(id, s)];
    tr := Run(g, tr, Start(1, Evicting(t)));
    tr := Run(g, tr, Tick(1, true));
    assert tr[|tr| - 1].calls == map[0 := Stored(id, s), 1 := Deleting(t)];
    tr := Run(g, tr, Tick(1, true));
    tr := Run(g, tr, Tick(1, true));
  }

  lemma Run(g: Config, tr: seq<World>, ev: Event) returns (tr': seq<World>)
    requires IsExecution(g, tr) && Enabled(tr[|tr| - 1], ev)
    ensures IsExecution(g, tr') && tr != [] && tr <= tr' && |tr'| == |tr| + 1 && tr'[|tr|] == Apply(g, tr[|tr| - 1], ev)
  {
    hide Apply, Enabled;
    tr' := tr + [Apply(g, tr[|tr| - 1], ev)];
    forall i, j | 0 <= i < j < |tr'| && j == i + 1 ensures Next(g, tr'[i], tr'[j]) {
      if j < |tr| { assert Next(g, tr[i], tr[j]); }
    }
  }

  // ----- a hit is recent and unexpired

  /** At some moment not before `since` the store held `s` under `id`. */
  ghost predicate Held(tr: seq<World>, n: nat, id: string, s: Session, since: int) {
    exists m :: 0 <= m <= n && m < |tr| && id in tr[m].inner && tr[m].inner[id] == s && since <= tr[m].time
  }

  /** Every read-filled entry, and every value a miss carries, was in the store when it was read. */
  ghost predicate Sourced(tr: seq<World>, n: nat)
    requires n < |tr|
  {
    && (forall k :: k in tr[n].cache.items && k in tr[n].readFilled ==>
         Held(tr, n, k, tr[n].cache.items[k].sess, tr[n].cache.items[k].cachedAt))
    && (forall pid :: pid in tr[n].calls ==> CallSourced(tr, n, tr[n].calls[pid]))
  }

  ghost predicate CallSourced(tr: seq<World>, n: nat, c: Call)
    requires n < |tr|
  {
    c.Get? ==>
      match c.phase
      case Timed(now) => now <= tr[n].time
      case Missed(now, _) => now <= tr[n].time
      case Read(now, _, s) => Held(tr, n, c.id, s, now)
      case Got(_) => true
  }

  /** Entries a section leaves are the ones that were there, plus the one it puts. */
  lemma SectionsKeepEntries(g: Config, c: Cache, id: string, s: Session, now: int, gen: nat, t: Target)
    ensures forall k :: k in AfterLookup(c, g.ttl, id, now).items ==> k in c.items && AfterLookup(c, g.ttl, id, now).items[k] == c.items[k]
    ensures forall k :: k in EvictOn(c, t).items ==> k in c.items && EvictOn(c, t).items[k] == c.items[k]
    ensures var p := PutOn(c, g.ttl, g.max, id, s, now);
            forall k :: k in p.items ==> if k == id then p.items[k] == Cached(s, now) else k in c.items && p.items[k] == c.items[k]
  {
  }

  lemma HeldLater(tr: seq<World>, n: nat, id: string, s: Session, since: int)
    requires n + 1 < |tr| && Held(tr, n, id, s, since)
    ensures Held(tr, n + 1, id, s, since)
  {
  }

  lemma HeldNow(tr: seq<World>, n: nat, id: string, s: Session, since: int)
    requires n < |tr| && id in tr[n].inner && tr[n].inner[id] == s && since <= tr[n].time
    ensures Held(tr, n, id, s, since)
  {
  }

  lemma EventTime(g: Config, w: World, w': World)
    requires Next(g, w, w')
    ensures w.time <= w'.time
  {
    var ev :| Enabled(w, ev) && w' == Apply(g, w, ev);
  }

  /** A call that a step leaves alone is as well sourced as before. */
  lemma CallStaysSourced(tr: seq<World>, n: nat, c: Call)
    requires n + 1 < |tr| && CallSourced(tr, n, c) && tr[n].time <= tr[n + 1].time
    ensures CallSourced(tr, n + 1, c)
  {
    hide Held;
    if c.Get? && c.phase.Read? { HeldLater(tr, n, c.id, c.phase.sess, c.phase.asOf); }
  }

  lemma ItemsStaySourced(tr: seq<World>, n: nat, k: string)
    requires n + 1 < |tr| && Sourced(tr, n) && k in tr[n].cache.items && k in tr[n].readFilled
    requires k in tr[n + 1].cache.items && tr[n + 1].cache.items[k] == tr[n].cache.items[k]
    ensures Held(tr, n + 1, k, tr[n + 1].cache.items[k].sess, tr[n + 1].cache.items[k].cachedAt)
  {
    HeldLater(tr, n, k, tr[n].cache.items[k].sess, tr[n].cache.items[k].cachedAt);
  }

  /** The call that takes the step. */
  lemma TickerSourced(g: Config, tr: seq<World>, n: nat, pid: nat, ok: bool)
    requires n + 1 < |tr| && Sourced(tr, n) && pid in tr[n].calls && tr[n + 1] == TickOn(g, tr[n], pid, ok)
    ensures pid in tr[n + 1].calls && CallSourced(tr, n + 1, tr[n + 1].calls[pid])
  {
    hide FillOn, EvictOn, AfterLookup, PutOn, Hit, Held;
    var c := tr[n].calls[pid];
    assert CallSourced(tr, n, c);
    if c.Get? {
      match c.phase
      case Missed(now, gen) =>
        if ok && c.id in tr[n].inner {
          HeldNow(tr, n, c.id, tr[n].inner[c.id], now);
          HeldLater(tr, n, c.id, tr[n].inner[c.id], now);
        }
      case _ =>
    }
  }

  /** The entries after the step. */
  lemma TickItemsSourced(g: Config, tr: seq<World>, n: nat, pid: nat, ok: bool, k: string)
    requires n + 1 < |tr| && Sourced(tr, n) && pid in tr[n].calls && tr[n + 1] == TickOn(g, tr[n], pid, ok)
    requires k in tr[n + 1].cache.items && k in tr[n + 1].readFilled
    ensures Held(tr, n + 1, k, tr[n + 1].cache.items[k].sess, tr[n + 1].cache.items[k].cachedAt)
  {
    hide EvictOn, AfterLookup, PutOn, Hit, Held;
    var w, w', c := tr[n], tr[n + 1], tr[n].calls[pid];
    var s0 := Session("", 0);
    if c.Get? && c.phase.Read? && c.id == k && w.cache.evictions == c.phase.seen {
      SectionsKeepEntries(g, w.cache, k, c.phase.sess, c.phase.asOf, c.phase.seen, OneSession(""));
      assert CallSourced(tr, n, c);
      HeldLater(tr, n, k, c.phase.sess, c.phase.asOf);
    } else {
      match c {
        case Get(id, p) =>
          SectionsKeepEntries(g, w.cache, id, if p.Read? then p.sess else s0, if p.Read? then p.asOf else if p.Timed? then p.now else 0, 0, OneSession(""));
        case PutTimed(id, s, now) => SectionsKeepEntries(g, w.cache, id, s, now, 0, OneSession(""));
        case Evicting(t) => SectionsKeepEntries(g, w.cache, "", s0, 0, 0, t);
        case Deleted(t, _) => SectionsKeepEntries(g, w.cache, "", s0, 0, 0, t);
        case _ =>
      }
      ItemsStaySourced(tr, n, k);
    }
  }

  lemma EventKeepsSourced(g: Config, tr: seq<World>, n: nat)
    requires n + 1 < |tr| && Sourced(tr, n) && Next(g, tr[n], tr[n + 1])
    ensures Sourced(tr, n + 1)
  {
    hide TickOn, Held, CallSourced;
    var w, w' := tr[n], tr[n + 1];
    EventTime(g, w, w');
    var ev :| Enabled(w, ev) && w' == Apply(g, w, ev);
    forall k | k in w'.cache.items && k in w'.readFilled
      ensures Held(tr, n + 1, k, w'.cache.items[k].sess, w'.cache.items[k].cachedAt)
    {
      if ev.Tick? { TickItemsSourced(g, tr, n, ev.pid, ev.succeeds, k); } else { ItemsStaySourced(tr, n, k); }
    }
    forall pid | pid in w'.calls ensures CallSourced(tr, n + 1, w'.calls[pid]) {
      if ev.Tick? && ev.pid == pid { TickerSourced(g, tr, n, pid, ev.succeeds); }
      else if pid in w.calls {
        if ev.Tick? { TickLeavesOthers(g, w, ev.pid, ev.succeeds, pid); }
        CallStaysSourced(tr, n, w.calls[pid]);
      } else {
        StarterSourced(g, tr, n, pid, ev);
      }
    }
  }

  lemma StarterSourced(g: Config, tr: seq<World>, n: nat, pid: nat, ev: Event)
    requires n + 1 < |tr| && Enabled(tr[n], ev) && tr[n + 1] == Apply(g, tr[n], ev)
    requires pid !in tr[n].calls && pid in tr[n + 1].calls
    ensures CallSourced(tr, n + 1, tr[n + 1].calls[pid])
  {
  }

  lemma {:induction false} ExecutionSourced(g: Config, tr: seq<World>, n: nat)
    requires IsExecution(g, tr) && n < |tr|
    ensures Sourced(tr, n)
  {
    hide Next;
    if n == 0 { StartSourced(tr); }
    else {
      ExecutionSourced(g, tr, n - 1);
      EventKeepsSourced(g, tr, n - 1);
    }
  }

  lemma StartSourced(tr: seq<World>)
    requires tr != [] && Init(tr[0])
    ensures Sourced(tr, 0)
  {
  }

  lemma {:induction false} TimeGrows(g: Config, tr: seq<World>, m: nat, n: nat)
    requires IsExecution(g, tr) && m <= n < |tr|
    ensures tr[m].time <= tr[n].time
  {
    hide Next;
    if m < n {
      TimeGrows(g, tr, m, n - 1);
      EventTime(g, tr[n - 1], tr[n]);
    }
  }

  /**
    A hit at clock reading `now` has not expired, and if a read filled the entry then the store
    held that very value at some moment after `now - ttl` and not after the lookup.
   */
  lemma HitIsRecent(g: Config, tr: seq<World>, n: nat, pid: nat, id: string, now: int) returns (m: nat)
    requires IsExecution(g, tr) && n < |tr| && pid in tr[n].calls && tr[n].calls[pid] == Get(id, Timed(now))
    requires Hit(tr[n].cache, g.ttl, id, now).Some?
    ensures now < Hit(tr[n].cache, g.ttl, id, now).value.expiresAt
    ensures m <= n
    ensures id in tr[n].readFilled ==>
              && id in tr[m].inner && tr[m].inner[id] == Hit(tr[n].cache, g.ttl, id, now).value
              && now - g.ttl < tr[m].time <= tr[n].time
  {
    ExecutionSourced(g, tr, n);
    m := n;
    if id in tr[n].readFilled {
      var e := tr[n].cache.items[id];
      assert Held(tr, n, id, e.sess, e.cachedAt);
      var k :| 0 <= k <= n && k < |tr| && id in tr[k].inner && tr[k].inner[id] == e.sess && e.cachedAt <= tr[k].time;
      TimeGrows(g, tr, k, n);
      m := k;
    }
  }
}
