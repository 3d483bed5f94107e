/**
  Where the session cache's answers come from, and what it keeps: said of its steps and of single sections.
 */
module CacheRuns {
  import opened Graphs
  import opened SessionCache

  // ----- single sections

  /** What is put is found again until its time is up, and the lookup itself changes that only by dropping what is stale. */
  lemma PutIsFound(c: Cache, ttl: int, max: nat, id: string, s: Session, at: int, now: int)
    ensures Hit(PutOn(c, ttl, max, id, s, at), ttl, id, now) == if now - at < ttl && now < s.expiresAt then Some(s) else None
  {
  }

  /** A lookup answers from an entry exactly while that is younger than the TTL and not expired, and leaves the other entries alone. */
  lemma LookupMeans(c: Cache, ttl: int, id: string, now: int)
    ensures Hit(c, ttl, id, now).Some? <==> id in c.items && now < c.items[id].cachedAt + ttl && now < c.items[id].sess.expiresAt
    ensures Hit(c, ttl, id, now).Some? ==> Hit(c, ttl, id, now).value == c.items[id].sess && AfterLookup(c, ttl, id, now) == c
    ensures var c' := AfterLookup(c, ttl, id, now);
            c'.evictions == c.evictions && (Hit(c, ttl, id, now).None? ==> id !in c'.items) &&
            forall k :: k != id ==> (k in c'.items <==> k in c.items) && (k in c.items ==> c'.items[k] == c.items[k])
  {
  }

  /** Making room for an entry drops nothing below the bound, only stale entries if those suffice, and everything otherwise. */
  lemma PutMakesRoom(c: Cache, ttl: int, max: nat, id: string, s: Session, now: int, k: string)
    requires k in c.items && k != id
    ensures var c' := PutOn(c, ttl, max, id, s, now);
            var stale := now - c.items[k].cachedAt >= ttl || now >= c.items[k].sess.expiresAt;
            && (k in c'.items ==> c'.items[k] == c.items[k])
            && (|c.items| < max ==> k in c'.items)
            && (|c.items| >= max && stale ==> k !in c'.items)
            && (!stale && k !in c'.items ==> |c.items| >= max && c'.items == map[id := Cached(s, now)] && |FreshOnly(c.items, ttl, now)| >= max)
  {
  }

  /** An eviction drops exactly the targeted entries and starts a new generation; a miss of an older one caches nothing. */
  lemma EvictMeans(c: Cache, t: Target, ttl: int, max: nat, id: string, s: Session, now: int)
    ensures var c' := EvictOn(c, t);
            && (forall k :: k in c'.items <==> k in c.items && !(match t case OneSession(x) => k == x case AllOf(u) => c.items[k].sess.subject == u))
            && (forall k :: k in c'.items ==> c'.items[k] == c.items[k])
            && FillOn(c', ttl, max, id, s, now, c.evictions) == c'
    ensures FillOn(c, ttl, max, id, s, now, c.evictions) == PutOn(c, ttl, max, id, s, now)
  {
  }

  // ----- over whole executions

  /** In step `m` a put of `s` under `id`, its clock read at `at`, reached the cache. */
  ghost predicate PutReaches(tr: seq<World>, m: nat, pid: nat, n: nat, id: string, s: Session, at: int)
    requires n < |tr|
  {
    && m < n && pid in tr[m].calls && tr[m].calls[pid] == PutTimed(id, s, at)
    && pid in tr[m + 1].calls && tr[m + 1].calls[pid] == PutDone(id, s)
  }

  ghost predicate WasPut(tr: seq<World>, n: nat, id: string, s: Session, at: int)
    requires n < |tr|
  {
    exists m, pid :: PutReaches(tr, m, pid, n, id, s, at)
  }

  /** Every entry no read filled was put. */
  ghost predicate PutsKnown(tr: seq<World>, n: nat)
    requires n < |tr|
  {
    forall k :: k in tr[n].cache.items && k !in tr[n].readFilled ==> WasPut(tr, n, k, tr[n].cache.items[k].sess, tr[n].cache.items[k].cachedAt)
  }

  lemma WasPutLater(tr: seq<World>, n: nat, id: string, s: Session, at: int)
    requires n + 1 < |tr| && WasPut(tr, n, id, s, at)
    ensures WasPut(tr, n + 1, id, s, at)
  {
    var m, pid :| PutReaches(tr, m, pid, n, id, s, at);
    assert PutReaches(tr, m, pid, n + 1, id, s, at);
  }

  /** An entry that no read filled stood there before, or is put in this step. */
  lemma TickPuts(g: Config, w: World, pid: nat, ok: bool, k: string)
    requires pid in w.calls
    requires var w' := TickOn(g, w, pid, ok); k in w'.cache.items && k !in w'.readFilled
    ensures var w' := TickOn(g, w, pid, ok);
            || (k in w.cache.items && k !in w.readFilled && w'.cache.items[k] == w.cache.items[k])
            || (w.calls[pid].PutTimed? && w.calls[pid] == PutTimed(k, w'.cache.items[k].sess, w'.cache.items[k].cachedAt) &&
                w'.calls[pid] == PutDone(k, w'.cache.items[k].sess))
  {
    hide EvictOn, AfterLookup, PutOn, Hit;
    var c := w.calls[pid];
    var s0 := Session("", 0);
    match c {
      case Get(id, p) =>
        SectionsKeepEntries(g, w.cache, id, if p.Read? then p.sess else s0, if p.Read? then p.asOf else if p.Timed? then p.now else 0, 0, OneSession(""));
      case PutTimed(id, s, now) => SectionsKeepEntries(g, w.cache, id, s, now, 0, OneSession(""));
      case Evicting(t) => SectionsKeepEntries(g, w.cache, "", s0, 0, 0, t);
      case Deleted(t, _) => SectionsKeepEntries(g, w.cache, "", s0, 0, 0, t);
      case _ =>
    }
  }

  lemma EventKeepsPutsKnown(g: Config, tr: seq<World>, n: nat)
    requires n + 1 < |tr| && PutsKnown(tr, n) && Next(g, tr[n], tr[n + 1])
    ensures PutsKnown(tr, n + 1)
  {
    hide TickOn, WasPut;
    var w, w' := tr[n], tr[n + 1];
    var ev :| Enabled(w, ev) && w' == Apply(g, w, ev);
    forall k | k in w'.cache.items && k !in w'.readFilled ensures WasPut(tr, n + 1, k, w'.cache.items[k].sess, w'.cache.items[k].cachedAt) {
      if ev.Tick? { TickPuts(g, w, ev.pid, ev.succeeds, k); TickKeepsCall(g, w, ev.pid, ev.succeeds); }
      if k in w.cache.items && k !in w.readFilled && w'.cache.items[k] == w.cache.items[k] {
        WasPutLater(tr, n, k, w.cache.items[k].sess, w.cache.items[k].cachedAt);
      } else {
        PutNow(tr, n, ev.pid, k, w'.cache.items[k].sess, w'.cache.items[k].cachedAt);
      }
    }
  }

  lemma TickKeepsCall(g: Config, w: World, pid: nat, ok: bool)
    requires pid in w.calls
    ensures pid in TickOn(g, w, pid, ok).calls
  {
  }

  lemma PutNow(tr: seq<World>, n: nat, pid: nat, id: string, s: Session, at: int)
    requires n + 1 < |tr| && PutReaches(tr, n, pid, n + 1, id, s, at)
    ensures WasPut(tr, n + 1, id, s, at)
  {
  }

  lemma {:induction false} ExecutionKnowsPuts(g: Config, tr: seq<World>, n: nat)
    requires IsExecution(g, tr) && n < |tr|
    ensures PutsKnown(tr, n)
  {
    hide Next;
    if n > 0 {
      ExecutionKnowsPuts(g, tr, n - 1);
      EventKeepsPutsKnown(g, tr, n - 1);
    }
  }

  /**
    Every hit is accounted for: it has not expired, and the store held that very session at some moment within
    the TTL before the clock reading and up to the lookup, or a put of it reached the cache with a clock
    reading within the TTL.
   */
  lemma HitHasSource(g: Config, tr: seq<World>, n: nat, pid: nat, id: string, now: int)
    requires IsExecution(g, tr) && n < |tr| && pid in tr[n].calls && tr[n].calls[pid] == Get(id, Timed(now))
    requires Hit(tr[n].cache, g.ttl, id, now).Some?
    ensures var s := Hit(tr[n].cache, g.ttl, id, now).value;
            && now < s.expiresAt
            && (|| (exists m :: 0 <= m <= n && id in tr[m].inner && tr[m].inner[id] == s && now - g.ttl < tr[m].time <= tr[n].time)
                || (exists at :: now - g.ttl < at && WasPut(tr, n, id, s, at)))
  {
    var m := HitIsRecent(g, tr, n, pid, id, now);
    if id !in tr[n].readFilled {
      ExecutionKnowsPuts(g, tr, n);
      hide IsExecution, WasPut;
      var e := tr[n].cache.items[id];
      assert now - g.ttl < e.cachedAt && WasPut(tr, n, id, e.sess, e.cachedAt);
    }
  }

  /** A lookup that misses answers with what the store holds then, or with nothing. */
  lemma MissReadsTheStore(g: Config, w: World, pid: nat, id: string, now: int, gen: nat, ok: bool)
    requires pid in w.calls && w.calls[pid] == Get(id, Missed(now, gen))
    ensures var w1 := TickOn(g, w, pid, ok);
            && w1.cache == w.cache && w1.inner == w.inner && pid in w1.calls
            && if ok && id in w.inner then
                 var w2 := TickOn(g, w1, pid, ok);
                 w1.calls[pid] == Get(id, Read(now, gen, w.inner[id])) && pid in w2.calls && w2.calls[pid] == Get(id, Got(Some(w.inner[id])))
               else w1.calls[pid] == Get(id, Got(None))
  {
  }

  // ----- calls that nothing disturbs

  /** A put that nothing disturbs stores the session and then caches it with the time of the clock. */
  lemma PutSteps(g: Config, w: World, pid: nat, id: string, s: Session)
    requires pid in w.calls && w.calls[pid] == Putting(id, s)
    ensures var w1 := TickOn(g, w, pid, true);
            && w1.inner == w.inner[id := s] && w1.cache == w.cache && pid in w1.calls
            && var w2 := TickOn(g, w1, pid, true);
            && w2.inner == w1.inner && w2.cache == w.cache && pid in w2.calls
            && var w3 := TickOn(g, w2, pid, true);
            && w3.inner == w1.inner && w3.cache == PutOn(w.cache, g.ttl, g.max, id, s, w.time)
            && pid in w3.calls && w3.calls[pid] == PutDone(id, s)
    ensures TickOn(g, w, pid, false).inner == w.inner && TickOn(g, w, pid, false).cache == w.cache
  {
    hide PutOn;
  }

  /** What a sign-out is for is in none of the two. */
  ghost predicate ClearOf(items: Items, t: Target) {
    forall k :: k in items ==> !Hits(t, k, items[k].sess)
  }

  /** A sign-out that nothing disturbs clears the cache, deletes exactly what it is for from the store, and clears the cache again. */
  lemma SignOutSteps(g: Config, w: World, pid: nat, t: Target)
    requires pid in w.calls && w.calls[pid] == Evicting(t)
    ensures var w1 := TickOn(g, w, pid, true);
            && w1.inner == w.inner && ClearOf(w1.cache.items, t) && w1.cache.evictions == w.cache.evictions + 1 && pid in w1.calls
            && var w2 := TickOn(g, w1, pid, true);
            && (forall k :: (k in w2.inner <==> k in w.inner && !Hits(t, k, w.inner[k])) && (k in w2.inner ==> w2.inner[k] == w.inner[k]))
            && w2.cache == w1.cache && pid in w2.calls
            && var w3 := TickOn(g, w2, pid, true);
            && w3.inner == w2.inner && ClearOf(w3.cache.items, t) && w3.cache.evictions == w.cache.evictions + 2
            && pid in w3.calls && w3.calls[pid] == Dropped(t, true)
    ensures forall k, s: Session :: Hits(t, k, s) <==> match t case OneSession(x) => k == x case AllOf(u) => s.subject == u
  {
    hide Hits;
    HitsMeans(t);
  }

  lemma HitsMeans(t: Target)
    ensures forall k, s: Session :: Hits(t, k, s) <==> match t case OneSession(x) => k == x case AllOf(u) => s.subject == u
  {
  }

  /** A lookup that finds a fresh entry answers from it without touching anything. */
  lemma HitSteps(g: Config, w: World, pid: nat, id: string, now: int)
    requires pid in w.calls && w.calls[pid] == Get(id, Timed(now))
    ensures var w1, hit := TickOn(g, w, pid, true), Hit(w.cache, g.ttl, id, now);
            && w1.inner == w.inner && pid in w1.calls
            && (hit.Some? ==> w1.cache == w.cache && w1.calls[pid] == Get(id, Got(hit)))
            && (hit.None? ==> w1.calls[pid] == Get(id, Missed(now, w.cache.evictions)))
  {
  }

  /** Once its time is up an entry is not answered from any more, and the lookup drops it. */
  lemma WaitMakesStale(g: Config, w: World, pid: nat, id: string, d: nat, ok: bool)
    requires pid !in w.calls && id in w.cache.items && w.time + d >= w.cache.items[id].cachedAt + g.ttl
    ensures var w1 := Apply(g, w, Wait(d));
            var lookup := Start(pid, Get(id, Timed(w.time + d)));
            && Enabled(w1, lookup)
            && var w2 := TickOn(g, Apply(g, w1, lookup), pid, ok);
            id !in w2.cache.items && pid in w2.calls && w2.calls[pid] == Get(id, Missed(w.time + d, w.cache.evictions))
  {
  }
}
