/**
  Envelope encryption of tenant secrets (daemon/encrypted_secrets.go, daemon/encrypted_secrets_store.go):
  first-writer-wins provisioning of data keys, their use by any number of processes, and the resumable
  re-wrapping under a new master key. The cipher is ideal: a box opens under its own key and additional
  data and under nothing else; nonces are left out.
 */
module DataKeys {
  import opened Graphs

  // ----- boxes

  datatype Box<T> = Box(key: nat, aad: string, plain: T)

  function Open<T>(key: nat, box: Box<T>, aad: string): Option<T> {
    if box.key == key && box.aad == aad then Some(box.plain) else None
  }

  /** Rows written before binding was introduced carry no additional data. */
  function OpenBound<T>(key: nat, box: Box<T>, aad: string): Option<T> {
    var bound := Open(key, box, aad);
    if bound.Some? then bound else Open(key, box, "")
  }

  function SecretAAD(tenant: string, name: string): string {
    "dazyflow/secret/v1\0" + tenant + "\0" + name
  }

  function DekAAD(tenant: string): string {
    "dazyflow/dek/v1\0" + tenant
  }

  lemma DekAADInjective(t: string, t': string)
    requires DekAAD(t) == DekAAD(t')
    ensures t == t'
  {
    var k := |"dazyflow/dek/v1\0"|;
    assert DekAAD(t)[k..] == t && DekAAD(t')[k..] == t';
  }

  /** Two rows of different tenants can share their additional data exactly when one tenant, followed by a NUL, begins the other. */
  lemma SecretAADClash(t: string, t': string)
    requires t != t'
    ensures (exists n, n' :: n != "" && n' != "" && SecretAAD(t, n) == SecretAAD(t', n')) <==> t + "\0" <= t' || t' + "\0" <= t
  {
    if n, n' :| n != "" && n' != "" && SecretAAD(t, n) == SecretAAD(t', n') {
      Untag(t, n, t', n');
      OneBeginsTheOther(t, n, t', n');
    }
    if t + "\0" <= t' { var n := ClashingName(t, t'); assert n != "" && "x" != "" && SecretAAD(t, n) == SecretAAD(t', "x"); }
    if t' + "\0" <= t { var n := ClashingName(t', t); assert n != "" && "x" != "" && SecretAAD(t, "x") == SecretAAD(t', n); }
  }

  lemma ClashingName(t: string, t': string) returns (n: string)
    requires t + "\0" <= t'
    ensures n != "" && SecretAAD(t, n) == SecretAAD(t', "x")
  {
    n := t'[|t| + 1..] + "\0" + "x";
    assert t' == t + "\0" + t'[|t| + 1..];
    assert t + "\0" + n == t' + "\0" + "x";
  }

  lemma OneBeginsTheOther(t: string, n: string, t': string, n': string)
    requires t + "\0" + n == t' + "\0" + n'
    ensures t == t' || t + "\0" <= t' || t' + "\0" <= t
  {
    var s, s' := t + "\0" + n, t' + "\0" + n';
    if |t| < |t'| {
      assert t + "\0" == s[..|t| + 1] == s'[..|t| + 1] == t'[..|t| + 1];
    } else if |t'| < |t| {
      assert t' + "\0" == s'[..|t'| + 1] == s[..|t'| + 1] == t[..|t'| + 1];
    } else {
      assert t == s[..|t|] == s'[..|t|] == t';
    }
  }

  lemma Untag(t: string, n: string, t': string, n': string)
    requires SecretAAD(t, n) == SecretAAD(t', n')
    ensures t + "\0" + n == t' + "\0" + n'
  {
    var k := |"dazyflow/secret/v1\0"|;
    assert SecretAAD(t, n)[k..] == t + "\0" + n && SecretAAD(t', n')[k..] == t' + "\0" + n';
  }

  /** A bound row moved to another name of its tenant, or to another tenant it cannot clash with, does not open. */
  lemma MovedRowStaysShut(key: nat, t: string, n: string, t': string, n': string, v: string)
    requires t == t' || !(t + "\0" <= t' || t' + "\0" <= t)
    ensures OpenBound(key, Box(key, SecretAAD(t, n), v), SecretAAD(t', n')).Some? <==> (t, n) == (t', n')
  {
    assert |SecretAAD(t, n)| > 0;
    if SecretAAD(t, n) == SecretAAD(t', n') {
      Untag(t, n, t', n');
      OneBeginsTheOther(t, n, t', n');
      assert (t + "\0" + n)[|t| + 1..] == n && (t' + "\0" + n')[|t| + 1..] == n';
    }
  }

  /** A box opens under its own key, with its own additional data or if it was sealed with none, and under nothing else. */
  lemma OpensExactly(key: nat, box: Box<string>, aad: string)
    ensures OpenBound(key, box, aad) == if key == box.key && (aad == box.aad || box.aad == "") then Some(box.plain) else None
  {
  }

  /** A row and a wrapped key are never mistaken for each other. */
  lemma TagsDiffer(t: string, n: string, t': string)
    ensures SecretAAD(t, n) != DekAAD(t') && SecretAAD(t, n) != "" && DekAAD(t') != ""
  {
    assert SecretAAD(t, n)[9] == 's' && DekAAD(t')[9] == 'd';
  }

  // ----- the store

  datatype RowKey = RowKey(tenant: string, name: string)
  type Wrapped = map<string, Box<nat>>
  type Rows = map<RowKey, Box<string>>

  class MemSecretsStore {
    var secrets: Rows
    var deks: Wrapped

    constructor ()
      ensures secrets == map[] && deks == map[]
    {
      secrets, deks := map[], map[];
    }

    method PutSecret(tenant: string, name: string, box: Box<string>)
      modifies this`secrets
      ensures secrets == old(secrets)[RowKey(tenant, name) := box]
    {
      secrets := secrets[RowKey(tenant, name) := box];
    }

    method GetSecret(tenant: string, name: string) returns (r: Option<Box<string>>)
      ensures r == if RowKey(tenant, name) in secrets then Some(secrets[RowKey(tenant, name)]) else None
    {
      return if RowKey(tenant, name) in secrets then Some(secrets[RowKey(tenant, name)]) else None;
    }

    method GetWrappedDEK(tenant: string) returns (r: Option<Box<nat>>)
      ensures r == if tenant in deks then Some(deks[tenant]) else None
    {
      return if tenant in deks then Some(deks[tenant]) else None;
    }

    /** Never overwrites: the first writer wins. */
    method SetWrappedDEK(tenant: string, box: Box<nat>) returns (wrote: bool)
      modifies this`deks
      ensures wrote == (tenant !in old(deks))
      ensures deks == if wrote then old(deks)[tenant := box] else old(deks)
    {
      if tenant in deks { return false; }
      deks := deks[tenant := box];
      return true;
    }

    method ReplaceWrappedDEK(tenant: string, box: Box<nat>) returns (ok: bool)
      modifies this`deks
      ensures ok == (tenant in old(deks))
      ensures deks == if ok then old(deks)[tenant := box] else old(deks)
    {
      if tenant !in deks { return false; }
      deks := deks[tenant := box];
      return true;
    }

    /** Every tenant that has a key, once; the order is the store's own. */
    method ListDEKTenants() returns (tenants: seq<string>)
      ensures NoDup(tenants) && (forall t :: t in tenants <==> t in deks) && |tenants| == |deks|
    {
      tenants := [];
      var left := deks.Keys;
      assert |deks| == |deks.Keys|;
      while left != {}
        invariant left <= deks.Keys && NoDup(tenants) && |tenants| == |deks| - |left|
        invariant forall t :: t in tenants <==> t in deks && t !in left
      {
        var t :| t in left;
        left := left - {t};
        tenants := tenants + [t];
      }
    }
  }

  predicate NoDup(s: seq<string>) {
    forall i, j :: 0 <= i < j < |s| ==> s[i] != s[j]
  }

  // ----- re-wrapping

  /** The data key of `t` opens under one of the two master keys. */
  predicate Opens(deks: Wrapped, t: string, kek: nat)
    requires t in deks
  {
    OpenBound(kek, deks[t], DekAAD(t)).Some?
  }

  ghost predicate Recoverable(deks: Wrapped, oldKek: nat, newKek: nat) {
    forall t :: t in deks ==> Opens(deks, t, oldKek) || Opens(deks, t, newKek)
  }

  /** A re-wrap only ever changes what a data key is wrapped in. */
  ghost predicate SameKeys(before: Wrapped, after: Wrapped) {
    after.Keys == before.Keys && forall t :: t in before ==> after[t].plain == before[t].plain
  }

  function Rewrapped(t: string, box: Box<nat>, newKek: nat): Box<nat> {
    Box(newKek, DekAAD(t), box.plain)
  }

  // ----- using data keys

  /**
    The data key a process comes to use for `tenant`: `made` is the one it would provision, and
    `rival` one that another process may provision after this one has looked and found none.
   */
  function KeyFor(kek: nat, cache: map<string, nat>, deks: Wrapped, tenant: string, made: nat, rival: Option<Box<nat>>): Option<nat> {
    if tenant in cache then Some(cache[tenant])
    else if tenant in deks then OpenBound(kek, deks[tenant], DekAAD(tenant))
    else if rival.Some? then OpenBound(kek, rival.value, DekAAD(tenant))
    else Some(made)
  }

  function DeksAfter(kek: nat, cache: map<string, nat>, deks: Wrapped, tenant: string, made: nat, rival: Option<Box<nat>>): Wrapped {
    if tenant in cache || tenant in deks then deks
    else deks[tenant := if rival.Some? then rival.value else Box(kek, DekAAD(tenant), made)]
  }

  function CacheAfter(cache: map<string, nat>, tenant: string, dek: Option<nat>): map<string, nat> {
    if dek.Some? then cache[tenant := dek.value] else cache
  }

  /** What is cached is what the store wraps. */
  ghost predicate CacheIsTrue(cache: map<string, nat>, deks: Wrapped) {
    forall t :: t in cache ==> t in deks && cache[t] == deks[t].plain
  }

  /** The key a process comes to use is the one the store then wraps for that tenant, and no other tenant's changes. */
  lemma KeyIsStored(kek: nat, cache: map<string, nat>, deks: Wrapped, tenant: string, made: nat, rival: Option<Box<nat>>)
    requires CacheIsTrue(cache, deks)
    ensures var k, after := KeyFor(kek, cache, deks, tenant, made, rival), DeksAfter(kek, cache, deks, tenant, made, rival);
            && tenant in after && (k.Some? ==> after[tenant].plain == k.value)
            && CacheIsTrue(CacheAfter(cache, tenant, k), after)
            && forall t :: t in deks ==> t in after && after[t] == deks[t]
  {
  }

  class EncryptedSecrets {
    const kek: nat
    const store: MemSecretsStore
    var cache: map<string, nat>

    constructor (kek: nat, store: MemSecretsStore)
      ensures this.kek == kek && this.store == store && cache == map[]
    {
      this.kek, this.store, this.cache := kek, store, map[];
    }

    ghost function KeyOf(tenant: string, made: nat, rival: Option<Box<nat>>): Option<nat>
      reads this, store
    {
      KeyFor(kek, cache, store.deks, tenant, made, rival)
    }

    ghost predicate Consistent()
      reads this, store
    {
      CacheIsTrue(cache, store.deks)
    }

    method DekFor(tenant: string, made: nat, rival: Option<Box<nat>>) returns (dek: Option<nat>)
      modifies this`cache, store`deks
      ensures dek == old(KeyOf(tenant, made, rival))
      ensures store.deks == DeksAfter(kek, old(cache), old(store.deks), tenant, made, rival)
      ensures cache == CacheAfter(old(cache), tenant, dek)
    {
      if tenant in cache { return Some(cache[tenant]); }
      var row := store.GetWrappedDEK(tenant);
      if row.None? {
        var mine := Box(kek, DekAAD(tenant), made);
        if rival.Some? { var won := store.SetWrappedDEK(tenant, rival.value); }
        var wrote := store.SetWrappedDEK(tenant, mine);
        if wrote { row := Some(mine); } else { row := store.GetWrappedDEK(tenant); }
      }
      dek := OpenBound(kek, row.value, DekAAD(tenant));
      if dek.Some? { cache := cache[tenant := dek.value]; }
    }

    method Put(tenant: string, name: string, value: string, made: nat, rival: Option<Box<nat>>) returns (ok: bool)
      modifies this`cache, store
      ensures ok == (tenant != "" && name != "" && old(KeyOf(tenant, made, rival)).Some?)
      ensures store.secrets ==
              if ok then old(store.secrets)[RowKey(tenant, name) := Box(old(KeyOf(tenant, made, rival)).value, SecretAAD(tenant, name), value)]
              else old(store.secrets)
      ensures if tenant == "" || name == "" then store.deks == old(store.deks) && cache == old(cache)
              else && store.deks == DeksAfter(kek, old(cache), old(store.deks), tenant, made, rival)
                   && cache == CacheAfter(old(cache), tenant, old(KeyOf(tenant, made, rival)))
    {
      if tenant == "" || name == "" { return false; }
      var dek := DekFor(tenant, made, rival);
      if dek.None? { return false; }
      store.PutSecret(tenant, name, Box(dek.value, SecretAAD(tenant, name), value));
      return true;
    }

    method GetRaw(tenant: string, name: string, made: nat, rival: Option<Box<nat>>) returns (v: Option<string>)
      modifies this`cache, store`deks
      ensures v == if RowKey(tenant, name) !in store.secrets || old(KeyOf(tenant, made, rival)).None? then None
                   else OpenBound(old(KeyOf(tenant, made, rival)).value, store.secrets[RowKey(tenant, name)], SecretAAD(tenant, name))
      ensures if RowKey(tenant, name) !in store.secrets then store.deks == old(store.deks) && cache == old(cache)
              else && store.deks == DeksAfter(kek, old(cache), old(store.deks), tenant, made, rival)
                   && cache == CacheAfter(old(cache), tenant, old(KeyOf(tenant, made, rival)))
    {
      var row := store.GetSecret(tenant, name);
      if row.None? { return None; }
      var dek := DekFor(tenant, made, rival);
      if dek.None? { return None; }
      return OpenBound(dek.value, row.value, SecretAAD(tenant, name));
    }

    /**
      Re-wraps every tenant's key; `limit` is how many tenants it gets through before a failure of
      the store or the process stops it. However far it gets, no key is lost and what was openable
      under the old or the new master key still is; and a run that gets through leaves every key
      under the new master key, each tenant counted once. It gets through exactly when nothing
      interrupts it and every key opens under one of the two.
     */
    method RewrapDEKs(newKek: nat, limit: nat) returns (rotated: nat, skipped: nat, ok: bool)
      modifies store`deks
      ensures SameKeys(old(store.deks), store.deks)
      ensures old(Recoverable(store.deks, kek, newKek)) ==> Recoverable(store.deks, kek, newKek)
      ensures ok <==> limit >= |old(store.deks)| && old(Recoverable(store.deks, kek, newKek))
      ensures ok ==> rotated + skipped == |store.deks| && forall t :: t in store.deks ==> Opens(store.deks, t, newKek)
      ensures forall t :: t in store.deks ==> store.deks[t] == old(store.deks)[t] || store.deks[t] == TurnedTo(t, old(store.deks)[t], kek, newKek)
      ensures ok ==> forall t :: t in store.deks ==> store.deks[t] == TurnedTo(t, old(store.deks)[t], kek, newKek)
    {
      hide OpenBound, DekAAD, TurnedTo;
      rotated, skipped, ok := 0, 0, false;
      var tenants := store.ListDEKTenants();
      ghost var before := store.deks;
      for i := 0 to |tenants|
        invariant Progress(before, store.deks, tenants, i, kek, newKek)
        invariant rotated + skipped == i && i <= limit
      {
        var tenant := tenants[i];
        Interrupted(before, store.deks, tenants, i, kek, newKek);
        if i >= limit { return; }
        var row := store.GetWrappedDEK(tenant);
        var plain := OpenBound(kek, row.value, DekAAD(tenant));
        if plain.None? {
          if OpenBound(newKek, row.value, DekAAD(tenant)).Some? {
            skipped := skipped + 1;
            SkipStep(before, store.deks, tenants, i, kek, newKek);
            continue;
          }
          assert !Opens(before, tenant, kek) && !Opens(before, tenant, newKek);
          return;
        }
        TurnStep(before, store.deks, tenants, i, kek, newKek);
        var done := store.ReplaceWrappedDEK(tenant, Box(newKek, DekAAD(tenant), plain.value));
        rotated := rotated + 1;
      }
      ok := true;
      Finished(before, store.deks, tenants, kek, newKek);
    }
  }

  /** What a completed re-wrap makes of a key: one that opens under the old master key is bound to its tenant under the new one. */
  ghost function TurnedTo(t: string, box: Box<nat>, oldKek: nat, newKek: nat): Box<nat> {
    if OpenBound(oldKek, box, DekAAD(t)).Some? then Box(newKek, "dazyflow/dek/v1\0" + t, box.plain) else box
  }

  /** A re-wrap that has got through the first `i` tenants. */
  ghost predicate Progress(before: Wrapped, now: Wrapped, tenants: seq<string>, i: nat, oldKek: nat, newKek: nat) {
    && SameKeys(before, now) && i <= |tenants| && NoDup(tenants) && (forall t :: t in tenants <==> t in before)
    && |tenants| == |before|
    && (forall j :: 0 <= j < i ==> Opens(now, tenants[j], newKek) && (Opens(before, tenants[j], oldKek) || Opens(before, tenants[j], newKek)))
    && (forall j :: 0 <= j < i ==> now[tenants[j]] == TurnedTo(tenants[j], before[tenants[j]], oldKek, newKek))
    && (forall j :: i <= j < |tenants| ==> now[tenants[j]] == before[tenants[j]])
  }

  lemma SkipStep(before: Wrapped, now: Wrapped, tenants: seq<string>, i: nat, oldKek: nat, newKek: nat)
    requires Progress(before, now, tenants, i, oldKek, newKek) && i < |tenants| && Opens(now, tenants[i], newKek)
    requires !Opens(now, tenants[i], oldKek)
    ensures Progress(before, now, tenants, i + 1, oldKek, newKek)
  {
    hide OpenBound, DekAAD;
    assert now[tenants[i]] == before[tenants[i]];
  }

  lemma TurnStep(before: Wrapped, now: Wrapped, tenants: seq<string>, i: nat, oldKek: nat, newKek: nat)
    requires Progress(before, now, tenants, i, oldKek, newKek) && i < |tenants| && Opens(now, tenants[i], oldKek)
    ensures OpenBound(oldKek, now[tenants[i]], DekAAD(tenants[i])) == Some(now[tenants[i]].plain)
    ensures Progress(before, now[tenants[i] := Rewrapped(tenants[i], now[tenants[i]], newKek)], tenants, i + 1, oldKek, newKek)
  {
    assert DekAAD(tenants[i]) == "dazyflow/dek/v1\0" + tenants[i];
    hide DekAAD;
    var now' := now[tenants[i] := Rewrapped(tenants[i], now[tenants[i]], newKek)];
    assert now'.Keys == now.Keys;
    assert now[tenants[i]] == before[tenants[i]];
    forall j | 0 <= j < |tenants| && j != i ensures now'[tenants[j]] == now[tenants[j]] { }
  }

  lemma Finished(before: Wrapped, now: Wrapped, tenants: seq<string>, oldKek: nat, newKek: nat)
    requires Progress(before, now, tenants, |tenants|, oldKek, newKek)
    ensures Recoverable(before, oldKek, newKek) && Recoverable(now, oldKek, newKek) && |now| == |tenants|
    ensures forall t :: t in now ==> Opens(now, t, newKek) && now[t] == TurnedTo(t, before[t], oldKek, newKek)
  {
    hide OpenBound, DekAAD, TurnedTo;
    forall t | t in before
      ensures Opens(now, t, newKek) && (Opens(before, t, oldKek) || Opens(before, t, newKek)) && now[t] == TurnedTo(t, before[t], oldKek, newKek)
    {
      var j :| 0 <= j < |tenants| && tenants[j] == t;
    }
    assert |now| == |now.Keys| && |before| == |before.Keys|;
  }

  /** Stopping anywhere leaves a recoverable store recoverable. */
  lemma Interrupted(before: Wrapped, now: Wrapped, tenants: seq<string>, i: nat, oldKek: nat, newKek: nat)
    requires Progress(before, now, tenants, i, oldKek, newKek)
    ensures SameKeys(before, now) && (Recoverable(before, oldKek, newKek) ==> Recoverable(now, oldKek, newKek))
    ensures i < |tenants| ==> tenants[i] in now && now[tenants[i]] == before[tenants[i]]
    ensures forall t :: t in now ==> t in before && (now[t] == before[t] || now[t] == TurnedTo(t, before[t], oldKek, newKek))
  {
    hide OpenBound, DekAAD, TurnedTo;
    forall t | t in now ensures t in before && (now[t] == before[t] || now[t] == TurnedTo(t, before[t], oldKek, newKek)) {
      var j :| 0 <= j < |tenants| && tenants[j] == t;
    }
    if Recoverable(before, oldKek, newKek) {
      forall t | t in now ensures Opens(now, t, oldKek) || Opens(now, t, newKek) {
        var j :| 0 <= j < |tenants| && tenants[j] == t;
        if j >= i { assert Opens(before, t, oldKek) || Opens(before, t, newKek); }
      }
    }
  }

  /**
    A value put by one process is read by another one on the same store, or by the same one: the read
    gives the value unless the reader has no key cached and its master key does not open the stored one.
   */
  method PutThenGet(a: EncryptedSecrets, b: EncryptedSecrets, tenant: string, name: string, value: string, made: nat, rival: Option<Box<nat>>)
    returns (ok: bool, r: Option<string>)
    requires a.store == b.store && a.Consistent() && b.Consistent()
    modifies a, b, a.store
    ensures a.Consistent() && b.Consistent()
    ensures ok == (tenant != "" && name != "" && old(a.KeyOf(tenant, made, rival)).Some?)
    ensures ok ==> tenant in a.store.deks
    ensures ok ==> r == if a == b || tenant in old(b.cache) || Opens(a.store.deks, tenant, b.kek) then Some(value) else None
  {
    hide SecretAAD;
    KeyIsStored(a.kek, a.cache, a.store.deks, tenant, made, rival);
    ok := a.Put(tenant, name, value, made, rival);
    KeyIsStored(b.kek, b.cache, b.store.deks, tenant, 0, None);
    r := b.GetRaw(tenant, name, 0, None);
  }
}
