/**
  What clients of OAuth grants can rely on: how long tokens work, what a refresh does, and what no race
  of refreshes, revocations and deletions can do, said of the steps themselves.
 */
module GrantRuns {
  import opened Graphs
  import opened McpGrants

  /** An id and a secret that make a token which can be told apart. */
  predicate Spelt(id: string, secret: string) {
    id != "" && '_' !in id && secret != ""
  }

  /** A fresh grant's access token speaks for it for an hour, and its refresh token can be used once within thirty days. */
  lemma IssuedTokensWork(gs: Grants, id: string, subject: string, now: int, a: string, r: string, t: int, a': string, r': string)
    requires Spelt(id, a) && Spelt(id, r)
    ensures var gs' := gs[id := NewGrant(id, subject, now, a, r)];
            && Authenticates(gs', "dzo_" + id + "_" + a, t) == (if t <= now + 60 * 60 then Some(id) else None)
            && RefreshOn(gs', "dzr_" + id + "_" + r, t, a', r').1 == if t <= now + 30 * 24 * 60 * 60 then Rotates else Expired
  {
    TokenRoundTrip(ACCESS_PREFIX, id, a);
    TokenRoundTrip(REFRESH_PREFIX, id, r);
    var x, y := "dzo_" + id + "_" + a, "dzr_" + id + "_" + r;
    assert x == Token(ACCESS_PREFIX, id, a) && y == Token(REFRESH_PREFIX, id, r);
    hide GrantId, Token;
  }

  /** What a refresh does to a grant whose refresh token is presented in time: new tokens for as long again, and the old ones are dead. */
  lemma RefreshRenews(gs: Grants, g: Grant, now: int, a: string, r: string, t: int, a': string, r': string)
    requires g.id in gs && gs[g.id] == g && Spelt(g.id, a) && Spelt(g.id, r) && now <= g.refreshUntil
    requires GrantId(g.refresh, REFRESH_PREFIX) == Some(g.id) && g.prev != g.refresh
    requires {"dzo_" + g.id + "_" + a, "dzr_" + g.id + "_" + r} !! {g.access, g.refresh}
    ensures var out := RefreshOn(gs, g.refresh, now, a, r);
            && out.1 == Rotates && g.id in out.0 && out.0[g.id].subject == g.subject
            && (forall x :: x != g.id ==> (x in out.0 <==> x in gs) && (x in gs ==> out.0[x] == gs[x]))
            && Authenticates(out.0, "dzo_" + g.id + "_" + a, t) == (if t <= now + 60 * 60 then Some(g.id) else None)
            && Authenticates(out.0, g.access, t) != Some(g.id)
            && RefreshOn(out.0, g.refresh, t, a', r').1 == Reused && g.id !in RefreshOn(out.0, g.refresh, t, a', r').0
            && RefreshOn(out.0, "dzr_" + g.id + "_" + r, t, a', r').1 == if t <= now + 30 * 24 * 60 * 60 then Rotates else Expired
  {
    TokenRoundTrip(ACCESS_PREFIX, g.id, a);
    TokenRoundTrip(REFRESH_PREFIX, g.id, r);
    var x, y := "dzo_" + g.id + "_" + a, "dzr_" + g.id + "_" + r;
    assert x == Token(ACCESS_PREFIX, g.id, a) && y == Token(REFRESH_PREFIX, g.id, r);
    NamesNonEmpty(g.refresh, REFRESH_PREFIX);
    hide GrantId, Token;
  }

  /** What a refresh does in every case, by the token presented and the grant it names. */
  lemma RefreshMeans(gs: Grants, token: string, now: int, a: string, r: string)
    ensures var id, out := GrantId(token, REFRESH_PREFIX), RefreshOn(gs, token, now, a, r);
            if id.None? || id.value !in gs then out == (gs, Invalid)
            else
              var g := gs[id.value];
              && (out.1 == Reused <==> token != "" && token == g.prev)
              && (token != "" && token != g.prev && token != g.refresh ==> out.1 == Invalid)
              && (out.1 == Expired ==> token == g.refresh && now > g.refreshUntil)
              && (token == g.refresh && token != g.prev ==> out.1 == if now > g.refreshUntil then Expired else Rotates)
              && (out.1 == Reused || out.1 == Expired ==> out.0 == gs - {id.value})
              && (out.1 == Invalid ==> out.0 == gs)
              && (out.1 == Rotates ==> out.0.Keys == gs.Keys && out.0[id.value].prev == g.refresh && token == g.refresh)
  {
    hide GrantId, Token;
    if GrantId(token, REFRESH_PREFIX).Some? { NamesNonEmpty(token, REFRESH_PREFIX); }
  }

  lemma NamesNonEmpty(token: string, prefix: string)
    requires GrantId(token, prefix).Some?
    ensures token != ""
  {
    assert Cut("").None?;
  }

  // ----- over whole executions

  /** In this step call `c` rotates the grant `next` replaces, for the refresh token `token`. */
  ghost predicate RotatesAt(w: World, w': World, c: nat, token: string, next: Grant) {
    && c in w.calls && w.calls[c] == Swapping(token, next)
    && c in w'.calls && w'.calls[c] == Finished(token, Rotates)
  }

  lemma RotationIsSwap(w: World, w': World, c: nat, token: string, next: Grant)
    requires Next(w, w') && RotatesAt(w, w', c, token, next)
    ensures w' == SwapOn(w, c, token, next) && next.id in w.grants && w.grants[next.id].refresh == token
  {
    hide Minted, GrantId, Judge;
    var ev :| Enabled(w, ev) && w' == Apply(w, ev);
  }

  lemma EventKeepsRotations(w: World, w': World)
    requires Next(w, w')
    ensures w.rotations <= w'.rotations
  {
    hide Minted, GrantId, Judge;
    var ev :| Enabled(w, ev) && w' == Apply(w, ev);
  }

  lemma {:induction false} RotationsGrow(tr: seq<World>, m: nat, n: nat)
    requires IsExecution(tr) && m <= n < |tr|
    ensures tr[m].rotations <= tr[n].rotations
  {
    hide Next;
    if m < n {
      RotationsGrow(tr, m, n - 1);
      EventKeepsRotations(tr[n - 1], tr[n]);
    }
  }

  /** However refreshes race, only one of the calls that present a refresh token ever rotates with it. */
  lemma OnlyOneRotates(tr: seq<World>, i: nat, j: nat, c: nat, d: nat, token: string, next: Grant, next': Grant)
    requires IsExecution(tr) && i <= j && j + 1 < |tr|
    requires RotatesAt(tr[i], tr[i + 1], c, token, next) && RotatesAt(tr[j], tr[j + 1], d, token, next')
    ensures i == j && c == d
  {
    assert Next(tr[i], tr[i + 1]) && Next(tr[j], tr[j + 1]);
    hide Next;
    RotationIsSwap(tr[i], tr[i + 1], c, token, next);
    RotationIsSwap(tr[j], tr[j + 1], d, token, next');
    ExecutionKeepsInv(tr, j + 1);
    LastIsNew(tr[j].rotations, token);
    if i < j {
      RotationsGrow(tr, i + 1, j);
      ListedStays(tr[i].rotations, token, tr[j].rotations);
    }
  }

  lemma LastIsNew(s: seq<string>, t: string)
    requires Distinct(s + [t])
    ensures t !in s
  {
    forall k | 0 <= k < |s| ensures s[k] != t { assert (s + [t])[k] == s[k] && (s + [t])[|s|] == t; }
  }

  lemma ListedStays(a: seq<string>, t: string, b: seq<string>)
    requires a + [t] <= b
    ensures t in b
  {
    assert b[|a|] == t;
  }

  /** The tokens a rotation replaces never work again. */
  lemma ReplacedNeverWorks(tr: seq<World>, i: nat, n: nat, c: nat, token: string, next: Grant, now: int)
    requires IsExecution(tr) && i < n < |tr| && RotatesAt(tr[i], tr[i + 1], c, token, next)
    ensures next.id in tr[i].grants && tr[i].grants[next.id].refresh == token
    ensures Authenticates(tr[n].grants, tr[i].grants[next.id].access, now).None?
    ensures forall id :: id in tr[n].grants ==> !Judge(tr[n].grants[id], token, now).Rotates?
  {
    assert Next(tr[i], tr[i + 1]);
    hide Next;
    RotationIsSwap(tr[i], tr[i + 1], c, token, next);
    var old0 := tr[i].grants[next.id];
    assert old0.access in tr[i + 1].retired && old0.refresh in tr[i + 1].retired;
    RetiredNeverWorks(tr, i + 1, n, old0.access, now);
    RetiredNeverWorks(tr, i + 1, n, token, now);
  }

  /** The id was issued and its grant is not there. */
  ghost predicate Absent(w: World, id: string) {
    id in w.ids && id !in w.grants
  }

  lemma EventKeepsAbsent(w: World, w': World, id: string)
    requires Next(w, w') && Absent(w, id)
    ensures Absent(w', id)
  {
    hide Minted, GrantId, Judge;
    var ev :| Enabled(w, ev) && w' == Apply(w, ev);
  }

  lemma {:induction false} StaysAbsent(tr: seq<World>, m: nat, n: nat, id: string)
    requires IsExecution(tr) && m <= n < |tr| && Absent(tr[m], id)
    ensures Absent(tr[n], id)
  {
    hide Next, Absent;
    if m < n {
      StaysAbsent(tr, m, n - 1, id);
      EventKeepsAbsent(tr[n - 1], tr[n], id);
    }
  }

  lemma EventKeepsIds(w: World, w': World)
    requires Next(w, w')
    ensures w.ids <= w'.ids
  {
    hide Minted, GrantId, Judge;
    var ev :| Enabled(w, ev) && w' == Apply(w, ev);
  }

  lemma {:induction false} IdsGrow(tr: seq<World>, m: nat, n: nat)
    requires IsExecution(tr) && m <= n < |tr|
    ensures tr[m].ids <= tr[n].ids
  {
    hide Next;
    if m < n {
      IdsGrow(tr, m, n - 1);
      EventKeepsIds(tr[n - 1], tr[n]);
    }
  }

  /** A grant that was there and is gone, by replay, expiry, disconnection or revocation, never comes back. */
  lemma GoneForGood(tr: seq<World>, i: nat, m: nat, n: nat, id: string)
    requires IsExecution(tr) && i <= m <= n < |tr| && id in tr[i].grants && id !in tr[m].grants
    ensures id !in tr[n].grants
  {
    ExecutionKeepsInv(tr, i);
    IdsGrow(tr, i, m);
    StaysAbsent(tr, m, n, id);
  }

  /** Revoking a subject takes exactly its grants away, and removing one exactly that one. */
  lemma RevokeTakesAll(w: World, user: string, id: string)
    ensures var gs := Apply(w, Revoke(user)).grants;
            forall x :: (x in gs <==> x in w.grants && w.grants[x].subject != user) && (x in gs ==> gs[x] == w.grants[x])
    ensures var gs := Apply(w, Remove(id)).grants;
            forall x :: (x in gs <==> x in w.grants && x != id) && (x in gs ==> gs[x] == w.grants[x])
  {
  }

  /** An approval stores one grant for its user, with a working pair of tokens, and touches no other. */
  lemma IssueWorks(w: World, id: string, subject: string, now: int, a: string, r: string, t: int, a': string, r': string)
    requires Enabled(w, Issue(id, subject, now, a, r)) && Spelt(id, a) && Spelt(id, r)
    ensures var gs := Apply(w, Issue(id, subject, now, a, r)).grants;
            && id in gs && gs[id].subject == subject
            && (forall x :: x != id ==> (x in gs <==> x in w.grants) && (x in w.grants ==> gs[x] == w.grants[x]))
            && Authenticates(gs, "dzo_" + id + "_" + a, t) == (if t <= now + 60 * 60 then Some(id) else None)
            && RefreshOn(gs, "dzr_" + id + "_" + r, t, a', r').1 == if t <= now + 30 * 24 * 60 * 60 then Rotates else Expired
  {
    IssuedTokensWork(w.grants, id, subject, now, a, r, t, a', r');
    hide Authenticates, RefreshOn;
  }

  /** A refresh that nothing disturbs, from the token presented to the answer, is one `RefreshMCPGrant`. */
  lemma UndisturbedRefresh(w: World, pid: nat, token: string, now: int, a: string, r: string, w1: World, w2: World, w3: World)
    requires Enabled(w, Present(pid, token)) && w1 == Apply(w, Present(pid, token))
    requires Enabled(w1, Tick(pid, now, a, r)) && w2 == Apply(w1, Tick(pid, now, a, r))
    requires Enabled(w2, Tick(pid, now, a, r)) && w3 == Apply(w2, Tick(pid, now, a, r))
    requires forall id :: id in w.grants ==> w.grants[id].id == id
    ensures pid in w3.calls && w3.calls[pid].Finished? && w3.calls[pid].token == token
    ensures (w3.grants, w3.calls[pid].outcome) == RefreshOn(w.grants, token, now, a, r)
  {
    hide GrantId, Token;
  }
}
