/**
  OAuth grants of MCP clients and the rotation of their refresh tokens (auth/mcpgrant.go), as
  section 4.14.2 of RFC 9700 asks for it. The lookup hash is taken to be injective, so a stored
  hash is represented by the token it is the hash of; minted secrets never repeat.
 */
module McpGrants {
  import opened Graphs

  const ACCESS_PREFIX := "dzo_"
  const REFRESH_PREFIX := "dzr_"
  const ACCESS_TTL := 3600
  const REFRESH_TTL := 2592000

  // ----- tokens name their grant

  function Token(prefix: string, id: string, secret: string): string {
    prefix + id + "_" + secret
  }

  /** What comes before the first underscore, and what after it. */
  function Cut(s: string): Option<(string, string)> {
    if s == "" then None
    else if s[0] == '_' then Some(("", s[1..]))
    else
      var r := Cut(s[1..]);
      if r.None? then None else Some(([s[0]] + r.value.0, r.value.1))
  }

  function GrantId(token: string, prefix: string): Option<string> {
    if !(prefix <= token) then None
    else
      var cut := Cut(token[|prefix|..]);
      if cut.None? || cut.value.0 == "" || cut.value.1 == "" then None else Some(cut.value.0)
  }

  lemma {:induction false} CutFindsId(id: string, secret: string)
    ensures Cut(id + "_" + secret).Some?
    ensures Cut(id + "_" + secret).value.0 == id <==> '_' !in id
    ensures '_' !in id ==> Cut(id + "_" + secret).value.1 == secret
  {
    var s := id + "_" + secret;
    if id == "" {
      assert s[1..] == secret;
    } else {
      assert s[1..] == id[1..] + "_" + secret;
      assert id == [id[0]] + id[1..];
      CutFindsId(id[1..], secret);
    }
  }

  /** A token gives its grant's id back exactly when the id is non-empty without an underscore and the secret non-empty. */
  lemma TokenRoundTrip(prefix: string, id: string, secret: string)
    ensures GrantId(Token(prefix, id, secret), prefix) == Some(id) <==> id != "" && '_' !in id && secret != ""
  {
    var t := Token(prefix, id, secret);
    assert t[|prefix|..] == id + "_" + secret;
    CutFindsId(id, secret);
  }

  // ----- grants

  datatype Grant = Grant(id: string, subject: string, access: string, accessUntil: int,
                         refresh: string, prev: string, refreshUntil: int)

  type Grants = map<string, Grant>

  function Minted(g: Grant, now: int, a: string, r: string): Grant {
    g.(access := Token(ACCESS_PREFIX, g.id, a), accessUntil := now + ACCESS_TTL,
       refresh := Token(REFRESH_PREFIX, g.id, r), refreshUntil := now + REFRESH_TTL)
  }

  /** The same grant with a new token pair, remembering the refresh token it replaces. */
  function Rotated(g: Grant, now: int, a: string, r: string): Grant {
    Minted(g.(prev := g.refresh), now, a, r)
  }

  datatype Verdict = Reused | Invalid | Expired | Rotates

  function Judge(g: Grant, token: string, now: int): Verdict {
    if g.prev != "" && token == g.prev then Reused
    else if token != g.refresh then Invalid
    else if now > g.refreshUntil then Expired
    else Rotates
  }

  /** Which grant an access token speaks for. */
  function Authenticates(gs: Grants, token: string, now: int): Option<string> {
    var id := GrantId(token, ACCESS_PREFIX);
    if id.None? || id.value !in gs || gs[id.value].access != token || now > gs[id.value].accessUntil then None else id
  }

  /** A whole refresh with nothing in between. */
  function RefreshOn(gs: Grants, token: string, now: int, a: string, r: string): (Grants, Verdict) {
    var id := GrantId(token, REFRESH_PREFIX);
    if id.None? || id.value !in gs then (gs, Invalid)
    else
      var v := Judge(gs[id.value], token, now);
      match v
      case Invalid => (gs, v)
      case Reused => (gs - {id.value}, v)
      case Expired => (gs - {id.value}, v)
      case Rotates => (gs[id.value := Rotated(gs[id.value], now, a, r)], v)
  }

  class GrantStore {
    var grants: Grants

    constructor ()
      ensures grants == map[]
    {
      grants := map[];
    }

    method Put(g: Grant)
      modifies this
      ensures grants == old(grants)[g.id := g]
    {
      grants := grants[g.id := g];
    }

    method Get(id: string) returns (g: Option<Grant>)
      ensures g == if id in grants then Some(grants[id]) else None
    {
      return if id in grants then Some(grants[id]) else None;
    }

    /** Of two swaps that expect the same refresh token only one can find it. */
    method Swap(g: Grant, old0: string) returns (ok: bool)
      modifies this
      ensures ok == (g.id in old(grants) && old(grants)[g.id].refresh == old0)
      ensures grants == if ok then old(grants)[g.id := g] else old(grants)
    {
      if g.id !in grants || grants[g.id].refresh != old0 { return false; }
      grants := grants[g.id := g];
      return true;
    }

    method Delete(id: string)
      modifies this
      ensures grants == old(grants) - {id}
    {
      grants := grants - {id};
    }

    method RevokeSubject(subject: string) returns (n: nat)
      modifies this
      ensures grants == map id | id in old(grants) && old(grants)[id].subject != subject :: old(grants)[id]
      ensures n == |old(grants)| - |grants|
    {
      ghost var was := grants;
      var left := grants.Keys;
      n := 0;
      while left != {}
        invariant left <= was.Keys
        invariant grants == map id | id in was && (id in left || was[id].subject != subject) :: was[id]
        invariant n == |was| - |grants|
      {
        var id :| id in left;
        left := left - {id};
        if grants[id].subject == subject {
          RemoveOne(grants, id);
          grants := grants - {id};
          n := n + 1;
        }
      }
    }
  }

  lemma RemoveOne<V>(m: map<string, V>, k: string)
    requires k in m
    ensures |m - {k}| == |m| - 1
  {
    assert (m - {k}).Keys == m.Keys - {k};
    assert |m - {k}| == |(m - {k}).Keys| && |m| == |m.Keys|;
  }

  /** Rotates both tokens of the grant the refresh token belongs to; `a` and `r` are the new secrets. */
  method RefreshMCPGrant(store: GrantStore, token: string, now: int, a: string, r: string) returns (g: Option<Grant>, v: Verdict)
    requires forall id :: id in store.grants ==> store.grants[id].id == id
    modifies store
    ensures (store.grants, v) == RefreshOn(old(store.grants), token, now, a, r)
    ensures g.Some? <==> v.Rotates?
    ensures g.Some? ==> g.value.id in store.grants && store.grants[g.value.id] == g.value && g.value.prev == token
  {
    var id := GrantId(token, REFRESH_PREFIX);
    if id.None? { return None, Invalid; }
    var found := store.Get(id.value);
    if found.None? { return None, Invalid; }
    var cur := found.value;
    if cur.prev != "" && token == cur.prev {
      store.Delete(id.value);
      return None, Reused;
    }
    if token != cur.refresh { return None, Invalid; }
    if now > cur.refreshUntil {
      store.Delete(id.value);
      return None, Expired;
    }
    var next := Rotated(cur, now, a, r);
    var ok := store.Swap(next, cur.refresh);
    return Some(next), Rotates;
  }

  // ----- racing refreshes

  datatype Call =
    | Presented(token: string)
    | Deleting(token: string, id: string, why: Verdict)
    | Swapping(token: string, next: Grant)
    | Finished(token: string, outcome: Verdict)

  /**
    `used` holds every token ever minted, `ids` every grant id ever issued, `gone` every id deleted,
    `rotations` the refresh tokens that rotated a grant, `retired` every token a rotation replaced.
   */
  datatype World = World(grants: Grants, calls: map<nat, Call>, used: set<string>, ids: set<string>, gone: set<string>,
                         rotations: seq<string>, retired: set<string>)

  datatype Event =
    | Issue(id: string, subject: string, now: int, a: string, r: string)  // an approval stores a new grant
    | Present(pid: nat, refreshToken: string)
    | Tick(call: nat, time: int, accessSecret: string, refreshSecret: string)  // the next store operation of a refresh
    | Remove(grantId: string)
    | Revoke(user: string)

  function NewGrant(id: string, subject: string, now: int, a: string, r: string): Grant {
    Minted(Grant(id, subject, "", 0, "", "", 0), now, a, r)
  }

  function Tokens(g: Grant): set<string> {
    {g.access, g.refresh}
  }

  predicate Looks(w: World, pid: nat, now: int) {
    && pid in w.calls && w.calls[pid].Presented?
    && var id := GrantId(w.calls[pid].token, REFRESH_PREFIX);
       id.Some? && id.value in w.grants && Judge(w.grants[id.value], w.calls[pid].token, now).Rotates?
  }

  predicate Enabled(w: World, ev: Event) {
    match ev
    case Issue(id, subject, now, a, r) => id !in w.ids && Tokens(NewGrant(id, subject, now, a, r)) !! w.used
    case Present(pid, _) => pid !in w.calls
    case Tick(pid, now, a, r) =>
      pid in w.calls &&
      (Looks(w, pid, now) ==>
        Tokens(Rotated(w.grants[GrantId(w.calls[pid].token, REFRESH_PREFIX).value], now, a, r)) !! w.used)
    case Remove(_) => true
    case Revoke(_) => true
  }

  function WithCall(w: World, pid: nat, c: Call): World {
    w.(calls := w.calls[pid := c])
  }

  function Look(w: World, pid: nat, token: string, now: int, a: string, r: string): World {
    var id := GrantId(token, REFRESH_PREFIX);
    if id.None? || id.value !in w.grants then WithCall(w, pid, Finished(token, Invalid))
    else
      var g := w.grants[id.value];
      match Judge(g, token, now)
      case Invalid => WithCall(w, pid, Finished(token, Invalid))
      case Reused => WithCall(w, pid, Deleting(token, id.value, Reused))
      case Expired => WithCall(w, pid, Deleting(token, id.value, Expired))
      case Rotates =>
        var next := Rotated(g, now, a, r);
        WithCall(w.(used := w.used + Tokens(next)), pid, Swapping(token, next))
  }

  function SwapOn(w: World, pid: nat, token: string, next: Grant): World {
    if next.id in w.grants && w.grants[next.id].refresh == token then
      WithCall(w.(grants := w.grants[next.id := next], rotations := w.rotations + [token],
                  retired := w.retired + Tokens(w.grants[next.id])), pid, Finished(token, Rotates))
    else WithCall(w, pid, Finished(token, Invalid))
  }

  function Drop(w: World, ids: set<string>): World {
    w.(grants := w.grants - ids, gone := w.gone + ids * w.ids)
  }

  function Of(gs: Grants, subject: string): set<string> {
    set id | id in gs && gs[id].subject == subject
  }

  function Apply(w: World, ev: Event): World
    requires Enabled(w, ev)
  {
    match ev
    case Issue(id, subject, now, a, r) =>
      var g := NewGrant(id, subject, now, a, r);
      w.(grants := w.grants[id := g], used := w.used + Tokens(g), ids := w.ids + {id})
    case Present(pid, token) => WithCall(w, pid, Presented(token))
    case Remove(id) => Drop(w, {id})
    case Revoke(subject) => Drop(w, Of(w.grants, subject))
    case Tick(pid, now, a, r) =>
      match w.calls[pid]
      case Presented(token) => Look(w, pid, token, now, a, r)
      case Deleting(token, id, why) => WithCall(Drop(w, {id}), pid, Finished(token, why))
      case Swapping(token, next) => SwapOn(w, pid, token, next)
      case Finished(_, _) => w
  }

  ghost predicate Next(w: World, w': World) {
    exists ev :: Enabled(w, ev) && w' == Apply(w, ev)
  }

  ghost predicate IsExecution(tr: seq<World>) {
    && tr != [] && tr[0] == World(map[], map[], {}, {}, {}, [], {})
    && forall i, j :: 0 <= i < j < |tr| && j == i + 1 ==> Next(tr[i], tr[j])
  }

  // ----- what every step keeps

  lemma PairDiffers(g: Grant, now: int, a: string, r: string)
    ensures Minted(g, now, a, r).access != Minted(g, now, a, r).refresh
  {
    assert Minted(g, now, a, r).access[2] == 'o' && Minted(g, now, a, r).refresh[2] == 'r';
  }

  ghost predicate Apart(g: Grant, h: Grant) {
    Tokens(g) !! Tokens(h)
  }

  /** The tokens of a grant, stored or about to be, are minted, different, and not replaced yet. */
  ghost predicate Live(w: World, g: Grant) {
    g.access != g.refresh && Tokens(g) <= w.used && Tokens(g) !! w.retired
  }

  ghost predicate StoredOk(w: World) {
    && (forall id :: id in w.grants ==> w.grants[id].id == id && id in w.ids && id !in w.gone && Live(w, w.grants[id]))
    && (forall i, j :: i in w.grants && j in w.grants && i != j ==> Apart(w.grants[i], w.grants[j]))
  }

  /** The grant a call is about to store is the one its token names, and remembers that token. */
  ghost predicate Replaces(token: string, next: Grant) {
    next.prev == token && GrantId(token, REFRESH_PREFIX) == Some(next.id)
  }

  ghost predicate SwapsOk(w: World) {
    && (forall p :: p in w.calls && w.calls[p].Swapping? ==> Live(w, w.calls[p].next) && Replaces(w.calls[p].token, w.calls[p].next))
    && (forall p, q :: p in w.calls && q in w.calls && p != q && w.calls[p].Swapping? && w.calls[q].Swapping? ==>
         Apart(w.calls[p].next, w.calls[q].next))
    && (forall p, id :: p in w.calls && id in w.grants && w.calls[p].Swapping? ==> Apart(w.calls[p].next, w.grants[id]))
  }

  ghost predicate Distinct(s: seq<string>) {
    forall i, j :: 0 <= i < j < |s| ==> s[i] != s[j]
  }

  ghost predicate BooksOk(w: World) {
    && w.retired <= w.used && w.gone <= w.ids && Distinct(w.rotations)
    && (forall t :: t in w.rotations ==> t in w.retired)
    && (forall p :: p in w.calls && w.calls[p].Deleting? ==> w.calls[p].id in w.ids)
  }

  ghost predicate Inv(w: World) {
    StoredOk(w) && SwapsOk(w) && BooksOk(w)
  }

  /** Fresh tokens are apart from all that were minted before. */
  lemma FreshIsApart(w: World, g: Grant, h: Grant)
    requires Tokens(g) !! w.used && Tokens(h) <= w.used
    ensures Apart(g, h) && Apart(h, g)
  {
  }

  lemma LiveLater(w: World, w': World, g: Grant)
    requires Live(w, g) && w.used <= w'.used && w'.retired == w.retired
    ensures Live(w', g)
  {
  }

  lemma IssueKeepsInv(w: World, id: string, g: Grant)
    requires Inv(w) && id !in w.ids && g.id == id && Tokens(g) !! w.used && g.access != g.refresh
    ensures Inv(w.(grants := w.grants[id := g], used := w.used + Tokens(g), ids := w.ids + {id}))
  {
    var w' := w.(grants := w.grants[id := g], used := w.used + Tokens(g), ids := w.ids + {id});
    hide Apart, Live;
    assert Live(w', g) by { NewIsLive(w, w', g); }
    forall i | i in w.grants ensures Live(w', w.grants[i]) && Apart(w.grants[i], g) && Apart(g, w.grants[i]) {
      LiveLater(w, w', w.grants[i]);
      LiveIsUsed(w, w.grants[i]);
      FreshIsApart(w, g, w.grants[i]);
    }
    forall p | p in w.calls && w.calls[p].Swapping? ensures Live(w', w.calls[p].next) && Apart(w.calls[p].next, g) {
      LiveLater(w, w', w.calls[p].next);
      LiveIsUsed(w, w.calls[p].next);
      FreshIsApart(w, g, w.calls[p].next);
    }
  }

  lemma LiveIsUsed(w: World, g: Grant)
    requires Live(w, g)
    ensures Tokens(g) <= w.used
  {
  }

  lemma NewIsLive(w: World, w': World, g: Grant)
    requires BooksOk(w) && Tokens(g) !! w.used && g.access != g.refresh && w'.used == w.used + Tokens(g) && w'.retired == w.retired
    ensures Live(w', g)
  {
  }

  lemma MintKeepsInv(w: World, pid: nat, token: string, next: Grant)
    requires Inv(w) && Tokens(next) !! w.used && next.access != next.refresh && Replaces(token, next)
    requires pid in w.calls && !w.calls[pid].Swapping?
    ensures Inv(WithCall(w.(used := w.used + Tokens(next)), pid, Swapping(token, next)))
  {
    var w' := WithCall(w.(used := w.used + Tokens(next)), pid, Swapping(token, next));
    hide Apart, Live;
    assert Live(w', next) by { NewIsLive(w, w', next); }
    forall i | i in w.grants ensures Live(w', w.grants[i]) && Apart(next, w.grants[i]) {
      LiveLater(w, w', w.grants[i]);
      LiveIsUsed(w, w.grants[i]);
      FreshIsApart(w, next, w.grants[i]);
    }
    forall p | p in w.calls && w.calls[p].Swapping?
      ensures Live(w', w.calls[p].next) && Apart(w.calls[p].next, next) && Apart(next, w.calls[p].next)
    {
      LiveLater(w, w', w.calls[p].next);
      LiveIsUsed(w, w.calls[p].next);
      FreshIsApart(w, next, w.calls[p].next);
    }
  }

  lemma DropKeepsInv(w: World, ids: set<string>)
    requires Inv(w)
    ensures Inv(Drop(w, ids))
  {
    hide Apart;
  }

  /** Any change of a call to one that is not swapping. */
  lemma CallKeepsInv(w: World, pid: nat, c: Call)
    requires Inv(w) && !c.Swapping? && (c.Deleting? ==> c.id in w.ids)
    ensures Inv(WithCall(w, pid, c))
  {
    hide Apart;
  }

  /** A rotation retires the tokens it replaces and no others. */
  lemma LiveAfterSwap(w: World, w': World, g: Grant, h: Grant)
    requires Live(w, h) && Apart(g, h) && w'.used == w.used && w'.retired == w.retired + Tokens(g)
    ensures Live(w', h)
  {
  }

  lemma ApartSymmetric(g: Grant, h: Grant)
    requires Apart(g, h)
    ensures Apart(h, g)
  {
  }

  lemma SwapKeepsStored(w: World, w': World, pid: nat, token: string, next: Grant)
    requires StoredOk(w) && SwapsOk(w) && pid in w.calls && w.calls[pid] == Swapping(token, next)
    requires next.id in w.grants && w.grants[next.id].refresh == token && w' == SwapOn(w, pid, token, next)
    ensures StoredOk(w')
  {
    hide Apart, Live;
    var g := w.grants[next.id];
    assert Apart(next, g);
    ApartSymmetric(next, g);
    LiveAfterSwap(w, w', g, next);
    forall i | i in w.grants && i != next.id
      ensures Live(w', w.grants[i]) && Apart(next, w.grants[i]) && Apart(w.grants[i], next)
    {
      ApartSymmetric(next, w.grants[i]);
      LiveAfterSwap(w, w', g, w.grants[i]);
    }
  }

  lemma SwapKeepsSwaps(w: World, w': World, pid: nat, token: string, next: Grant)
    requires SwapsOk(w) && pid in w.calls && w.calls[pid] == Swapping(token, next)
    requires next.id in w.grants && w.grants[next.id].refresh == token && w' == SwapOn(w, pid, token, next)
    ensures SwapsOk(w')
  {
    hide Apart, Live;
    var g := w.grants[next.id];
    forall p | p in w.calls && p != pid && w.calls[p].Swapping? ensures Live(w', w.calls[p].next) && Apart(w.calls[p].next, next) {
      ApartSymmetric(w.calls[p].next, g);
      LiveAfterSwap(w, w', g, w.calls[p].next);
    }
  }

  lemma SwapKeepsInv(w: World, pid: nat, token: string, next: Grant)
    requires Inv(w) && pid in w.calls && w.calls[pid] == Swapping(token, next)
    requires next.id in w.grants && w.grants[next.id].refresh == token
    ensures Inv(SwapOn(w, pid, token, next))
  {
    var w', g := SwapOn(w, pid, token, next), w.grants[next.id];
    SwapKeepsStored(w, w', pid, token, next);
    SwapKeepsSwaps(w, w', pid, token, next);
    assert Live(w, g);
    hide StoredOk, SwapsOk;
  }

  lemma LookKeepsInv(w: World, pid: nat, now: int, a: string, r: string)
    requires Inv(w) && Enabled(w, Tick(pid, now, a, r)) && w.calls[pid].Presented?
    ensures Inv(Look(w, pid, w.calls[pid].token, now, a, r))
  {
    hide StoredOk, SwapsOk, BooksOk, Token;
    var token := w.calls[pid].token;
    var id := GrantId(token, REFRESH_PREFIX);
    CallKeepsInv(w, pid, Finished(token, Invalid));
    if id.Some? && id.value in w.grants {
      var g := w.grants[id.value];
      StoredIssued(w, id.value);
      CallKeepsInv(w, pid, Deleting(token, id.value, Reused));
      CallKeepsInv(w, pid, Deleting(token, id.value, Expired));
      if Judge(g, token, now).Rotates? {
        PairDiffers(g.(prev := g.refresh), now, a, r);
        MintKeepsInv(w, pid, token, Rotated(g, now, a, r));
      }
    }
  }

  lemma StoredIssued(w: World, id: string)
    requires StoredOk(w) && id in w.grants
    ensures id in w.ids && w.grants[id].id == id && id !in w.gone
  {
  }

  lemma EventKeepsInv(w: World, w': World)
    requires Inv(w) && Next(w, w')
    ensures Inv(w')
  {
    hide Inv, Look, SwapOn, Drop, Minted;
    var ev :| Enabled(w, ev) && w' == Apply(w, ev);
    match ev
    case Issue(id, subject, now, a, r) =>
      PairDiffers(Grant(id, subject, "", 0, "", "", 0), now, a, r);
      NewGrantId(id, subject, now, a, r);
      IssueKeepsInv(w, id, NewGrant(id, subject, now, a, r));
    case Present(pid, token) => CallKeepsInv(w, pid, Presented(token));
    case Remove(id) => DropKeepsInv(w, {id});
    case Revoke(subject) => DropKeepsInv(w, Of(w.grants, subject));
    case Tick(pid, now, a, r) => TickKeepsInv(w, pid, now, a, r);
  }

  lemma NewGrantId(id: string, subject: string, now: int, a: string, r: string)
    ensures NewGrant(id, subject, now, a, r).id == id
  {
  }

  lemma TickKeepsInv(w: World, pid: nat, now: int, a: string, r: string)
    requires Inv(w) && Enabled(w, Tick(pid, now, a, r))
    ensures Inv(Apply(w, Tick(pid, now, a, r)))
  {
    hide Inv, Look, Drop, StoredOk, SwapsOk;
    match w.calls[pid]
    case Presented(token) => LookKeepsInv(w, pid, now, a, r);
    case Deleting(token, id, why) =>
      DropKeepsInv(w, {id});
      CallKeepsInv(Drop(w, {id}), pid, Finished(token, why));
    case Swapping(token, next) =>
      CallKeepsInv(w, pid, Finished(token, Invalid));
      if next.id in w.grants && w.grants[next.id].refresh == token { SwapKeepsInv(w, pid, token, next); }
    case Finished(_, _) =>
  }

  lemma {:induction false} ExecutionKeepsInv(tr: seq<World>, n: nat)
    requires IsExecution(tr) && n < |tr|
    ensures Inv(tr[n])
  {
    hide Next;
    if n > 0 {
      ExecutionKeepsInv(tr, n - 1);
      EventKeepsInv(tr[n - 1], tr[n]);
    }
  }

  // ----- what follows for every run

  /** However refreshes race, a refresh token rotates its grant at most once. */
  lemma RotatesAtMostOnce(tr: seq<World>, n: nat)
    requires IsExecution(tr) && n < |tr|
    ensures Distinct(tr[n].rotations)
  {
    ExecutionKeepsInv(tr, n);
  }

  lemma EventOnlyAdds(w: World, w': World)
    requires Next(w, w')
    ensures w.retired <= w'.retired && w.gone <= w'.gone
  {
    hide Minted, GrantId, Judge;
    var ev :| Enabled(w, ev) && w' == Apply(w, ev);
  }

  lemma {:induction false} BooksOnlyGrow(tr: seq<World>, m: nat, n: nat)
    requires IsExecution(tr) && m <= n < |tr|
    ensures tr[m].retired <= tr[n].retired && tr[m].gone <= tr[n].gone
  {
    hide Next;
    if m < n {
      BooksOnlyGrow(tr, m, n - 1);
      EventOnlyAdds(tr[n - 1], tr[n]);
    }
  }

  /** A token a rotation replaced never works again: not as an access token, not for another rotation. */
  lemma RetiredNeverWorks(tr: seq<World>, m: nat, n: nat, token: string, now: int)
    requires IsExecution(tr) && m <= n < |tr| && token in tr[m].retired
    ensures Authenticates(tr[n].grants, token, now).None?
    ensures forall id :: id in tr[n].grants ==> !Judge(tr[n].grants[id], token, now).Rotates?
  {
    ExecutionKeepsInv(tr, n);
    BooksOnlyGrow(tr, m, n);
    forall id | id in tr[n].grants ensures token != tr[n].grants[id].access && token != tr[n].grants[id].refresh {
      assert Live(tr[n], tr[n].grants[id]);
    }
  }

  /** A remark on the shape of the store: at any moment at most one access token speaks for a grant. */
  lemma OneAccessToken(gs: Grants, s: string, t: string, now: int)
    requires Authenticates(gs, s, now).Some? && Authenticates(gs, s, now) == Authenticates(gs, t, now)
    ensures s == t
  {
  }

  /** A deleted grant is never revived, by a swap that was under way or otherwise. */
  lemma DeletedStaysDeleted(tr: seq<World>, m: nat, n: nat, id: string)
    requires IsExecution(tr) && m <= n < |tr| && id in tr[m].gone
    ensures id !in tr[n].grants
  {
    ExecutionKeepsInv(tr, n);
    BooksOnlyGrow(tr, m, n);
  }

  /** A presented replay is on its way to deleting the grant, and once finished has. */
  ghost predicate Condemns(w: World, pid: nat, id: string) {
    pid in w.calls && (if w.calls[pid].Deleting? then w.calls[pid].id == id && id in w.ids else w.calls[pid].Finished? && id in w.gone)
  }

  lemma EventKeepsCondemns(w: World, w': World, pid: nat, id: string)
    requires Condemns(w, pid, id) && Next(w, w')
    ensures Condemns(w', pid, id)
  {
    hide Minted, GrantId, Judge;
    var ev :| Enabled(w, ev) && w' == Apply(w, ev);
  }

  lemma {:induction false} CondemnsHolds(tr: seq<World>, m: nat, n: nat, pid: nat, id: string)
    requires IsExecution(tr) && m <= n < |tr| && Condemns(tr[m], pid, id)
    ensures Condemns(tr[n], pid, id)
  {
    hide Next, Condemns;
    if m < n {
      CondemnsHolds(tr, m, n - 1, pid, id);
      EventKeepsCondemns(tr[n - 1], tr[n], pid, id);
    }
  }

  /** Since `g` was stored it has been kept, replaced by a rotation, or deleted. */
  ghost predicate Since(w: World, g: Grant) {
    g.id in w.ids && (g.id in w.grants ==> w.grants[g.id] == g || g.refresh in w.retired)
  }

  lemma EventKeepsSince(w: World, w': World, g: Grant)
    requires Inv(w) && Since(w, g) && Next(w, w')
    ensures Since(w', g)
  {
    hide Inv, StoredOk, SwapsOk, Minted, GrantId, Judge;
    var ev :| Enabled(w, ev) && w' == Apply(w, ev);
    if ev.Issue? { NewGrantId(ev.id, ev.subject, ev.now, ev.a, ev.r); }
  }

  lemma {:induction false} SinceHolds(tr: seq<World>, m: nat, n: nat, g: Grant)
    requires IsExecution(tr) && m <= n < |tr| && Since(tr[m], g)
    ensures Since(tr[n], g)
  {
    hide Next, Since, Inv;
    if m < n {
      SinceHolds(tr, m, n - 1, g);
      ExecutionKeepsInv(tr, n - 1);
      EventKeepsSince(tr[n - 1], tr[n], g);
    }
  }

  /** A call that was swapping and then has rotated has stored what it was swapping in. */
  lemma RotationStores(w: World, w': World, c: nat, token: string, next: Grant)
    requires Inv(w) && Next(w, w') && c in w.calls && w.calls[c] == Swapping(token, next)
    requires c in w'.calls && w'.calls[c] == Finished(token, Rotates)
    ensures next.id in w'.grants && w'.grants[next.id] == next && Replaces(token, next)
  {
    hide Live, Apart, Minted, GrantId, Judge, StoredOk;
    var ev :| Enabled(w, ev) && w' == Apply(w, ev);
  }

  /**
    Replaying a refresh token that was rotated away revokes the connection. The rotation is the step of
    call `c` at `k`, and the grant has the token it was then given when the replay, call `pid`, looks at
    it: once the replay has finished, the grant is gone for good.
   */
  lemma ReplayRevokes(tr: seq<World>, k: nat, m: nat, n: nat, c: nat, pid: nat, token: string, next: Grant, now: int, a: string, r: string)
    requires IsExecution(tr) && k < m < n < |tr|
    requires c in tr[k].calls && tr[k].calls[c] == Swapping(token, next)
    requires c in tr[k + 1].calls && tr[k + 1].calls[c] == Finished(token, Rotates)
    requires next.id in tr[m].grants && tr[m].grants[next.id].refresh == next.refresh
    requires pid in tr[m].calls && tr[m].calls[pid] == Presented(token)
    requires Enabled(tr[m], Tick(pid, now, a, r)) && tr[m + 1] == Apply(tr[m], Tick(pid, now, a, r))
    requires pid in tr[n].calls && tr[n].calls[pid].Finished?
    ensures next.id !in tr[n].grants
  {
    hide Next;
    ExecutionKeepsInv(tr, k);
    ExecutionKeepsInv(tr, k + 1);
    ExecutionKeepsInv(tr, m);
    RotationStores(tr[k], tr[k + 1], c, token, next);
    StoredIssued(tr[k + 1], next.id);
    SinceHolds(tr, k + 1, m, next);
    assert Live(tr[m], tr[m].grants[next.id]);
    StoredIssued(tr[m], next.id);
    ReplayIsCondemned(tr[m], pid, token, next, now, a, r);
    CondemnsHolds(tr, m + 1, n, pid, next.id);
    DeletedStaysDeleted(tr, n, n, next.id);
  }

  lemma ReplayIsCondemned(w: World, pid: nat, token: string, g: Grant, now: int, a: string, r: string)
    requires g.id in w.grants && w.grants[g.id] == g && g.id in w.ids && Replaces(token, g)
    requires pid in w.calls && w.calls[pid] == Presented(token) && Enabled(w, Tick(pid, now, a, r))
    ensures Condemns(Apply(w, Tick(pid, now, a, r)), pid, g.id)
  {
    assert token != "";
  }

  /** The steps of an undisturbed refresh, taken in a row, do what the sequential refresh does. */
  lemma StepsAreRefresh(w: World, pid: nat, now: int, a: string, r: string)
    requires StoredOk(w) && pid in w.calls && w.calls[pid].Presented? && Enabled(w, Tick(pid, now, a, r))
    ensures var w1 := Apply(w, Tick(pid, now, a, r));
            var w2 := if Enabled(w1, Tick(pid, now, a, r)) then Apply(w1, Tick(pid, now, a, r)) else w1;
            w2.calls[pid].Finished? && (w2.grants, w2.calls[pid].outcome) == RefreshOn(w.grants, w.calls[pid].token, now, a, r)
  {
    hide Token, Live, Apart;
    var token := w.calls[pid].token;
    var id := GrantId(token, REFRESH_PREFIX);
    if id.Some? && id.value in w.grants { assert w.grants[id.value].id == id.value; }
  }
}
