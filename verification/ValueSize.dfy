/**
  The early-stopping size measure (core/valuesize.go).

  A value is what the walk sees of it: strings are their bytes, a map is its entries in the order
  one iteration happens to visit them, and every Go value whose kind the walk does not look into
  is `Opaque`. The reference definitions `Full` and `Deep` know neither a budget nor an order.
 */
module ValueSize {
  import opened Graphs

  const MAX_DEPTH := 64

  datatype Value =
    | Nil
    | Text(text: string)
    | Flag
    | Number
    | Texts(texts: seq<string>)
    | Items(items: seq<Value>)
    | Dict(entries: seq<Entry>)
    | RefVal(ref: Ref)
    | Refs(refs: seq<Ref>)
    | Map(pairs: seq<Pair>)
    | NilPtr
    | Ptr(target: Value)
    | Struct(fields: seq<Field>)
    | Opaque

  datatype Entry = Entry(key: string, value: Value)
  datatype Pair = Pair(fst: Value, snd: Value)
  datatype Field = Hidden | Shown(content: Value)
  datatype Ref = Ref(mime: string, uri: string, headers: seq<string>, inline: Value)

  // ----- the reference: what a value weighs, and whether it is too deep

  function Lengths(ss: seq<string>): nat {
    if ss == [] then 0 else Lengths(ss[..|ss| - 1]) + |ss[|ss| - 1]|
  }

  function Full(v: Value): nat
    decreases v
  {
    match v
    case Nil => 0
    case Text(s) => |s|
    case Flag => 1
    case Number => 8
    case Texts(ss) => Lengths(ss)
    case Items(vs) => FullItems(vs)
    case Dict(es) => FullDict(es)
    case RefVal(r) => FullRef(r)
    case Refs(rs) => FullRefs(rs)
    case Map(ps) => FullMap(ps)
    case NilPtr => 0
    case Ptr(t) => Full(t)
    case Struct(fs) => FullStruct(fs)
    case Opaque => 8
  }

  function FullItems(vs: seq<Value>): nat
    decreases vs
  {
    if vs == [] then 0 else FullItems(vs[..|vs| - 1]) + Full(vs[|vs| - 1])
  }

  function FullDict(es: seq<Entry>): nat
    decreases es
  {
    if es == [] then 0 else FullDict(es[..|es| - 1]) + |es[|es| - 1].key| + Full(es[|es| - 1].value)
  }

  function FullRef(r: Ref): nat
    decreases r
  {
    |r.mime| + |r.uri| + Lengths(r.headers) + Full(r.inline)
  }

  function FullRefs(rs: seq<Ref>): nat
    decreases rs
  {
    if rs == [] then 0 else FullRefs(rs[..|rs| - 1]) + FullRef(rs[|rs| - 1])
  }

  function FullMap(ps: seq<Pair>): nat
    decreases ps
  {
    if ps == [] then 0 else FullMap(ps[..|ps| - 1]) + FullPair(ps[|ps| - 1])
  }

  function FullPair(p: Pair): nat
    decreases p
  {
    Full(p.fst) + Full(p.snd)
  }

  function FullField(f: Field): nat
    decreases f
  {
    if f.Hidden? then 8 else Full(f.content)
  }

  function FullStruct(fs: seq<Field>): nat
    decreases fs
  {
    if fs == [] then 0 else FullStruct(fs[..|fs| - 1]) + FullField(fs[|fs| - 1])
  }

  /** Some non-nil value is visited at depth 64 or more when the walk enters `v` at depth `d`. */
  predicate Deep(v: Value, d: nat)
    decreases v
  {
    v != Nil && (d >= MAX_DEPTH ||
    match v
    case Items(vs) => exists i :: 0 <= i < |vs| && Deep(vs[i], d + 1)
    case Dict(es) => exists i :: 0 <= i < |es| && Deep(es[i].value, d + 1)
    case RefVal(r) => Deep(r.inline, d + 1)
    case Refs(rs) => exists i :: 0 <= i < |rs| && Deep(rs[i].inline, d + 2)
    case Map(ps) => exists i :: 0 <= i < |ps| && (Deep(ps[i].fst, d + 1) || Deep(ps[i].snd, d + 1))
    case Ptr(t) => Deep(t, d + 1)
    case Struct(fs) => exists i :: 0 <= i < |fs| && fs[i].Shown? && Deep(fs[i].content, d + 1)
    case _ => false)
  }

  // ----- the promise

  /** `r` is over the budget exactly for a too heavy or too deep value, and exact otherwise. */
  predicate Measures(r: int, budget: int, full: nat, deep: bool) {
    (r > budget <==> full > budget || deep) && (r <= budget ==> r == full)
  }

  /** Measuring a part against what is left of the budget measures the whole against the budget. */
  lemma Add(total: int, budget: int, full: nat, deep: bool, n: nat, r: int, part: nat, partDeep: bool)
    requires Measures(total, budget, full, deep) && Measures(r, budget - total, part, partDeep)
    ensures Measures(total + n + r, budget, full + n + part, deep || partDeep)
  {
  }

  /** A list in a list in a list, `n` times. */
  function Nested(n: nat): Value {
    if n == 0 then Flag else Items([Nested(n - 1)])
  }

  /** It is a value at depth 64 that is too deep, whatever it is nested in. */
  lemma {:induction false} TooDeepAt64(n: nat, d: nat)
    ensures Deep(Nested(n), d) <==> n + d >= 64
  {
    if n > 0 {
      TooDeepAt64(n - 1, d + 1);
      assert Nested(n).items[0] == Nested(n - 1);
    }
  }

  // ----- the walk

  method ApproxTexts(ss: seq<string>, budget: int) returns (total: int)
    ensures Measures(total, budget, Lengths(ss), false)
  {
    total := 0;
    for i := 0 to |ss|
      invariant Measures(total, budget, Lengths(ss[..i]), false)
    {
      assert ss[..i + 1][..i] == ss[..i];
      total := total + |ss[i]|;
      if total > budget {
        LengthsPrefix(ss, i + 1);
        return;
      }
    }
    assert ss[..|ss|] == ss;
  }

  lemma {:induction false} LengthsPrefix(ss: seq<string>, i: nat)
    requires i <= |ss|
    ensures Lengths(ss[..i]) <= Lengths(ss)
    decreases |ss| - i
  {
    if i == |ss| { assert ss[..i] == ss; }
    else {
      assert ss[..i + 1][..i] == ss[..i];
      LengthsPrefix(ss, i + 1);
    }
  }

  method ApproxItems(vs: seq<Value>, budget: int, depth: nat) returns (total: int)
    ensures Measures(total, budget, FullItems(vs), exists i :: 0 <= i < |vs| && Deep(vs[i], depth + 1))
    decreases vs
  {
    hide Full, Deep;
    total := 0;
    for i := 0 to |vs|
      invariant Measures(total, budget, FullItems(vs[..i]), exists j :: 0 <= j < i && Deep(vs[j], depth + 1))
    {
      assert vs[..i + 1][..i] == vs[..i];
      var r := Approx(vs[i], budget - total, depth + 1);
      Add(total, budget, FullItems(vs[..i]), exists j :: 0 <= j < i && Deep(vs[j], depth + 1), 0, r, Full(vs[i]), Deep(vs[i], depth + 1));
      total := total + r;
      if total > budget {
        ItemsPrefix(vs, i + 1);
        return;
      }
    }
    assert vs[..|vs|] == vs;
  }

  lemma {:induction false} ItemsPrefix(vs: seq<Value>, i: nat)
    requires i <= |vs|
    ensures FullItems(vs[..i]) <= FullItems(vs)
    decreases |vs| - i
  {
    if i == |vs| { assert vs[..i] == vs; }
    else {
      assert vs[..i + 1][..i] == vs[..i];
      ItemsPrefix(vs, i + 1);
    }
  }

  method ApproxDict(es: seq<Entry>, budget: int, depth: nat) returns (total: int)
    ensures Measures(total, budget, FullDict(es), exists i :: 0 <= i < |es| && Deep(es[i].value, depth + 1))
    decreases es
  {
    hide Full, Deep;
    total := 0;
    for i := 0 to |es|
      invariant Measures(total, budget, FullDict(es[..i]), exists j :: 0 <= j < i && Deep(es[j].value, depth + 1))
    {
      assert es[..i + 1][..i] == es[..i];
      var r := Approx(es[i].value, budget - total, depth + 1);
      Add(total, budget, FullDict(es[..i]), exists j :: 0 <= j < i && Deep(es[j].value, depth + 1),
          |es[i].key|, r, Full(es[i].value), Deep(es[i].value, depth + 1));
      total := total + |es[i].key| + r;
      if total > budget {
        DictPrefix(es, i + 1);
        return;
      }
    }
    assert es[..|es|] == es;
  }

  lemma {:induction false} DictPrefix(es: seq<Entry>, i: nat)
    requires i <= |es|
    ensures FullDict(es[..i]) <= FullDict(es)
    decreases |es| - i
  {
    if i == |es| { assert es[..i] == es; }
    else {
      assert es[..i + 1][..i] == es[..i];
      DictPrefix(es, i + 1);
    }
  }

  method ApproxRef(r: Ref, budget: int, depth: nat) returns (total: int)
    ensures Measures(total, budget, FullRef(r), Deep(r.inline, depth + 1))
    decreases r
  {
    total := |r.mime| + |r.uri|;
    for i := 0 to |r.headers|
      invariant total == |r.mime| + |r.uri| + Lengths(r.headers[..i])
    {
      assert r.headers[..i + 1][..i] == r.headers[..i];
      total := total + |r.headers[i]|;
    }
    assert r.headers[..|r.headers|] == r.headers;
    if total > budget { return; }
    var rest := Approx(r.inline, budget - total, depth + 1);
    total := total + rest;
  }

  method ApproxRefs(rs: seq<Ref>, budget: int, depth: nat) returns (total: int)
    ensures Measures(total, budget, FullRefs(rs), exists i :: 0 <= i < |rs| && Deep(rs[i].inline, depth + 2))
    decreases rs
  {
    hide Full, Deep;
    total := 0;
    for i := 0 to |rs|
      invariant Measures(total, budget, FullRefs(rs[..i]), exists j :: 0 <= j < i && Deep(rs[j].inline, depth + 2))
    {
      assert rs[..i + 1][..i] == rs[..i];
      var r := ApproxRef(rs[i], budget - total, depth + 1);
      Add(total, budget, FullRefs(rs[..i]), exists j :: 0 <= j < i && Deep(rs[j].inline, depth + 2),
          0, r, FullRef(rs[i]), Deep(rs[i].inline, depth + 2));
      total := total + r;
      if total > budget {
        RefsPrefix(rs, i + 1);
        return;
      }
    }
    assert rs[..|rs|] == rs;
  }

  lemma {:induction false} RefsPrefix(rs: seq<Ref>, i: nat)
    requires i <= |rs|
    ensures FullRefs(rs[..i]) <= FullRefs(rs)
    decreases |rs| - i
  {
    if i == |rs| { assert rs[..i] == rs; }
    else {
      assert rs[..i + 1][..i] == rs[..i];
      RefsPrefix(rs, i + 1);
    }
  }

  predicate DeepPair(p: Pair, d: nat) {
    Deep(p.fst, d) || Deep(p.snd, d)
  }

  method ApproxMap(ps: seq<Pair>, budget: int, depth: nat) returns (total: int)
    ensures Measures(total, budget, FullMap(ps), exists i :: 0 <= i < |ps| && DeepPair(ps[i], depth + 1))
    decreases ps
  {
    hide Full, Deep;
    total := 0;
    for i := 0 to |ps|
      invariant Measures(total, budget, FullMap(ps[..i]), exists j :: 0 <= j < i && DeepPair(ps[j], depth + 1))
    {
      assert ps[..i + 1][..i] == ps[..i];
      ghost var full, deep := FullMap(ps[..i]), exists j :: 0 <= j < i && DeepPair(ps[j], depth + 1);
      assert (ps decreases to ps[i]);
      var r := Approx(ps[i].fst, budget - total, depth + 1);
      Add(total, budget, full, deep, 0, r, Full(ps[i].fst), Deep(ps[i].fst, depth + 1));
      total := total + r;
      r := Approx(ps[i].snd, budget - total, depth + 1);
      Add(total, budget, full + Full(ps[i].fst), deep || Deep(ps[i].fst, depth + 1),
          0, r, Full(ps[i].snd), Deep(ps[i].snd, depth + 1));
      total := total + r;
      if total > budget {
        MapPrefix(ps, i + 1);
        return;
      }
    }
    assert ps[..|ps|] == ps;
  }

  lemma {:induction false} MapPrefix(ps: seq<Pair>, i: nat)
    requires i <= |ps|
    ensures FullMap(ps[..i]) <= FullMap(ps)
    decreases |ps| - i
  {
    if i == |ps| { assert ps[..i] == ps; }
    else {
      assert ps[..i + 1][..i] == ps[..i];
      MapPrefix(ps, i + 1);
    }
  }

  predicate DeepField(f: Field, d: nat) {
    f.Shown? && Deep(f.content, d)
  }

  method ApproxStruct(fs: seq<Field>, budget: int, depth: nat) returns (total: int)
    ensures Measures(total, budget, FullStruct(fs), exists i :: 0 <= i < |fs| && DeepField(fs[i], depth + 1))
    decreases fs
  {
    hide Full, Deep;
    total := 0;
    for i := 0 to |fs|
      invariant Measures(total, budget, FullStruct(fs[..i]), exists j :: 0 <= j < i && DeepField(fs[j], depth + 1))
    {
      assert fs[..i + 1][..i] == fs[..i];
      ghost var deep := exists j :: 0 <= j < i && DeepField(fs[j], depth + 1);
      if fs[i].Hidden? {
        total := total + 8;
      } else {
        assert (fs decreases to fs[i]);
        var r := Approx(fs[i].content, budget - total, depth + 1);
        Add(total, budget, FullStruct(fs[..i]), deep, 0, r, FullField(fs[i]), DeepField(fs[i], depth + 1));
        total := total + r;
      }
      if total > budget {
        StructPrefix(fs, i + 1);
        return;
      }
    }
    assert fs[..|fs|] == fs;
  }

  lemma {:induction false} StructPrefix(fs: seq<Field>, i: nat)
    requires i <= |fs|
    ensures FullStruct(fs[..i]) <= FullStruct(fs)
    decreases |fs| - i
  {
    if i == |fs| { assert fs[..i] == fs; }
    else {
      assert fs[..i + 1][..i] == fs[..i];
      StructPrefix(fs, i + 1);
    }
  }

  /** The walk itself; the last four kinds are the ones reached by reflection. */
  method Approx(v: Value, budget: int, depth: nat) returns (r: int)
    ensures Measures(r, budget, Full(v), Deep(v, depth))
    decreases v
  {
    if v == Nil { return 0; }
    if depth >= MAX_DEPTH { return budget + 1; }
    match v
    case Text(s) => r := |s|;
    case Flag => r := 1;
    case Number => r := 8;
    case Texts(ss) => r := ApproxTexts(ss, budget);
    case Items(vs) => r := ApproxItems(vs, budget, depth);
    case Dict(es) => r := ApproxDict(es, budget, depth);
    case RefVal(ref) => r := ApproxRef(ref, budget, depth);
    case Refs(rs) => r := ApproxRefs(rs, budget, depth);
    case Map(ps) => r := ApproxMap(ps, budget, depth);
    case NilPtr => r := 0;
    case Ptr(t) => r := Approx(t, budget, depth + 1);
    case Struct(fs) => r := ApproxStruct(fs, budget, depth);
    case Opaque => r := 8;
  }

  method ApproxValueSize(v: Value, budget: int) returns (r: int)
    ensures Measures(r, budget, Full(v), Deep(v, 0))
  {
    r := Approx(v, budget, 0);
  }

  // ----- the order of map iteration does not matter

  /** The same value, with the entries of every map inside it visited in some other order. */
  ghost predicate Same(v: Value, v': Value)
    decreases v
  {
    match v
    case Items(vs) => v'.Items? && |vs| == |v'.items| && forall i :: 0 <= i < |vs| ==> Same(vs[i], v'.items[i])
    case Dict(es) =>
      v'.Dict? && exists mid :: multiset(mid) == multiset(v'.entries) && SameEntries(es, mid)
    case RefVal(r) => v'.RefVal? && SameRef(r, v'.ref)
    case Refs(rs) => v'.Refs? && |rs| == |v'.refs| && forall i :: 0 <= i < |rs| ==> SameRef(rs[i], v'.refs[i])
    case Map(ps) =>
      v'.Map? && exists mid :: multiset(mid) == multiset(v'.pairs) && SamePairs(ps, mid)
    case Ptr(t) => v'.Ptr? && Same(t, v'.target)
    case Struct(fs) =>
      v'.Struct? && |fs| == |v'.fields| && forall i :: 0 <= i < |fs| ==> SameField(fs[i], v'.fields[i])
    case _ => v' == v
  }

  ghost predicate SameEntries(es: seq<Entry>, es': seq<Entry>)
    decreases es
  {
    |es| == |es'| && forall i :: 0 <= i < |es| ==> es[i].key == es'[i].key && Same(es[i].value, es'[i].value)
  }

  ghost predicate SamePairs(ps: seq<Pair>, ps': seq<Pair>)
    decreases ps
  {
    |ps| == |ps'| && forall i :: 0 <= i < |ps| ==> SamePair(ps[i], ps'[i])
  }

  ghost predicate SameRef(r: Ref, r': Ref)
    decreases r
  {
    r.mime == r'.mime && r.uri == r'.uri && r.headers == r'.headers && Same(r.inline, r'.inline)
  }

  ghost predicate SamePair(p: Pair, p': Pair)
    decreases p
  {
    Same(p.fst, p'.fst) && Same(p.snd, p'.snd)
  }

  ghost predicate SameField(f: Field, f': Field)
    decreases f
  {
    match f
    case Hidden => f'.Hidden?
    case Shown(c) => f'.Shown? && Same(c, f'.content)
  }

  /** The reference measures agree on two values. */
  ghost predicate Agree(v: Value, v': Value) {
    Full(v) == Full(v') && forall d: nat :: Deep(v, d) == Deep(v', d)
  }

  ghost predicate AgreeRef(r: Ref, r': Ref) {
    FullRef(r) == FullRef(r') && Agree(r.inline, r'.inline)
  }

  ghost predicate AgreePair(p: Pair, p': Pair) {
    FullPair(p) == FullPair(p') && forall d: nat :: DeepPair(p, d) == DeepPair(p', d)
  }

  ghost predicate AgreeField(f: Field, f': Field) {
    FullField(f) == FullField(f') && forall d: nat :: DeepField(f, d) == DeepField(f', d)
  }

  lemma {:induction false} ItemsAgree(vs: seq<Value>, vs': seq<Value>)
    requires |vs| == |vs'| && forall i :: 0 <= i < |vs| ==> Agree(vs[i], vs'[i])
    ensures FullItems(vs) == FullItems(vs')
  {
    if vs != [] { ItemsAgree(vs[..|vs| - 1], vs'[..|vs| - 1]); }
  }

  lemma {:induction false} RefsAgree(rs: seq<Ref>, rs': seq<Ref>)
    requires |rs| == |rs'| && forall i :: 0 <= i < |rs| ==> AgreeRef(rs[i], rs'[i])
    ensures FullRefs(rs) == FullRefs(rs')
  {
    if rs != [] { RefsAgree(rs[..|rs| - 1], rs'[..|rs| - 1]); }
  }

  lemma {:induction false} StructAgree(fs: seq<Field>, fs': seq<Field>)
    requires |fs| == |fs'| && forall i :: 0 <= i < |fs| ==> AgreeField(fs[i], fs'[i])
    ensures FullStruct(fs) == FullStruct(fs')
  {
    if fs != [] { StructAgree(fs[..|fs| - 1], fs'[..|fs| - 1]); }
  }

  lemma {:induction false} EntriesAgree(es: seq<Entry>, es': seq<Entry>)
    requires |es| == |es'| && forall i :: 0 <= i < |es| ==> es[i].key == es'[i].key && Agree(es[i].value, es'[i].value)
    ensures FullDict(es) == FullDict(es')
  {
    if es != [] { EntriesAgree(es[..|es| - 1], es'[..|es| - 1]); }
  }

  lemma {:induction false} PairsAgree(ps: seq<Pair>, ps': seq<Pair>)
    requires |ps| == |ps'| && forall i :: 0 <= i < |ps| ==> AgreePair(ps[i], ps'[i])
    ensures FullMap(ps) == FullMap(ps')
  {
    if ps != [] { PairsAgree(ps[..|ps| - 1], ps'[..|ps| - 1]); }
  }

  /** Taking one entry out of a list takes its weight out of the sum. */
  lemma {:induction false} DictWithout(es: seq<Entry>, k: nat)
    requires k < |es|
    ensures FullDict(es) == FullDict(es[..k] + es[k + 1..]) + |es[k].key| + Full(es[k].value)
  {
    var m := |es| - 1;
    var rest := es[..k] + es[k + 1..];
    if k < m {
      DictWithout(es[..m], k);
      assert es[..m][..k] + es[..m][k + 1..] == rest[..m - 1];
    } else {
      assert rest == es[..m];
    }
  }

  lemma {:induction false} DictReordered(es: seq<Entry>, es': seq<Entry>)
    requires multiset(es) == multiset(es')
    ensures FullDict(es) == FullDict(es')
  {
    if es == [] {
      assert |es'| == |multiset(es')| == 0;
    } else {
      var m := |es| - 1;
      var k := DropLast(es, es');
      DictWithout(es', k);
      DictReordered(es[..m], es'[..k] + es'[k + 1..]);
    }
  }

  /** Two orders of the same elements stay so without the last of one and its like in the other. */
  lemma DropLast<T>(s: seq<T>, s': seq<T>) returns (k: nat)
    requires s != [] && multiset(s) == multiset(s')
    ensures k < |s'| && s'[k] == s[|s| - 1]
    ensures multiset(s[..|s| - 1]) == multiset(s'[..k] + s'[k + 1..])
  {
    var m := |s| - 1;
    k := IndexOf(s', s[m], s);
    TakeOut(s, m);
    TakeOut(s', k);
    assert s[..m] + s[m + 1..] == s[..m];
    Cancel(multiset(s[..m]), multiset(s'[..k] + s'[k + 1..]), s[m]);
  }

  lemma TakeOut<T>(s: seq<T>, k: nat)
    requires k < |s|
    ensures multiset(s) == multiset(s[..k] + s[k + 1..]) + multiset{s[k]}
  {
    assert s == s[..k] + [s[k]] + s[k + 1..];
  }

  lemma Cancel<T>(a: multiset<T>, b: multiset<T>, x: T)
    requires a + multiset{x} == b + multiset{x}
    ensures a == b
  {
    assert a == a + multiset{x} - multiset{x};
    assert b == b + multiset{x} - multiset{x};
  }

  lemma IndexOf<T>(s: seq<T>, x: T, same: seq<T>) returns (k: nat)
    requires x in same && multiset(same) == multiset(s)
    ensures k < |s| && s[k] == x
  {
    assert x in multiset(same);
    assert x in s;
    k :| 0 <= k < |s| && s[k] == x;
  }

  lemma {:induction false} MapWithout(ps: seq<Pair>, k: nat)
    requires k < |ps|
    ensures FullMap(ps) == FullMap(ps[..k] + ps[k + 1..]) + FullPair(ps[k])
  {
    var m := |ps| - 1;
    var rest := ps[..k] + ps[k + 1..];
    if k < m {
      MapWithout(ps[..m], k);
      assert ps[..m][..k] + ps[..m][k + 1..] == rest[..m - 1];
    } else {
      assert rest == ps[..m];
    }
  }

  lemma {:induction false} MapReordered(ps: seq<Pair>, ps': seq<Pair>)
    requires multiset(ps) == multiset(ps')
    ensures FullMap(ps) == FullMap(ps')
  {
    if ps == [] {
      assert |ps'| == |multiset(ps')| == 0;
    } else {
      var m := |ps| - 1;
      var k := DropLast(ps, ps');
      MapWithout(ps', k);
      MapReordered(ps[..m], ps'[..k] + ps'[k + 1..]);
    }
  }

  /** Anything some entry has, some entry has in any other order. */
  lemma SomeEntry(mid: seq<Entry>, es: seq<Entry>, d: nat)
    requires multiset(mid) == multiset(es)
    ensures (exists i :: 0 <= i < |mid| && Deep(mid[i].value, d)) <==> (exists i :: 0 <= i < |es| && Deep(es[i].value, d))
  {
    if i :| 0 <= i < |mid| && Deep(mid[i].value, d) { var k := IndexOf(es, mid[i], mid); }
    if i :| 0 <= i < |es| && Deep(es[i].value, d) { var k := IndexOf(mid, es[i], es); }
  }

  lemma SomePair(mid: seq<Pair>, ps: seq<Pair>, d: nat)
    requires multiset(mid) == multiset(ps)
    ensures (exists i :: 0 <= i < |mid| && DeepPair(mid[i], d)) <==> (exists i :: 0 <= i < |ps| && DeepPair(ps[i], d))
  {
    if i :| 0 <= i < |mid| && DeepPair(mid[i], d) { var k := IndexOf(ps, mid[i], mid); }
    if i :| 0 <= i < |ps| && DeepPair(ps[i], d) { var k := IndexOf(mid, ps[i], ps); }
  }

  lemma DictSame(es: seq<Entry>, mid: seq<Entry>, es': seq<Entry>)
    requires |es| == |mid| && multiset(mid) == multiset(es')
    requires forall i :: 0 <= i < |es| ==> es[i].key == mid[i].key && Agree(es[i].value, mid[i].value)
    ensures Agree(Dict(es), Dict(es'))
  {
    EntriesAgree(es, mid);
    DictReordered(mid, es');
    forall d: nat ensures Deep(Dict(es), d) == Deep(Dict(es'), d) { SomeEntry(mid, es', d + 1); }
  }

  lemma MapSame(ps: seq<Pair>, mid: seq<Pair>, ps': seq<Pair>)
    requires |ps| == |mid| && multiset(mid) == multiset(ps')
    requires forall i :: 0 <= i < |ps| ==> AgreePair(ps[i], mid[i])
    ensures Agree(Map(ps), Map(ps'))
  {
    PairsAgree(ps, mid);
    MapReordered(mid, ps');
    forall d: nat ensures Deep(Map(ps), d) == Deep(Map(ps'), d) {
      SomePair(mid, ps', d + 1);
      DeepMap(ps, d);
      DeepMap(ps', d);
    }
  }

  lemma DeepMap(ps: seq<Pair>, d: nat)
    ensures Deep(Map(ps), d) <==> d >= MAX_DEPTH || exists i :: 0 <= i < |ps| && DeepPair(ps[i], d + 1)
  {
  }

  lemma DeepStruct(fs: seq<Field>, d: nat)
    ensures Deep(Struct(fs), d) <==> d >= MAX_DEPTH || exists i :: 0 <= i < |fs| && DeepField(fs[i], d + 1)
  {
  }

  lemma StructSame(fs: seq<Field>, fs': seq<Field>)
    requires |fs| == |fs'| && forall i :: 0 <= i < |fs| ==> AgreeField(fs[i], fs'[i])
    ensures Agree(Struct(fs), Struct(fs'))
  {
    StructAgree(fs, fs');
    forall d: nat ensures Deep(Struct(fs), d) == Deep(Struct(fs'), d) {
      DeepStruct(fs, d);
      DeepStruct(fs', d);
    }
  }

  /** Reordering maps anywhere inside a value changes neither its weight nor its depth. */
  lemma {:induction false} SameAgree(v: Value, v': Value)
    requires Same(v, v')
    ensures Agree(v, v')
    decreases v
  {
    match v
    case Items(vs) =>
      forall i | 0 <= i < |vs| ensures Agree(vs[i], v'.items[i]) { SameAgree(vs[i], v'.items[i]); }
      ItemsAgree(vs, v'.items);
    case Dict(es) =>
      var mid: seq<Entry> :| multiset(mid) == multiset(v'.entries) && SameEntries(es, mid);
      forall i | 0 <= i < |es| ensures es[i].key == mid[i].key && Agree(es[i].value, mid[i].value) {
        SameAgree(es[i].value, mid[i].value);
      }
      DictSame(es, mid, v'.entries);
    case RefVal(r) => SameAgreeRef(r, v'.ref);
    case Refs(rs) =>
      forall i | 0 <= i < |rs| ensures AgreeRef(rs[i], v'.refs[i]) { SameAgreeRef(rs[i], v'.refs[i]); }
      RefsAgree(rs, v'.refs);
    case Map(ps) =>
      var mid: seq<Pair> :| multiset(mid) == multiset(v'.pairs) && SamePairs(ps, mid);
      forall i | 0 <= i < |ps| ensures AgreePair(ps[i], mid[i]) { SameAgreePair(ps[i], mid[i]); }
      MapSame(ps, mid, v'.pairs);
    case Ptr(t) => SameAgree(t, v'.target);
    case Struct(fs) =>
      forall i | 0 <= i < |fs| ensures AgreeField(fs[i], v'.fields[i]) { SameAgreeField(fs[i], v'.fields[i]); }
      StructSame(fs, v'.fields);
    case _ =>
  }

  lemma {:induction false} SameAgreeRef(r: Ref, r': Ref)
    requires SameRef(r, r')
    ensures AgreeRef(r, r')
    decreases r
  {
    SameAgree(r.inline, r'.inline);
  }

  lemma {:induction false} SameAgreePair(p: Pair, p': Pair)
    requires SamePair(p, p')
    ensures AgreePair(p, p')
    decreases p
  {
    SameAgree(p.fst, p'.fst);
    SameAgree(p.snd, p'.snd);
  }

  lemma {:induction false} SameAgreeField(f: Field, f': Field)
    requires SameField(f, f')
    ensures AgreeField(f, f')
    decreases f
  {
    if f.Shown? { SameAgree(f.content, f'.content); }
  }

  /** Two measurements of one value, in whatever iteration orders, come to the same verdict. */
  lemma VerdictIgnoresOrder(v: Value, v': Value, budget: int, r: int, r': int)
    requires Same(v, v')
    requires Measures(r, budget, Full(v), Deep(v, 0)) && Measures(r', budget, Full(v'), Deep(v', 0))
    ensures (r > budget <==> r' > budget) && (r <= budget ==> r == r')
  {
    SameAgree(v, v');
  }

  // ----- the same measure over a whole flow document

  datatype Setting = Setting(name: string, text: string)
  datatype FlowNode = FlowNode(id: string, step: string, caption: string, env: seq<Setting>, params: seq<Entry>)
  datatype Panel = Panel(id: string, title: string, color: string)
  datatype Trigger = Trigger(kind: string, cron: string, tz: string, secret: string, formTitle: string, formFields: seq<string>)
  datatype Notify = Notify(webhook: string, email: string)
  datatype Flow = Flow(name: string, description: string, icon: string, language: string, owner: string, version: string,
                       visibility: string, notify: Option<Notify>, nodes: seq<FlowNode>, edges: seq<Edge>,
                       panels: seq<Panel>, triggers: seq<Trigger>)

  function Head(f: Flow): nat {
    |f.name| + |f.description| + |f.icon| + |f.language| + |f.owner| + |f.version| + |f.visibility| +
    if f.notify.Some? then |f.notify.value.webhook| + |f.notify.value.email| else 0
  }

  function SettingBytes(s: Setting): nat {
    |s.name| + |s.text|
  }

  function NodeBytes(n: FlowNode): nat {
    |n.id| + |n.step| + |n.caption| + Sum(SettingBytes, n.env) + FullDict(n.params)
  }

  function EdgeBytes(e: Edge): nat {
    |e.from| + |e.fromPort| + |e.to| + |e.toPort|
  }

  function PanelBytes(p: Panel): nat {
    |p.id| + |p.title| + |p.color|
  }

  function TriggerBytes(t: Trigger): nat {
    |t.kind| + |t.cron| + |t.tz| + |t.secret| + |t.formTitle| + Lengths(t.formFields)
  }

  function Sum<T>(weight: T -> nat, xs: seq<T>): nat {
    if xs == [] then 0 else Sum(weight, xs[..|xs| - 1]) + weight(xs[|xs| - 1])
  }

  function FullFlow(f: Flow): nat {
    Head(f) + Sum(NodeBytes, f.nodes) + Sum(EdgeBytes, f.edges) + Sum(PanelBytes, f.panels) + Sum(TriggerBytes, f.triggers)
  }

  predicate DeepNode(n: FlowNode) {
    exists i :: 0 <= i < |n.params| && Deep(n.params[i].value, 0)
  }

  predicate DeepFlow(f: Flow) {
    exists i :: 0 <= i < |f.nodes| && DeepNode(f.nodes[i])
  }

  lemma SumStep<T>(weight: T -> nat, xs: seq<T>, i: nat)
    requires i < |xs|
    ensures Sum(weight, xs[..i + 1]) == Sum(weight, xs[..i]) + weight(xs[i])
  {
    assert xs[..i + 1][..i] == xs[..i];
  }

  lemma {:induction false} SumPrefix<T>(weight: T -> nat, xs: seq<T>, i: nat)
    requires i <= |xs|
    ensures Sum(weight, xs[..i]) <= Sum(weight, xs)
    decreases |xs| - i
  {
    if i == |xs| { assert xs[..i] == xs; }
    else {
      SumStep(weight, xs, i);
      SumPrefix(weight, xs, i + 1);
    }
  }

  /** One node: nothing inside it stops the count, not even once it is over the budget. */
  method ChargeNode(n: FlowNode, start: int, budget: int, ghost full: nat, ghost deep: bool) returns (total: int)
    requires Measures(start, budget, full, deep)
    ensures Measures(total, budget, full + NodeBytes(n), deep || DeepNode(n))
  {
    hide Full, Deep, Sum;
    total := start + |n.id| + |n.step| + |n.caption|;
    ghost var base := full + |n.id| + |n.step| + |n.caption|;
    SumNone(SettingBytes, n.env);
    for i := 0 to |n.env|
      invariant Measures(total, budget, base + Sum(SettingBytes, n.env[..i]), deep)
    {
      SumStep(SettingBytes, n.env, i);
      total := total + |n.env[i].name| + |n.env[i].text|;
    }
    assert n.env[..|n.env|] == n.env;
    base := base + Sum(SettingBytes, n.env);
    for i := 0 to |n.params|
      invariant Measures(total, budget, base + FullDict(n.params[..i]), deep || exists j :: 0 <= j < i && Deep(n.params[j].value, 0))
    {
      assert n.params[..i + 1][..i] == n.params[..i];
      var r := ApproxValueSize(n.params[i].value, budget - total);
      Add(total, budget, base + FullDict(n.params[..i]), deep || exists j :: 0 <= j < i && Deep(n.params[j].value, 0),
          |n.params[i].key|, r, Full(n.params[i].value), Deep(n.params[i].value, 0));
      total := total + |n.params[i].key| + r;
    }
    assert n.params[..|n.params|] == n.params;
  }

  method ApproxGraphBytes(f: Flow, budget: int) returns (total: int)
    ensures Measures(total, budget, FullFlow(f), DeepFlow(f))
  {
    hide Sum, NodeBytes, EdgeBytes, PanelBytes, TriggerBytes, DeepNode;
    total := |f.name| + |f.description| + |f.icon| + |f.language| + |f.owner| + |f.version| + |f.visibility|;
    if f.notify.Some? { total := total + |f.notify.value.webhook| + |f.notify.value.email|; }
    ghost var base := Head(f);
    SumNone(NodeBytes, f.nodes);
    for i := 0 to |f.nodes|
      invariant Measures(total, budget, base + Sum(NodeBytes, f.nodes[..i]), exists j :: 0 <= j < i && DeepNode(f.nodes[j]))
    {
      SumStep(NodeBytes, f.nodes, i);
      total := ChargeNode(f.nodes[i], total, budget, base + Sum(NodeBytes, f.nodes[..i]), exists j :: 0 <= j < i && DeepNode(f.nodes[j]));
      if total > budget {
        SumPrefix(NodeBytes, f.nodes, i + 1);
        return;
      }
    }
    assert f.nodes[..|f.nodes|] == f.nodes;
    base := base + Sum(NodeBytes, f.nodes);
    total := ChargeRest(f, total, budget, base, DeepFlow(f));
  }

  lemma SumNone<T>(weight: T -> nat, xs: seq<T>)
    ensures Sum(weight, xs[..0]) == 0
  {
  }

  /** The edges, the canvas panels and the triggers, each section stopping at the budget. */
  method ChargeRest(f: Flow, start: int, budget: int, ghost full: nat, ghost deep: bool) returns (total: int)
    requires Measures(start, budget, full, deep)
    ensures Measures(total, budget, full + Sum(EdgeBytes, f.edges) + Sum(PanelBytes, f.panels) + Sum(TriggerBytes, f.triggers), deep)
  {
    hide Sum, Lengths;
    total := start;
    ghost var base := full;
    SumNone(EdgeBytes, f.edges);
    for i := 0 to |f.edges|
      invariant Measures(total, budget, base + Sum(EdgeBytes, f.edges[..i]), deep)
    {
      SumStep(EdgeBytes, f.edges, i);
      var e := f.edges[i];
      total := total + |e.from| + |e.fromPort| + |e.to| + |e.toPort|;
      if total > budget {
        SumPrefix(EdgeBytes, f.edges, i + 1);
        return;
      }
    }
    assert f.edges[..|f.edges|] == f.edges;
    base := base + Sum(EdgeBytes, f.edges);
    SumNone(PanelBytes, f.panels);
    for i := 0 to |f.panels|
      invariant Measures(total, budget, base + Sum(PanelBytes, f.panels[..i]), deep)
    {
      SumStep(PanelBytes, f.panels, i);
      total := total + |f.panels[i].id| + |f.panels[i].title| + |f.panels[i].color|;
      if total > budget {
        SumPrefix(PanelBytes, f.panels, i + 1);
        return;
      }
    }
    assert f.panels[..|f.panels|] == f.panels;
    base := base + Sum(PanelBytes, f.panels);
    SumNone(TriggerBytes, f.triggers);
    for i := 0 to |f.triggers|
      invariant Measures(total, budget, base + Sum(TriggerBytes, f.triggers[..i]), deep)
    {
      SumStep(TriggerBytes, f.triggers, i);
      var t := f.triggers[i];
      total := total + |t.kind| + |t.cron| + |t.tz| + |t.secret| + |t.formTitle|;
      total := ChargeTexts(t.formFields, total);
      if total > budget {
        SumPrefix(TriggerBytes, f.triggers, i + 1);
        return;
      }
    }
    assert f.triggers[..|f.triggers|] == f.triggers;
  }

  method ChargeTexts(ss: seq<string>, start: int) returns (total: int)
    ensures total == start + Lengths(ss)
  {
    total := start;
    for i := 0 to |ss|
      invariant total == start + Lengths(ss[..i])
    {
      assert ss[..i + 1][..i] == ss[..i];
      total := total + |ss[i]|;
    }
    assert ss[..|ss|] == ss;
  }

  lemma {:induction false} SumWithout<T>(weight: T -> nat, xs: seq<T>, k: nat)
    requires k < |xs|
    ensures Sum(weight, xs) == Sum(weight, xs[..k] + xs[k + 1..]) + weight(xs[k])
  {
    var m := |xs| - 1;
    var rest := xs[..k] + xs[k + 1..];
    if k < m {
      SumWithout(weight, xs[..m], k);
      assert xs[..m][..k] + xs[..m][k + 1..] == rest[..m - 1];
    } else {
      assert rest == xs[..m];
    }
  }

  lemma {:induction false} SumReordered<T>(weight: T -> nat, xs: seq<T>, xs': seq<T>)
    requires multiset(xs) == multiset(xs')
    ensures Sum(weight, xs) == Sum(weight, xs')
  {
    if xs == [] {
      assert |xs'| == |multiset(xs')| == 0;
    } else {
      var k := DropLast(xs, xs');
      SumWithout(weight, xs', k);
      SumReordered(weight, xs[..|xs| - 1], xs'[..k] + xs'[k + 1..]);
    }
  }

  /** The same node with its environment, its parameters and every map in them in another order. */
  ghost predicate SameNode(n: FlowNode, n': FlowNode) {
    && n.id == n'.id && n.step == n'.step && n.caption == n'.caption && multiset(n.env) == multiset(n'.env)
    && exists mid :: multiset(mid) == multiset(n'.params) && SameEntries(n.params, mid)
  }

  ghost predicate SameFlow(f: Flow, f': Flow) {
    && f' == f.(nodes := f'.nodes) && |f.nodes| == |f'.nodes|
    && forall i :: 0 <= i < |f.nodes| ==> SameNode(f.nodes[i], f'.nodes[i])
  }

  lemma SameNodeAgree(n: FlowNode, n': FlowNode)
    requires SameNode(n, n')
    ensures NodeBytes(n) == NodeBytes(n') && DeepNode(n) == DeepNode(n')
  {
    SumReordered(SettingBytes, n.env, n'.env);
    var mid: seq<Entry> :| multiset(mid) == multiset(n'.params) && SameEntries(n.params, mid);
    forall i | 0 <= i < |mid| ensures Agree(n.params[i].value, mid[i].value) {
      SameAgree(n.params[i].value, mid[i].value);
    }
    EntriesAgree(n.params, mid);
    DictReordered(mid, n'.params);
    SomeEntry(mid, n'.params, 0);
  }

  lemma {:induction false} SumAgree(ns: seq<FlowNode>, ns': seq<FlowNode>)
    requires |ns| == |ns'| && forall i :: 0 <= i < |ns| ==> SameNode(ns[i], ns'[i])
    ensures Sum(NodeBytes, ns) == Sum(NodeBytes, ns')
  {
    hide NodeBytes;
    if ns != [] {
      var m := |ns| - 1;
      SumAgree(ns[..m], ns'[..m]);
      SameNodeAgree(ns[m], ns'[m]);
    }
  }

  lemma FlowVerdictIgnoresOrder(f: Flow, f': Flow, budget: int, r: int, r': int)
    requires SameFlow(f, f')
    requires Measures(r, budget, FullFlow(f), DeepFlow(f)) && Measures(r', budget, FullFlow(f'), DeepFlow(f'))
    ensures (r > budget <==> r' > budget) && (r <= budget ==> r == r')
  {
    hide NodeBytes, DeepNode, SameNode;
    SumAgree(f.nodes, f'.nodes);
    forall i | 0 <= i < |f.nodes| ensures DeepNode(f.nodes[i]) == DeepNode(f'.nodes[i]) {
      SameNodeAgree(f.nodes[i], f'.nodes[i]);
    }
  }
}
