/**
  The size measure across the shapes a value can take: lists, maps, structs, pointers and references weigh
  what their contents weigh in a plain list, and are as deep.
 */
module Shapes {
  import opened Graphs
  import opened ValueSize

  /** What does not contain anything: a flag is a byte, what is not looked into is a word, and nothing is nothing. */
  lemma LeafWeights(s: string)
    ensures Full(Nil) == 0 && Full(NilPtr) == 0 && Full(Flag) == 1 && Full(Number) == 8 && Full(Opaque) == 8
    ensures Full(Text(s)) == |s| && FullField(Hidden) == 8
  {
  }

  // ----- the same contents as a plain list

  lemma ItemsMore(vs: seq<Value>, v: Value)
    ensures FullItems(vs + [v]) == FullItems(vs) + Full(v)
  {
    assert (vs + [v])[..|vs|] == vs;
  }

  lemma OneItem(v: Value)
    ensures Full(Items([v])) == Full(v)
  {
    assert [] + [v] == [v];
    ItemsMore([], v);
  }

  function Each<T>(wrap: T -> Value, xs: seq<T>): (r: seq<Value>)
    ensures |r| == |xs| && forall i :: 0 <= i < |xs| ==> r[i] == wrap(xs[i])
  {
    seq(|xs|, i requires 0 <= i < |xs| => wrap(xs[i]))
  }

  lemma EachStep<T>(wrap: T -> Value, xs: seq<T>)
    requires xs != []
    ensures Each(wrap, xs) == Each(wrap, xs[..|xs| - 1]) + [wrap(xs[|xs| - 1])]
  {
  }

  const AsText := (s: string) => Text(s)
  const AsRef := (r: Ref) => RefVal(r)
  const AsValue := (e: Entry) => e.value

  /** A list of strings, or of references, weighs what a list of each of them weighs. */
  lemma {:induction false} TextsLikeItems(ss: seq<string>)
    ensures Full(Texts(ss)) == Full(Items(Each(AsText, ss)))
  {
    if ss != [] {
      TextsLikeItems(ss[..|ss| - 1]);
      EachStep(AsText, ss);
      ItemsMore(Each(AsText, ss[..|ss| - 1]), Text(ss[|ss| - 1]));
    }
  }

  lemma {:induction false} RefsLikeItems(rs: seq<Ref>)
    ensures Full(Refs(rs)) == Full(Items(Each(AsRef, rs)))
  {
    if rs != [] {
      RefsLikeItems(rs[..|rs| - 1]);
      EachStep(AsRef, rs);
      ItemsMore(Each(AsRef, rs[..|rs| - 1]), RefVal(rs[|rs| - 1]));
      assert Full(Refs(rs)) == FullRefs(rs[..|rs| - 1]) + FullRef(rs[|rs| - 1]);
      assert Full(Refs(rs[..|rs| - 1])) == FullRefs(rs[..|rs| - 1]);
      assert Full(RefVal(rs[|rs| - 1])) == FullRef(rs[|rs| - 1]);
    }
  }

  /** A list of references is as deep as a plain list of them, except at the last level, where one that carries nothing is not looked at. */
  lemma RefsAsDeep(rs: seq<Ref>, d: nat)
    ensures (Deep(Refs(rs), d) <==> Deep(Items(Each(AsRef, rs)), d)) <==>
            d != 63 || rs == [] || exists i :: 0 <= i < |rs| && rs[i].inline != Nil
  {
    var vs := Each(AsRef, rs);
    forall i | 0 <= i < |rs| ensures Deep(vs[i], d + 1) <==> d + 1 >= 64 || Deep(rs[i].inline, d + 2) { assert vs[i] == RefVal(rs[i]); }
    forall i | 0 <= i < |rs| && d + 1 >= 64 ensures Deep(rs[i].inline, d + 2) <==> rs[i].inline != Nil { }
    if rs != [] { assert Deep(vs[0], d + 1) <==> d + 1 >= 64 || Deep(rs[0].inline, d + 2); }
  }

  /** A reference weighs its own strings and what it carries, and is as deep as a list of that alone. */
  lemma RefLikeItems(r: Ref, d: nat)
    ensures Full(RefVal(r)) == |r.mime| + |r.uri| + Full(Texts(r.headers)) + Full(Items([r.inline]))
    ensures Deep(RefVal(r), d) <==> Deep(Items([r.inline]), d)
  {
    OneItem(r.inline);
    assert Full(Texts(r.headers)) == Lengths(r.headers) && Full(RefVal(r)) == FullRef(r);
    assert forall i :: 0 <= i < 1 ==> [r.inline][i] == r.inline;
    assert Deep([r.inline][0], d + 1) <==> Deep(r.inline, d + 1);
  }

  /** So is a pointer. */
  lemma PointerLikeItems(t: Value, d: nat)
    ensures Full(Ptr(t)) == Full(Items([t])) && (Deep(Ptr(t), d) <==> Deep(Items([t]), d))
  {
    OneItem(t);
    assert Full(Ptr(t)) == Full(t);
    assert Deep([t][0], d + 1) <==> Deep(t, d + 1);
  }

  /** A map by strings is a map whose keys are strings, one level in as the values are. */
  function AsPairs(es: seq<Entry>): (ps: seq<Pair>)
    ensures |ps| == |es| && forall i :: 0 <= i < |es| ==> ps[i] == Pair(Text(es[i].key), es[i].value)
  {
    seq(|es|, i requires 0 <= i < |es| => Pair(Text(es[i].key), es[i].value))
  }

  lemma {:induction false} DictLikeMap(es: seq<Entry>)
    ensures Full(Dict(es)) == Full(Map(AsPairs(es)))
  {
    if es != [] {
      var k := |es| - 1;
      DictLikeMap(es[..k]);
      assert AsPairs(es)[..k] == AsPairs(es[..k]);
      assert Full(Dict(es)) == FullDict(es) == FullDict(es[..k]) + |es[k].key| + Full(es[k].value);
      assert Full(Dict(es[..k])) == FullDict(es[..k]) && Full(Map(AsPairs(es[..k]))) == FullMap(AsPairs(es[..k]));
      assert Full(Map(AsPairs(es))) == FullMap(AsPairs(es)) == FullMap(AsPairs(es[..k])) + FullPair(AsPairs(es)[k]);
      assert FullPair(AsPairs(es)[k]) == Full(Text(es[k].key)) + Full(es[k].value);
    }
  }

  lemma DictAsDeep(es: seq<Entry>, d: nat)
    ensures Deep(Dict(es), d) <==> Deep(Items(Each(AsValue, es)), d)
  {
    var vs := Each(AsValue, es);
    forall i | 0 <= i < |es| ensures Deep(vs[i], d + 1) <==> Deep(es[i].value, d + 1) { assert vs[i] == es[i].value; }
  }

  /** The contents of pairs, one after the other. */
  function Contents(ps: seq<Pair>): seq<Value> {
    if ps == [] then [] else Contents(ps[..|ps| - 1]) + [ps[|ps| - 1].fst] + [ps[|ps| - 1].snd]
  }

  lemma {:induction false} MapLikeItems(ps: seq<Pair>)
    ensures Full(Map(ps)) == Full(Items(Contents(ps)))
  {
    if ps != [] {
      var k := |ps| - 1;
      MapLikeItems(ps[..k]);
      ItemsMore(Contents(ps[..k]), ps[k].fst);
      ItemsMore(Contents(ps[..k]) + [ps[k].fst], ps[k].snd);
      assert Full(Map(ps)) == FullMap(ps) == FullMap(ps[..k]) + FullPair(ps[k]) && Full(Map(ps[..k])) == FullMap(ps[..k]);
      assert FullPair(ps[k]) == Full(ps[k].fst) + Full(ps[k].snd);
    }
  }

  lemma {:induction false} MapAsDeep(ps: seq<Pair>, d: nat)
    ensures (exists i :: 0 <= i < |Contents(ps)| && Deep(Contents(ps)[i], d)) <==>
            exists i :: 0 <= i < |ps| && (Deep(ps[i].fst, d) || Deep(ps[i].snd, d))
  {
    hide Deep;
    if ps != [] {
      var k := |ps| - 1;
      var before, all := Contents(ps[..k]), Contents(ps);
      MapAsDeep(ps[..k], d);
      assert all == before + [ps[k].fst] + [ps[k].snd];
      if i :| 0 <= i < |all| && Deep(all[i], d) {
        if i < |before| {
          assert before[i] == all[i];
          var j :| 0 <= j < k && (Deep(ps[..k][j].fst, d) || Deep(ps[..k][j].snd, d));
          assert ps[j] == ps[..k][j];
        }
      }
      if j :| 0 <= j < |ps| && (Deep(ps[j].fst, d) || Deep(ps[j].snd, d)) {
        if j < k {
          assert ps[..k][j] == ps[j];
          var i :| 0 <= i < |before| && Deep(before[i], d);
          assert all[i] == before[i];
        } else {
          assert all[|before|] == ps[k].fst && all[|before| + 1] == ps[k].snd;
        }
      }
    }
  }

  /** A map is as deep as the list of its keys and values. */
  lemma MapDepth(ps: seq<Pair>, d: nat)
    ensures Deep(Map(ps), d) <==> Deep(Items(Contents(ps)), d)
  {
    MapAsDeep(ps, d + 1);
    DeepMap(ps, d);
  }

  /** A struct weighs what its open fields weigh in a list, and a word for each hidden one, and is as deep as that list. */
  function Open(fs: seq<Field>): seq<Value> {
    if fs == [] then []
    else Open(fs[..|fs| - 1]) + if fs[|fs| - 1].Shown? then [fs[|fs| - 1].content] else []
  }

  function HiddenOnes(fs: seq<Field>): nat {
    if fs == [] then 0 else HiddenOnes(fs[..|fs| - 1]) + if fs[|fs| - 1].Shown? then 0 else 1
  }

  lemma {:induction false} StructLikeItems(fs: seq<Field>)
    ensures Full(Struct(fs)) == Full(Items(Open(fs))) + 8 * HiddenOnes(fs)
  {
    assert Full(Struct(fs)) == FullStruct(fs) && Full(Items(Open(fs))) == FullItems(Open(fs));
    if fs != [] {
      var k := |fs| - 1;
      StructLikeItems(fs[..k]);
      if fs[k].Shown? { ItemsMore(Open(fs[..k]), fs[k].content); }
      assert Full(Struct(fs)) == FullStruct(fs) == FullStruct(fs[..k]) + FullField(fs[k]) && Full(Struct(fs[..k])) == FullStruct(fs[..k]);
      assert FullField(fs[k]) == if fs[k].Shown? then Full(fs[k].content) else 8;
      assert Full(Items(Open(fs[..k]))) == FullItems(Open(fs[..k]));
      if fs[k].Hidden? { assert Open(fs) == Open(fs[..k]); }
    }
  }

  lemma {:induction false} StructAsDeep(fs: seq<Field>, d: nat)
    ensures (exists i :: 0 <= i < |Open(fs)| && Deep(Open(fs)[i], d)) <==> exists i :: 0 <= i < |fs| && DeepField(fs[i], d)
  {
    hide Deep;
    if fs != [] {
      var k := |fs| - 1;
      var before, all := Open(fs[..k]), Open(fs);
      StructAsDeep(fs[..k], d);
      if i :| 0 <= i < |all| && Deep(all[i], d) {
        if i < |before| {
          assert before[i] == all[i];
          var j :| 0 <= j < k && DeepField(fs[..k][j], d);
          assert fs[j] == fs[..k][j];
        } else {
          assert DeepField(fs[k], d);
        }
      }
      if j :| 0 <= j < |fs| && DeepField(fs[j], d) {
        if j < k {
          assert fs[..k][j] == fs[j];
          var i :| 0 <= i < |before| && Deep(before[i], d);
          assert all[i] == before[i];
        } else {
          assert all[|before|] == fs[k].content;
        }
      }
    }
  }

  lemma StructDepth(fs: seq<Field>, d: nat)
    ensures Deep(Struct(fs), d) <==> Deep(Items(Open(fs)), d)
  {
    StructAsDeep(fs, d + 1);
    DeepStruct(fs, d);
  }
}
