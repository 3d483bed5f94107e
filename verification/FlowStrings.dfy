/**
  Every string a caller supplies is charged, wherever in a value or a flow document it sits.
 */
module FlowStrings {
  import opened Graphs
  import opened ValueSize

  // ----- the strings of a value

  ghost function Strings(v: Value): seq<string>
    decreases v
  {
    match v
    case Text(s) => [s]
    case Texts(ss) => ss
    case Items(vs) => ItemStrings(vs)
    case Dict(es) => DictStrings(es)
    case RefVal(r) => RefStrings(r)
    case Refs(rs) => RefsStrings(rs)
    case Map(ps) => MapStrings(ps)
    case Ptr(t) => Strings(t)
    case Struct(fs) => FieldStrings(fs)
    case _ => []
  }

  ghost function ItemStrings(vs: seq<Value>): seq<string>
    decreases vs
  {
    if vs == [] then [] else ItemStrings(vs[..|vs| - 1]) + Strings(vs[|vs| - 1])
  }

  ghost function DictStrings(es: seq<Entry>): seq<string>
    decreases es
  {
    if es == [] then [] else DictStrings(es[..|es| - 1]) + [es[|es| - 1].key] + Strings(es[|es| - 1].value)
  }

  ghost function RefStrings(r: Ref): seq<string>
    decreases r
  {
    [r.mime, r.uri] + r.headers + Strings(r.inline)
  }

  ghost function RefsStrings(rs: seq<Ref>): seq<string>
    decreases rs
  {
    if rs == [] then [] else RefsStrings(rs[..|rs| - 1]) + RefStrings(rs[|rs| - 1])
  }

  ghost function MapStrings(ps: seq<Pair>): seq<string>
    decreases ps
  {
    if ps == [] then [] else MapStrings(ps[..|ps| - 1]) + PairStrings(ps[|ps| - 1])
  }

  ghost function PairStrings(p: Pair): seq<string>
    decreases p
  {
    Strings(p.fst) + Strings(p.snd)
  }

  ghost function FieldStrings(fs: seq<Field>): seq<string>
    decreases fs
  {
    if fs == [] then [] else FieldStrings(fs[..|fs| - 1]) + OneField(fs[|fs| - 1])
  }

  ghost function OneField(f: Field): seq<string>
    decreases f
  {
    if f.Hidden? then [] else Strings(f.content)
  }

  lemma {:induction false} LengthsOfTwo(a: seq<string>, b: seq<string>)
    ensures Lengths(a + b) == Lengths(a) + Lengths(b)
  {
    if b == [] { assert a + b == a; }
    else {
      assert (a + b)[..|a + b| - 1] == a + b[..|b| - 1];
      LengthsOfTwo(a, b[..|b| - 1]);
    }
  }

  lemma LengthsOfOne(s: string)
    ensures Lengths([s]) == |s|
  {
    assert [s][..0] == [];
  }

  /** A value weighs at least as much as all the strings in it together. */
  lemma {:induction false} StringsCharged(v: Value)
    ensures Lengths(Strings(v)) <= Full(v)
    decreases v
  {
    match v
    case Text(s) => LengthsOfOne(s);
    case Items(vs) => ItemsCharged(vs);
    case Dict(es) => DictCharged(es);
    case RefVal(r) => RefCharged(r);
    case Refs(rs) => RefsCharged(rs);
    case Map(ps) => MapCharged(ps);
    case Ptr(t) => StringsCharged(t);
    case Struct(fs) => FieldsCharged(fs);
    case _ =>
  }

  lemma {:induction false} ItemsCharged(vs: seq<Value>)
    ensures Lengths(ItemStrings(vs)) <= FullItems(vs)
    decreases vs
  {
    if vs != [] {
      var k := |vs| - 1;
      ItemsCharged(vs[..k]);
      StringsCharged(vs[k]);
      LengthsOfTwo(ItemStrings(vs[..k]), Strings(vs[k]));
    }
  }

  lemma {:induction false} DictCharged(es: seq<Entry>)
    ensures Lengths(DictStrings(es)) <= FullDict(es)
    decreases es
  {
    if es != [] {
      var k := |es| - 1;
      DictCharged(es[..k]);
      StringsCharged(es[k].value);
      LengthsOfOne(es[k].key);
      LengthsOfTwo(DictStrings(es[..k]), [es[k].key]);
      LengthsOfTwo(DictStrings(es[..k]) + [es[k].key], Strings(es[k].value));
    }
  }

  lemma {:induction false} RefCharged(r: Ref)
    ensures Lengths(RefStrings(r)) <= FullRef(r)
    decreases r
  {
    StringsCharged(r.inline);
    LengthsOfOne(r.mime);
    LengthsOfOne(r.uri);
    assert [r.mime, r.uri] == [r.mime] + [r.uri];
    LengthsOfTwo([r.mime], [r.uri]);
    LengthsOfTwo([r.mime, r.uri], r.headers);
    LengthsOfTwo([r.mime, r.uri] + r.headers, Strings(r.inline));
  }

  lemma {:induction false} RefsCharged(rs: seq<Ref>)
    ensures Lengths(RefsStrings(rs)) <= FullRefs(rs)
    decreases rs
  {
    if rs != [] {
      var k := |rs| - 1;
      RefsCharged(rs[..k]);
      RefCharged(rs[k]);
      LengthsOfTwo(RefsStrings(rs[..k]), RefStrings(rs[k]));
    }
  }

  lemma {:induction false} MapCharged(ps: seq<Pair>)
    ensures Lengths(MapStrings(ps)) <= FullMap(ps)
    decreases ps
  {
    if ps != [] {
      var k := |ps| - 1;
      MapCharged(ps[..k]);
      PairCharged(ps[k]);
      LengthsOfTwo(MapStrings(ps[..k]), PairStrings(ps[k]));
    }
  }

  lemma {:induction false} PairCharged(p: Pair)
    ensures Lengths(PairStrings(p)) <= FullPair(p)
    decreases p
  {
    StringsCharged(p.fst);
    StringsCharged(p.snd);
    LengthsOfTwo(Strings(p.fst), Strings(p.snd));
  }

  lemma {:induction false} FieldsCharged(fs: seq<Field>)
    ensures Lengths(FieldStrings(fs)) <= FullStruct(fs)
    decreases fs
  {
    if fs != [] {
      var k := |fs| - 1;
      FieldsCharged(fs[..k]);
      OneFieldCharged(fs[k]);
      LengthsOfTwo(FieldStrings(fs[..k]), OneField(fs[k]));
    }
  }

  lemma {:induction false} OneFieldCharged(f: Field)
    ensures Lengths(OneField(f)) <= FullField(f)
    decreases f
  {
    if f.Shown? { StringsCharged(f.content); }
  }

  // ----- the strings of a flow document

  ghost function All<T(!new)>(strings: T -> seq<string>, xs: seq<T>): seq<string> {
    if xs == [] then [] else All(strings, xs[..|xs| - 1]) + strings(xs[|xs| - 1])
  }

  ghost function SettingStrings(s: Setting): seq<string> {
    [s.name, s.text]
  }

  ghost function NodeStrings(n: FlowNode): seq<string> {
    [n.id, n.step, n.caption] + All(SettingStrings, n.env) + DictStrings(n.params)
  }

  ghost function EdgeStrings(e: Edge): seq<string> {
    [e.from, e.fromPort, e.to, e.toPort]
  }

  ghost function PanelStrings(p: Panel): seq<string> {
    [p.id, p.title, p.color]
  }

  ghost function TriggerStrings(t: Trigger): seq<string> {
    [t.kind, t.cron, t.tz, t.secret, t.formTitle] + t.formFields
  }

  ghost function HeadStrings(f: Flow): seq<string> {
    [f.name, f.description, f.icon, f.language, f.owner, f.version, f.visibility] +
    if f.notify.Some? then [f.notify.value.webhook, f.notify.value.email] else []
  }

  /** Everything the caller wrote: the flow's own fields, and those of its nodes, edges, panels and triggers. */
  ghost function FlowText(f: Flow): seq<string> {
    HeadStrings(f) + All(NodeStrings, f.nodes) + All(EdgeStrings, f.edges) + All(PanelStrings, f.panels) + All(TriggerStrings, f.triggers)
  }

  /** Cutting one string off the front. */
  lemma LengthsOfMore(s: string, rest: seq<string>)
    ensures Lengths([s] + rest) == |s| + Lengths(rest)
  {
    LengthsOfOne(s);
    LengthsOfTwo([s], rest);
  }

  lemma SettingCharged(s: Setting)
    ensures Lengths(SettingStrings(s)) == SettingBytes(s)
  {
    assert SettingStrings(s) == [s.name] + ([s.text] + []);
    LengthsOfMore(s.name, [s.text] + []);
    LengthsOfMore(s.text, []);
  }

  lemma {:induction false} SettingsCharged(xs: seq<Setting>)
    ensures Lengths(All(SettingStrings, xs)) == Sum(SettingBytes, xs)
  {
    if xs != [] {
      var k := |xs| - 1;
      SettingsCharged(xs[..k]);
      SettingCharged(xs[k]);
      LengthsOfTwo(All(SettingStrings, xs[..k]), SettingStrings(xs[k]));
    }
  }

  lemma NodeCharged(n: FlowNode)
    ensures Lengths(NodeStrings(n)) <= NodeBytes(n)
  {
    hide All, DictStrings, FullDict, Sum, SettingBytes, Lengths;
    DictCharged(n.params);
    SettingsCharged(n.env);
    var rest := All(SettingStrings, n.env) + DictStrings(n.params);
    LengthsOfTwo(All(SettingStrings, n.env), DictStrings(n.params));
    assert NodeStrings(n) == [n.id] + ([n.step] + ([n.caption] + rest));
    LengthsOfMore(n.id, [n.step] + ([n.caption] + rest));
    LengthsOfMore(n.step, [n.caption] + rest);
    LengthsOfMore(n.caption, rest);
  }

  lemma {:induction false} NodesCharged(xs: seq<FlowNode>)
    ensures Lengths(All(NodeStrings, xs)) <= Sum(NodeBytes, xs)
  {
    hide NodeStrings, NodeBytes;
    if xs != [] {
      var k := |xs| - 1;
      NodesCharged(xs[..k]);
      NodeCharged(xs[k]);
      LengthsOfTwo(All(NodeStrings, xs[..k]), NodeStrings(xs[k]));
    }
  }

  lemma EdgeCharged(e: Edge)
    ensures Lengths(EdgeStrings(e)) == EdgeBytes(e)
  {
    hide Lengths;
    assert EdgeStrings(e) == [e.from] + ([e.fromPort] + ([e.to] + ([e.toPort] + [])));
    LengthsOfMore(e.from, [e.fromPort] + ([e.to] + ([e.toPort] + [])));
    LengthsOfMore(e.fromPort, [e.to] + ([e.toPort] + []));
    LengthsOfMore(e.to, [e.toPort] + []);
    LengthsOfMore(e.toPort, []);
    NoLength();
  }

  lemma NoLength()
    ensures Lengths([]) == 0
  {
  }

  lemma {:induction false} EdgesCharged(xs: seq<Edge>)
    ensures Lengths(All(EdgeStrings, xs)) == Sum(EdgeBytes, xs)
  {
    hide EdgeStrings, EdgeBytes;
    if xs != [] {
      var k := |xs| - 1;
      EdgesCharged(xs[..k]);
      EdgeCharged(xs[k]);
      LengthsOfTwo(All(EdgeStrings, xs[..k]), EdgeStrings(xs[k]));
    }
  }

  lemma PanelCharged(p: Panel)
    ensures Lengths(PanelStrings(p)) == PanelBytes(p)
  {
    hide Lengths;
    assert PanelStrings(p) == [p.id] + ([p.title] + ([p.color] + []));
    LengthsOfMore(p.id, [p.title] + ([p.color] + []));
    LengthsOfMore(p.title, [p.color] + []);
    LengthsOfMore(p.color, []);
    NoLength();
  }

  lemma {:induction false} PanelsCharged(xs: seq<Panel>)
    ensures Lengths(All(PanelStrings, xs)) == Sum(PanelBytes, xs)
  {
    hide PanelStrings, PanelBytes;
    if xs != [] {
      var k := |xs| - 1;
      PanelsCharged(xs[..k]);
      PanelCharged(xs[k]);
      LengthsOfTwo(All(PanelStrings, xs[..k]), PanelStrings(xs[k]));
    }
  }

  lemma TriggerCharged(t: Trigger)
    ensures Lengths(TriggerStrings(t)) == TriggerBytes(t)
  {
    hide Lengths;
    var ff := t.formFields;
    assert TriggerStrings(t) == [t.kind] + ([t.cron] + ([t.tz] + ([t.secret] + ([t.formTitle] + ff))));
    LengthsOfMore(t.kind, [t.cron] + ([t.tz] + ([t.secret] + ([t.formTitle] + ff))));
    LengthsOfMore(t.cron, [t.tz] + ([t.secret] + ([t.formTitle] + ff)));
    LengthsOfMore(t.tz, [t.secret] + ([t.formTitle] + ff));
    LengthsOfMore(t.secret, [t.formTitle] + ff);
    LengthsOfMore(t.formTitle, ff);
  }

  lemma {:induction false} TriggersCharged(xs: seq<Trigger>)
    ensures Lengths(All(TriggerStrings, xs)) == Sum(TriggerBytes, xs)
  {
    hide TriggerStrings, TriggerBytes;
    if xs != [] {
      var k := |xs| - 1;
      TriggersCharged(xs[..k]);
      TriggerCharged(xs[k]);
      LengthsOfTwo(All(TriggerStrings, xs[..k]), TriggerStrings(xs[k]));
    }
  }

  lemma HeadCharged(f: Flow)
    ensures Lengths(HeadStrings(f)) == Head(f)
  {
    hide Lengths;
    NoLength();
    var tail := if f.notify.Some? then [f.notify.value.webhook, f.notify.value.email] else [];
    if f.notify.Some? {
      assert tail == [f.notify.value.webhook] + ([f.notify.value.email] + []);
      LengthsOfMore(f.notify.value.webhook, [f.notify.value.email] + []);
      LengthsOfMore(f.notify.value.email, []);
    }
    var t7 := [f.visibility] + tail;
    var t6 := [f.version] + t7;
    var t5 := [f.owner] + t6;
    var t4 := [f.language] + t5;
    var t3 := [f.icon] + t4;
    var t2 := [f.description] + t3;
    assert HeadStrings(f) == [f.name] + t2;
    LengthsOfMore(f.name, t2);
    LengthsOfMore(f.description, t3);
    LengthsOfMore(f.icon, t4);
    LengthsOfMore(f.language, t5);
    LengthsOfMore(f.owner, t6);
    LengthsOfMore(f.version, t7);
    LengthsOfMore(f.visibility, tail);
  }

  /** A flow document is over the budget whenever the strings in it are, and is never measured below them. */
  lemma EveryStringIsCharged(f: Flow, budget: int, total: int)
    requires Measures(total, budget, FullFlow(f), DeepFlow(f))
    ensures Lengths(FlowText(f)) > budget ==> total > budget
    ensures total <= budget ==> total >= Lengths(FlowText(f))
  {
    hide Lengths, All, Sum, Head, HeadStrings, DeepFlow;
    HeadCharged(f);
    NodesCharged(f.nodes);
    EdgesCharged(f.edges);
    PanelsCharged(f.panels);
    TriggersCharged(f.triggers);
    var a, b, c, d, e := HeadStrings(f), All(NodeStrings, f.nodes), All(EdgeStrings, f.edges), All(PanelStrings, f.panels), All(TriggerStrings, f.triggers);
    LengthsOfTwo(a, b);
    LengthsOfTwo(a + b, c);
    LengthsOfTwo(a + b + c, d);
    LengthsOfTwo(a + b + c + d, e);
  }
}
