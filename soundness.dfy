/** Invariants every production keeps, proved by one induction that follows
    the productions' own mutual recursion:
    - the projected variables are exactly the variables the intermediate
      result reads (every placeholder is projected, nothing else is);
    - every projected variable is the production's variable or one derived
      from it;
    - the operation never nests a Join directly inside a Join;
    - every warning's path locates a node of the element parsed. */
module Soundness {
  import opened Json
  import opened Rdf
  import opened IntermediateResult
  import opened ParseContext
  import opened ParseCommon
  import opened Parse

  function ToSet(vs: seq<Var>): (s: set<Var>)
    ensures forall u :: u in s <==> u in vs
  {
    set u | u in vs
  }

  /** `path` leads from `doc` to a node. `@graph` and `@list` wrappers are
      entered without a path segment, as the graph and list productions add
      none, and a single value is index 0 of itself, as a node object array
      of one value. */
  ghost predicate Resolves(doc: Json, path: seq<PathSegment>)
    decreases doc, |path|
  {
    || path == []
    || (doc.JObject? && exists i :: (0 <= i < |doc.entries| && (doc.entries[i].key == "@graph" || doc.entries[i].key == "@list")
                                     && Resolves(doc.entries[i].value, path)))
    || (path[0].Key? && doc.JObject? && exists i :: (0 <= i < |doc.entries| && doc.entries[i].key == path[0].key
                                                     && Resolves(doc.entries[i].value, path[1..])))
    || (path[0].Index? && doc.JArray? && path[0].index < |doc.items| && Resolves(doc.items[path[0].index], path[1..]))
    || (path[0] == Index(0) && !doc.JArray? && Resolves(doc, path[1..]))
  }

  ghost predicate WarningsResolve(ws: seq<Warning>, doc: Json) {
    forall w :: w in ws ==> Resolves(doc, w.path)
  }

  ghost predicate Scoped(vs: seq<Var>, v: Var) {
    forall u :: u in vs ==> ScopedUnder(u, v)
  }

  /** The invariants of a production's result `r` for `element` bound to `v`. */
  ghost predicate Sound(r: Parsed, element: Json, v: Var) {
    && ToSet(r.projections) == Vars(r.ir)
    && Scoped(r.projections, v)
    && FlatJoins(r.operation)
    && WarningsResolve(r.warnings, element)
  }

  /** The invariants of NodeObject's accumulator, for the object `whole`. */
  ghost predicate AccSound(acc: Acc, v: Var, whole: Json) {
    && ToSet(acc.projections) == VarsOfFields(acc.fields)
    && Scoped(acc.projections, v)
    && FlatJoins(acc.operation)
    && WarningsResolve(acc.warnings, whole)
  }

  lemma {:induction false} VarsOfOneField(f: Field)
    ensures VarsOfFields([f]) == Vars(f.value)
  {
    assert [f][1..] == [];
  }

  lemma {:induction false} AddField(fields: seq<Field>, f: Field, ps: seq<Var>, qs: seq<Var>)
    requires ToSet(ps) == VarsOfFields(fields)
    requires ToSet(qs) == Vars(f.value)
    ensures ToSet(ps + qs) == VarsOfFields(fields + [f])
  {
    VarsOfFieldsAppend(fields, [f]);
    VarsOfOneField(f);
  }

  /** A path into an entry's value, under the entry's key, resolves in the object. */
  lemma {:induction false} NestedResolves(whole: Json, m: Member, ws: seq<Warning>)
    requires whole.JObject? && m in whole.entries
    requires WarningsResolve(ws, m.value)
    ensures WarningsResolve(NestWarningsUnderKey(m.key, ws), whole)
  {
    var r := NestWarningsUnderKey(m.key, ws);
    forall w | w in r
      ensures Resolves(whole, w.path)
    {
      var j :| 0 <= j < |r| && r[j] == w;
      var i :| 0 <= i < |whole.entries| && whole.entries[i] == m;
      assert w.path == [Key(m.key)] + ws[j].path;
      assert w.path[1..] == ws[j].path;
      assert ws[j] in ws;
    }
  }

  /** A path into the first member of an array, under index 0, resolves in the array. */
  lemma {:induction false} IndexResolves(items: seq<Json>, ws: seq<Warning>)
    requires |items| > 0 && WarningsResolve(ws, items[0])
    ensures WarningsResolve(NestUnder(Index(0), ws), JArray(items))
  {
    var r := NestUnder(Index(0), ws);
    forall w | w in r
      ensures Resolves(JArray(items), w.path)
    {
      var j :| 0 <= j < |r| && r[j] == w;
      assert w.path[1..] == ws[j].path;
      assert ws[j] in ws;
    }
  }

  /** A one-element array's paths resolve in its element. */
  lemma {:induction false} SingleResolves(x: Json, ws: seq<Warning>)
    requires !x.JArray? && WarningsResolve(ws, JArray([x]))
    ensures WarningsResolve(ws, x)
  {
    forall w | w in ws
      ensures Resolves(x, w.path)
    {
      var p := w.path;
      if p != [] {
        assert Resolves(JArray([x]), p);
        assert p[0] == Index(0) && Resolves(x, p[1..]);
      }
    }
  }

  /** Paths into a graph or list object's contents resolve in the object. */
  lemma {:induction false} WrapperResolves(x: Json, keyword: string, ws: seq<Warning>)
    requires keyword == "@graph" || keyword == "@list"
    requires HasKey(x, keyword) && WarningsResolve(ws, Lookup(x, keyword))
    ensures WarningsResolve(ws, x)
  {
    var inner := Lookup(x, keyword);
    var i :| 0 <= i < |x.entries| && x.entries[i].key == keyword && x.entries[i].value == inner;
    forall w | w in ws
      ensures Resolves(x, w.path)
    {
    }
  }

  lemma {:induction false} ScopedTrans(vs: seq<Var>, w: Var, v: Var)
    requires Scoped(vs, w) && ScopedUnder(w, v)
    ensures Scoped(vs, v)
  {
    forall u | u in vs
      ensures ScopedUnder(u, v)
    {
      assert w.name == w.name[..|w.name|];
      assert v.name == w.name[..|v.name|];
      assert v.name == u.name[..|v.name|];
    }
  }

  lemma IriEntryValueSound(x: Json, v: Var, ctx: Context)
    ensures Sound(IriEntryValue(x, v, ctx), x, v)
    decreases Size(x), 5
  {
    match x
    case JNull =>
    case JArray(items) => NodeObjectArraySound(items, v, ctx);
    case JObject(_) =>
      if HasKey(x, "@graph") {
        GraphObjectSound(x, v, ctx);
      } else if HasKey(x, "@value") {
        ValueObjectSound(x, v, ctx);
      } else if HasKey(x, "@list") {
        ListObjectSound(x, v, ctx);
      } else if HasKey(x, "@set") {
      } else {
        NodeObjectSound(x, v, ctx);
      }
    case _ =>
  }

  lemma ValueObjectSound(x: Json, v: Var, ctx: Context)
    requires HasKey(x, "@value")
    ensures Sound(ValueObject(x, v, ctx), x, v)
  {
    var inner := Lookup(x, "@value");
    if IsPrimitive(inner) {
      VarsOfOneField(Field("@value", Primitive(inner, v, ctx).ir));
    } else {
      VarsOfOneField(Field("@value", NativeValue(inner)));
    }
  }

  lemma GraphObjectSound(x: Json, v: Var, ctx: Context)
    requires HasKey(x, "@graph")
    ensures Sound(GraphObject(x, v, ctx), x, v)
    decreases Size(x), 4
  {
    WrappedSound("@graph", Lookup(x, "@graph"), v, ctx);
    WrapperResolves(x, "@graph", GraphObject(x, v, ctx).warnings);
  }

  lemma ListObjectSound(x: Json, v: Var, ctx: Context)
    requires HasKey(x, "@list")
    ensures Sound(ListObject(x, v, ctx), x, v)
    decreases Size(x), 4
  {
    WrappedSound("@list", Lookup(x, "@list"), v, ctx);
    WrapperResolves(x, "@list", ListObject(x, v, ctx).warnings);
  }

  lemma WrappedSound(keyword: string, inner: Json, v: Var, ctx: Context)
    ensures Sound(Wrapped(keyword, inner, v, ctx), inner, v)
    decreases Size(inner) + 1, 2
  {
    var p := NodeObjectArrayOf(inner, v, ctx);
    NodeObjectArrayOfSound(inner, v, ctx);
    VarsOfOneField(Field(keyword, p.ir));
  }

  lemma ContainerValueSound(c: Container, x: Json, v: Var, ctx: Context)
    ensures Sound(ContainerValue(c, x, v, ctx), x, v)
    decreases Size(x) + 1, 3
  {
    match c
    case GraphContainer => WrappedSound("@graph", x, v, ctx);
    case ListContainer => WrappedSound("@list", x, v, ctx);
    case SetContainer =>
  }

  lemma NodeObjectArrayOfSound(x: Json, v: Var, ctx: Context)
    ensures Sound(NodeObjectArrayOf(x, v, ctx), x, v)
    decreases Size(x) + 1, 1
  {
    if x.JArray? {
      NodeObjectArraySound(x.items, v, ctx);
    } else {
      assert SizeItems([x]) == 1 + Size(x) by { assert [x][1..] == []; }
      NodeObjectArraySound([x], v, ctx);
      SingleResolves(x, NodeObjectArray([x], v, ctx).warnings);
    }
  }

  lemma NodeObjectArraySound(items: seq<Json>, v: Var, ctx: Context)
    ensures Sound(NodeObjectArray(items, v, ctx), JArray(items), v)
    decreases SizeItems(items), 0
  {
    if |items| > 0 && items[0].JObject? {
      NodeObjectSound(items[0], v, ctx);
      IndexResolves(items, NodeObject(items[0], v, ctx).warnings);
    }
  }

  lemma NodeObjectSound(x: Json, v: Var, ctx: Context)
    requires x.JObject?
    ensures Sound(NodeObject(x, v, ctx), x, v)
    decreases Size(x), 4
  {
    var inner := Propagate(Find(x, "@context"), ctx);
    EntriesSound(x.entries, v, inner, StartOf(v), x);
  }

  lemma EntriesSound(es: seq<Member>, v: Var, ctx: Context, acc: Acc, whole: Json)
    requires whole.JObject? && (forall m :: m in es ==> m in whole.entries)
    requires AccSound(acc, v, whole)
    ensures AccSound(Entries(es, v, ctx, acc), v, whole)
    decreases SizeEntries(es), 6
  {
    if es != [] {
      EntrySound(es[0], v, ctx, acc, whole);
      EntriesSound(es[1..], v, ctx, Entry(es[0], v, ctx, acc), whole);
    }
  }

  lemma EntrySound(m: Member, v: Var, ctx: Context, acc: Acc, whole: Json)
    requires whole.JObject? && m in whole.entries
    requires AccSound(acc, v, whole)
    ensures AccSound(Entry(m, v, ctx, acc), v, whole)
    decreases Size(m.value) + 1, 5
  {
    var k, x := m.key, m.value;
    var r := Entry(m, v, ctx, acc);
    if k == "@context" {
      AddField(acc.fields, Field(k, NativeValue(x)), acc.projections, []);
      assert acc.projections + [] == acc.projections;
    } else {
      match Expand(ctx, k)
      case IdKey =>
        if x == JString(Placeholder) {
          AddField(acc.fields, Field(k, NamePlaceholder(v)), acc.projections, [v]);
        } else {
          AddField(acc.fields, Field(k, NativeValue(x)), acc.projections, []);
          assert acc.projections + [] == acc.projections;
        }
      case IriKey(iri) =>
        EntryForIriSound(m, v, ctx, acc, iri, whole);
      case Undefined =>
        AddField(acc.fields, Field(k, NativeValue(x)), acc.projections, []);
        assert acc.projections + [] == acc.projections;
        var i :| 0 <= i < |whole.entries| && whole.entries[i] == m;
        assert [Key(k)][1..] == [];
    }
  }

  lemma EntryForIriSound(m: Member, v: Var, ctx: Context, acc: Acc, iri: string, whole: Json)
    requires whole.JObject? && m in whole.entries
    requires AccSound(acc, v, whole)
    ensures AccSound(EntryForIri(m.key, m.value, v, ctx, acc, iri), v, whole)
    decreases Size(m.value) + 1, 4
  {
    var k, x := m.key, m.value;
    var w := VariableUnder(v, iri);
    var c := ContainerOf(ctx, k);
    var child := if x.JArray? && c.Some? then ContainerValue(c.value, x, w, ctx) else IriEntryValue(x, w, ctx);
    if x.JArray? && c.Some? {
      ContainerValueSound(c.value, x, w, ctx);
    } else {
      IriEntryValueSound(x, w, ctx);
    }
    AddField(acc.fields, Field(k, child.ir), acc.projections, child.projections);
    ScopedTrans(child.projections, w, v);
    NestedResolves(whole, m, child.warnings);
    MkJoinFlat([Bgp([Pattern(acc.subject, NamedNode(iri), child.term)]), child.operation]);
    MkJoinFlat([acc.operation, Link(acc.subject, iri, child)]);
  }

  lemma PrimitiveSound(x: Json, v: Var, ctx: Context)
    requires IsPrimitive(x)
    ensures Sound(Primitive(x, v, ctx), x, v)
  {
  }

  lemma SetObjectSound(x: Json, v: Var, ctx: Context)
    ensures Sound(SetObject(x, v, ctx), x, v)
  {
  }

  lemma TopLevelGraphContainerSound(x: Json, v: Var, ctx: Context)
    requires HasKey(x, "@graph")
    ensures Sound(TopLevelGraphContainer(x, v, ctx), x, v)
  {
    var ctxDef := Find(x, "@context");
    var g := Lookup(x, "@graph");
    var p := NodeObjectArrayOf(g, v, Propagate(ctxDef, ctx));
    NodeObjectArrayOfSound(g, v, Propagate(ctxDef, ctx));
    WrapperResolves(x, "@graph", p.warnings);
    var contextField := if ctxDef.Some? && Truthy(ctxDef.value) then [Field("@context", NativeValue(ctxDef.value))] else [];
    VarsOfFieldsAppend(contextField, [Field("@graph", p.ir)]);
    VarsOfOneField(Field("@graph", p.ir));
    if contextField != [] {
      VarsOfOneField(contextField[0]);
    }
  }

  lemma DocumentSound(x: Json, v: Var, ctx: Context)
    requires x.JObject? || x.JArray?
    ensures Sound(Document(x, v, ctx), x, v)
  {
    if HasKey(x, "@graph") {
      TopLevelGraphContainerSound(x, v, ctx);
    } else if x.JArray? {
      NodeObjectArraySound(x.items, v, ctx);
    } else {
      NodeObjectSound(x, v, ctx);
    }
  }
}
