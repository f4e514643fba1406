/** Whole queries over the Star Wars vocabulary, translated end to end: the
    intermediate result, the SPARQL algebra and the warnings of each. */
module QueryScenarios {
  import opened Json
  import opened Rdf
  import opened IntermediateResult
  import opened ParseContext
  import opened ParseCommon
  import opened Parse
  import opened Query
  import opened NodeObjectLaws
  import opened IriEntryValueLaws
  import opened Lists

  /** A vocabulary namespace: an absolute IRI, so not a keyword. */
  predicate IsNamespace(ns: string) {
    ':' in ns && !IsKeyword(ns)
  }

  /** The namespace of the Star Wars vocabulary the queries are written in. */
  const SwapiNamespace: string := "http://swapi.dev/documentation"

  lemma SwapiIsNamespace()
    ensures IsNamespace(SwapiNamespace)
  {
    assert SwapiNamespace[4] == ':';
  }

  /** An IRI of a vocabulary: its namespace, `#`, and a local name. */
  function VocabIri(ns: string, name: string): string
  {
    ns + ['#'] + name
  }

  const LukeId: string := "https://swapi.dev/api/people/1/"

  /** A non-empty name without `#` or `/`. */
  predicate LocalNameOnly(name: string) {
    name != [] && forall i :: 0 <= i < |name| ==> !IsIriDelimiter(name[i])
  }

  /** A vocabulary IRI is absolute, so the null context keeps it as written,
      and the variable of its value is named after its local name. */
  lemma {:induction false} VocabularyTerm(ns: string, v: Var, name: string)
    requires IsNamespace(ns) && LocalNameOnly(name)
    ensures VocabIri(ns, name) != "@context" && !IsKeyword(VocabIri(ns, name)) && IsAbsoluteIri(VocabIri(ns, name))
    ensures Expand(NullContext, VocabIri(ns, name)) == IriKey(VocabIri(ns, name))
    ensures VariableUnder(v, VocabIri(ns, name)) == Var(v.name + [Separator] + name)
  {
    LocalNameAfter(ns, '#', name);
    var i :| 0 <= i < |ns| && ns[i] == ':';
    assert VocabIri(ns, name)[i] == ':';
    assert VocabIri(ns, name)[0] == ns[0];
  }

  /** One step of the fold for a placeholder under an IRI key. */
  lemma {:induction false} StepPlaceholder(k: string, v: Var, ctx: Context, acc: Acc, iri: string, w: Var)
    requires k != "@context" && Expand(ctx, k) == IriKey(iri) && VariableUnder(v, iri) == w
    requires acc.operation.Join?
    ensures Entry(Member(k, JString(Placeholder)), v, ctx, acc) ==
      Acc(acc.subject, acc.fields + [Field(k, NativePlaceholder(w))],
          Join(acc.operation.inputs + [Bgp([Pattern(acc.subject, NamedNode(iri), Variable(w))])]),
          acc.projections + [w], acc.warnings)
  {
    var b := Bgp([Pattern(acc.subject, NamedNode(iri), Variable(w))]);
    StepIri(Member(k, JString(Placeholder)), v, ctx, acc, iri);
    PrimitiveLaws(JString(Placeholder), w, ctx);
    MkJoinEmptyRight(b);
    MkJoinOfJoins(acc.operation.inputs, [b]);
    assert NestWarningsUnderKey(k, []) + acc.warnings == acc.warnings;
  }

  /** One step of the fold for a constant primitive under an IRI key. */
  lemma {:induction false} StepLiteral(k: string, x: Json, v: Var, ctx: Context, acc: Acc, iri: string)
    requires k != "@context" && Expand(ctx, k) == IriKey(iri)
    requires IsPrimitive(x) && x != JString(Placeholder) && acc.operation.Join?
    ensures Entry(Member(k, x), v, ctx, acc) ==
      Acc(acc.subject, acc.fields + [Field(k, NativeValue(x))],
          Join(acc.operation.inputs + [Bgp([Pattern(acc.subject, NamedNode(iri), Literal(x))])]),
          acc.projections, acc.warnings)
  {
    var b := Bgp([Pattern(acc.subject, NamedNode(iri), Literal(x))]);
    StepIri(Member(k, x), v, ctx, acc, iri);
    PrimitiveLaws(x, VariableUnder(v, iri), ctx);
    MkJoinEmptyRight(b);
    MkJoinOfJoins(acc.operation.inputs, [b]);
    Units(acc.projections);
    assert NestWarningsUnderKey(k, []) + acc.warnings == acc.warnings;
  }

  /** A node with a constant property and two placeholder properties, under
      any context that maps the three keys to IRIs. */
  lemma {:induction false} LiteralAndTwoPlaceholders(
    k1: string, x1: Json, k2: string, k3: string, v: Var, ctx: Context,
    i1: string, i2: string, i3: string, w2: Var, w3: Var)
    requires k1 != "@context" && Expand(ctx, k1) == IriKey(i1) && IsPrimitive(x1) && x1 != JString(Placeholder)
    requires k2 != "@context" && Expand(ctx, k2) == IriKey(i2) && VariableUnder(v, i2) == w2
    requires k3 != "@context" && Expand(ctx, k3) == IriKey(i3) && VariableUnder(v, i3) == w3
    ensures NodeObject(JObject([Member(k1, x1), Member(k2, JString(Placeholder)), Member(k3, JString(Placeholder))]), v, ctx) ==
      Parsed(Variable(v),
             Object([Field(k1, NativeValue(x1)), Field(k2, NativePlaceholder(w2)), Field(k3, NativePlaceholder(w3))]),
             Join([Bgp([Pattern(Variable(v), NamedNode(i1), Literal(x1))]),
                   Bgp([Pattern(Variable(v), NamedNode(i2), Variable(w2))]),
                   Bgp([Pattern(Variable(v), NamedNode(i3), Variable(w3))])]),
             [w2, w3], [])
  {
    var s := Variable(v);
    var m1, m2, m3 := Member(k1, x1), Member(k2, JString(Placeholder)), Member(k3, JString(Placeholder));
    var f1, f2, f3 := Field(k1, NativeValue(x1)), Field(k2, NativePlaceholder(w2)), Field(k3, NativePlaceholder(w3));
    var b1 := Bgp([Pattern(s, NamedNode(i1), Literal(x1))]);
    var b2 := Bgp([Pattern(s, NamedNode(i2), Variable(w2))]);
    var b3 := Bgp([Pattern(s, NamedNode(i3), Variable(w3))]);
    var a1 := Entry(m1, v, ctx, StartOf(v));
    assert a1 == Acc(s, [f1], Join([b1]), [], []) by {
      StepLiteral(k1, x1, v, ctx, StartOf(v), i1);
      Units([f1]); Units([b1]);
    }
    var a2 := Entry(m2, v, ctx, a1);
    assert a2 == Acc(s, [f1, f2], Join([b1, b2]), [w2], []) by {
      StepPlaceholder(k2, v, ctx, a1, i2, w2);
      Two(b1, b2); Units([w2]); Two(f1, f2);
    }
    assert Entry(m3, v, ctx, a2) == Acc(s, [f1, f2, f3], Join([b1, b2, b3]), [w2, w3], []) by {
      StepPlaceholder(k3, v, ctx, a2, i3, w3);
      TwoThen(b1, b2, b3); Two(w2, w3); TwoThen(f1, f2, f3);
    }
    ThreeEntries(m1, m2, m3, v, ctx);
  }

  /** The node `{idKey: id, k2: "?", k3: "?"}` with `id` a constant IRI: it
      is the subject of both patterns, and neither it nor `v` is projected. */
  lemma {:induction false} IdAndTwoPlaceholders(
    idKey: string, id: string, k2: string, k3: string, v: Var, ctx: Context,
    i2: string, i3: string, w2: Var, w3: Var)
    requires idKey != "@context" && Expand(ctx, idKey) == IdKey && id != Placeholder
    requires k2 != "@context" && Expand(ctx, k2) == IriKey(i2) && VariableUnder(v, i2) == w2
    requires k3 != "@context" && Expand(ctx, k3) == IriKey(i3) && VariableUnder(v, i3) == w3
    ensures NodeObject(JObject([Member(idKey, JString(id)), Member(k2, JString(Placeholder)), Member(k3, JString(Placeholder))]), v, ctx) ==
      Parsed(Variable(v),
             Object([Field(idKey, NativeValue(JString(id))), Field(k2, NativePlaceholder(w2)), Field(k3, NativePlaceholder(w3))]),
             Join([Bgp([Pattern(NamedNode(id), NamedNode(i2), Variable(w2))]),
                   Bgp([Pattern(NamedNode(id), NamedNode(i3), Variable(w3))])]),
             [w2, w3], [])
  {
    var s := NamedNode(id);
    var m1, m2, m3 := Member(idKey, JString(id)), Member(k2, JString(Placeholder)), Member(k3, JString(Placeholder));
    var f1, f2, f3 := Field(idKey, NativeValue(JString(id))), Field(k2, NativePlaceholder(w2)), Field(k3, NativePlaceholder(w3));
    var b2 := Bgp([Pattern(s, NamedNode(i2), Variable(w2))]);
    var b3 := Bgp([Pattern(s, NamedNode(i3), Variable(w3))]);
    var a1 := Entry(m1, v, ctx, StartOf(v));
    assert a1 == Acc(s, [f1], Join([]), [], []) by {
      StepIdValue(m1, v, ctx, StartOf(v));
      Units([f1]);
    }
    var a2 := Entry(m2, v, ctx, a1);
    assert a2 == Acc(s, [f1, f2], Join([b2]), [w2], []) by {
      StepPlaceholder(k2, v, ctx, a1, i2, w2);
      Units([b2]); Units([w2]); Two(f1, f2);
    }
    assert Entry(m3, v, ctx, a2) == Acc(s, [f1, f2, f3], Join([b2, b3]), [w2, w3], []) by {
      StepPlaceholder(k3, v, ctx, a2, i3, w3);
      Two(b2, b3); Two(w2, w3); TwoThen(f1, f2, f3);
    }
    ThreeEntries(m1, m2, m3, v, ctx);
  }

  /** The node `{k: "?"}`: one pattern from `v` to the projected child variable. */
  lemma {:induction false} OnePlaceholder(k: string, v: Var, ctx: Context, iri: string, w: Var)
    requires k != "@context" && Expand(ctx, k) == IriKey(iri) && VariableUnder(v, iri) == w
    ensures NodeObject(JObject([Member(k, JString(Placeholder))]), v, ctx) ==
      Parsed(Variable(v), Object([Field(k, NativePlaceholder(w))]),
             Join([Bgp([Pattern(Variable(v), NamedNode(iri), Variable(w))])]), [w], [])
  {
    IriEntry(k, JString(Placeholder), v, ctx, iri);
    PrimitiveDispatch(JString(Placeholder), w, ctx);
    PrimitiveLaws(JString(Placeholder), w, ctx);
    MkJoinEmptyRight(Bgp([Pattern(Variable(v), NamedNode(iri), Variable(w))]));
  }

  /** One step of the fold for a nested node object under an IRI key: the
      link to the child's variable, then the child's own patterns. */
  lemma {:induction false} StepNode(k: string, x: Json, v: Var, ctx: Context, acc: Acc, iri: string, child: Parsed)
    requires k != "@context" && Expand(ctx, k) == IriKey(iri) && x.JObject?
    requires !HasKey(x, "@graph") && !HasKey(x, "@value") && !HasKey(x, "@list") && !HasKey(x, "@set")
    requires NodeObject(x, VariableUnder(v, iri), ctx) == child
    requires child.operation.Join? && acc.operation.Join?
    ensures Entry(Member(k, x), v, ctx, acc) ==
      Acc(acc.subject, acc.fields + [Field(k, child.ir)],
          Join(acc.operation.inputs + ([Bgp([Pattern(acc.subject, NamedNode(iri), child.term)])] + child.operation.inputs)),
          acc.projections + child.projections, NestWarningsUnderKey(k, child.warnings) + acc.warnings)
  {
    var b := Bgp([Pattern(acc.subject, NamedNode(iri), child.term)]);
    StepIri(Member(k, x), v, ctx, acc, iri);
    NodeObjectDispatch(x, VariableUnder(v, iri), ctx);
    MkJoinPatternJoin(b, child.operation.inputs);
    MkJoinOfJoins(acc.operation.inputs, [b] + child.operation.inputs);
  }

  /** One step of the fold for an array under an IRI key with no container:
      the link and the array's patterns, made optional. */
  lemma {:induction false} StepNodeArray(k: string, items: seq<Json>, v: Var, ctx: Context, acc: Acc, iri: string, child: Parsed)
    requires k != "@context" && Expand(ctx, k) == IriKey(iri) && ContainerOf(ctx, k) == None
    requires NodeObjectArray(items, VariableUnder(v, iri), ctx) == child && child.operation.Join?
    ensures Entry(Member(k, JArray(items)), v, ctx, acc) ==
      Acc(acc.subject, acc.fields + [Field(k, child.ir)],
          LeftJoin(acc.operation, Join([Bgp([Pattern(acc.subject, NamedNode(iri), Variable(VariableUnder(v, iri)))])] + child.operation.inputs)),
          acc.projections + child.projections, NestWarningsUnderKey(k, child.warnings) + acc.warnings)
  {
    StepIriArray(Member(k, JArray(items)), v, ctx, acc, iri);
    MkJoinPatternJoin(Bgp([Pattern(acc.subject, NamedNode(iri), child.term)]), child.operation.inputs);
  }

  /** The node `{k1: x1, k2: x2}` with `x1` a constant and `x2` a nested
      node object: the constant's pattern, the link to the child's variable,
      then the child's patterns; only the child's projections and warnings. */
  lemma {:induction false} LiteralAndNode(
    k1: string, x1: Json, k2: string, x2: Json, v: Var, ctx: Context, i1: string, i2: string, child: Parsed)
    requires k1 != "@context" && Expand(ctx, k1) == IriKey(i1) && IsPrimitive(x1) && x1 != JString(Placeholder)
    requires k2 != "@context" && Expand(ctx, k2) == IriKey(i2) && x2.JObject?
    requires !HasKey(x2, "@graph") && !HasKey(x2, "@value") && !HasKey(x2, "@list") && !HasKey(x2, "@set")
    requires NodeObject(x2, VariableUnder(v, i2), ctx) == child && child.operation.Join?
    ensures NodeObject(JObject([Member(k1, x1), Member(k2, x2)]), v, ctx) ==
      Parsed(Variable(v), Object([Field(k1, NativeValue(x1)), Field(k2, child.ir)]),
             Join([Bgp([Pattern(Variable(v), NamedNode(i1), Literal(x1))]),
                   Bgp([Pattern(Variable(v), NamedNode(i2), child.term)])] + child.operation.inputs),
             child.projections, NestWarningsUnderKey(k2, child.warnings))
  {
    var s := Variable(v);
    var m1, m2 := Member(k1, x1), Member(k2, x2);
    var f1, f2 := Field(k1, NativeValue(x1)), Field(k2, child.ir);
    var b1 := Bgp([Pattern(s, NamedNode(i1), Literal(x1))]);
    var b2 := Bgp([Pattern(s, NamedNode(i2), child.term)]);
    var a1 := Entry(m1, v, ctx, StartOf(v));
    assert a1 == Acc(s, [f1], Join([b1]), [], []) by {
      StepLiteral(k1, x1, v, ctx, StartOf(v), i1);
      Units([f1]); Units([b1]);
    }
    assert Entry(m2, v, ctx, a1) ==
      Acc(s, [f1, f2], Join([b1, b2] + child.operation.inputs), child.projections, NestWarningsUnderKey(k2, child.warnings)) by {
      StepNode(k2, x2, v, ctx, a1, i2, child);
      assert [b1] + ([b2] + child.operation.inputs) == [b1, b2] + child.operation.inputs;
      Two(f1, f2); Units(child.projections);
      Units(NestWarningsUnderKey(k2, child.warnings));
    }
    TwoEntries(m1, m2, v, ctx);
  }

  /** The node `{k1: x1, k2: "?", k3: [...]}`: the array entry, with no
      container declared, makes the link and the array's patterns optional. */
  lemma {:induction false} LiteralPlaceholderArray(
    k1: string, x1: Json, k2: string, k3: string, items: seq<Json>, v: Var, ctx: Context,
    i1: string, i2: string, i3: string, w2: Var, child: Parsed)
    requires k1 != "@context" && Expand(ctx, k1) == IriKey(i1) && IsPrimitive(x1) && x1 != JString(Placeholder)
    requires k2 != "@context" && Expand(ctx, k2) == IriKey(i2) && VariableUnder(v, i2) == w2
    requires k3 != "@context" && Expand(ctx, k3) == IriKey(i3) && ContainerOf(ctx, k3) == None
    requires NodeObjectArray(items, VariableUnder(v, i3), ctx) == child && child.operation.Join?
    ensures NodeObject(JObject([Member(k1, x1), Member(k2, JString(Placeholder)), Member(k3, JArray(items))]), v, ctx) ==
      Parsed(Variable(v),
             Object([Field(k1, NativeValue(x1)), Field(k2, NativePlaceholder(w2)), Field(k3, child.ir)]),
             LeftJoin(Join([Bgp([Pattern(Variable(v), NamedNode(i1), Literal(x1))]),
                            Bgp([Pattern(Variable(v), NamedNode(i2), Variable(w2))])]),
                      Join([Bgp([Pattern(Variable(v), NamedNode(i3), Variable(VariableUnder(v, i3)))])] + child.operation.inputs)),
             [w2] + child.projections, NestWarningsUnderKey(k3, child.warnings))
  {
    var s := Variable(v);
    var m1, m2, m3 := Member(k1, x1), Member(k2, JString(Placeholder)), Member(k3, JArray(items));
    var f1, f2, f3 := Field(k1, NativeValue(x1)), Field(k2, NativePlaceholder(w2)), Field(k3, child.ir);
    var b1 := Bgp([Pattern(s, NamedNode(i1), Literal(x1))]);
    var b2 := Bgp([Pattern(s, NamedNode(i2), Variable(w2))]);
    var a1 := Entry(m1, v, ctx, StartOf(v));
    assert a1 == Acc(s, [f1], Join([b1]), [], []) by {
      StepLiteral(k1, x1, v, ctx, StartOf(v), i1);
      Units([f1]); Units([b1]);
    }
    var a2 := Entry(m2, v, ctx, a1);
    assert a2 == Acc(s, [f1, f2], Join([b1, b2]), [w2], []) by {
      StepPlaceholder(k2, v, ctx, a1, i2, w2);
      Two(b1, b2); Units([w2]); Two(f1, f2);
    }
    assert Entry(m3, v, ctx, a2).fields == [f1, f2, f3] && Entry(m3, v, ctx, a2).warnings == NestWarningsUnderKey(k3, child.warnings) by {
      StepNodeArray(k3, items, v, ctx, a2, i3, child);
      TwoThen(f1, f2, f3);
      Units(NestWarningsUnderKey(k3, child.warnings));
    }
    StepNodeArray(k3, items, v, ctx, a2, i3, child);
    ThreeEntries(m1, m2, m3, v, ctx);
  }

  /** The contexts the queries declare. */
  lemma VocabContextDefined(vocab: string)
    ensures Propagate(Some(JObject([Member("@vocab", JString(vocab))])), NullContext) == Context(map[], Some(vocab), {}, map[])
  {
    var m := Member("@vocab", JString(vocab));
    assert [m][1..] == [];
    assert DefineAll(NullContext, [m]) == DefineEntry(NullContext, m);
  }

  lemma AliasContext()
    ensures Propagate(Some(JObject([Member("id", JString("@id"))])), NullContext) == Context(map[], None, {"id"}, map[])
  {
    var m := Member("id", JString("@id"));
    assert [m][1..] == [];
    assert DefineAll(NullContext, [m]) == DefineEntry(NullContext, m);
    assert DefineEntry(NullContext, m) == DefineIdAlias(NullContext, "id");
  }

  lemma TermsContext(n: string, f: string)
    requires !IsKeyword(n) && !IsKeyword(f) && n != "@id" && f != "@id"
    ensures Propagate(Some(JObject([Member("name", JString(n)), Member("films", JString(f))])), NullContext) ==
      Context(map["name" := n, "films" := f], None, {}, map[])
  {
    var m1, m2 := Member("name", JString(n)), Member("films", JString(f));
    assert [m1, m2][1..] == [m2] && [m2][1..] == [];
    var c1 := DefineEntry(NullContext, m1);
    assert c1 == DefineTerm(NullContext, "name", n);
    assert DefineEntry(c1, m2) == DefineTerm(c1, "films", f);
    assert DefineAll(NullContext, [m1, m2]) == DefineAll(c1, [m2]);
    assert DefineAll(c1, [m2]) == DefineEntry(c1, m2);
  }

  /** The variables the queries bind, all under `?root`. */
  const Hair: Var := Var("root·hair_color")
  const Eye: Var := Var("root·eye_color")
  const Name: Var := Var("root·name")
  const Height: Var := Var("root·height")
  const Homeworld: Var := Var("root·homeworld")
  const HomeworldName: Var := Var("root·homeworld·name")
  const Films: Var := Var("root·films")
  const FilmsTitle: Var := Var("root·films·title")

  lemma ColourNames()
    ensures Hair.name == RootVariable.name + [Separator] + "hair_color"
    ensures Eye.name == RootVariable.name + [Separator] + "eye_color"
  {
  }

  lemma NameAndHeightNames()
    ensures Name.name == RootVariable.name + [Separator] + "name"
    ensures Height.name == RootVariable.name + [Separator] + "height"
  {
  }

  lemma HomeworldNames()
    ensures Homeworld.name == RootVariable.name + [Separator] + "homeworld"
    ensures HomeworldName.name == Homeworld.name + [Separator] + "name"
  {
  }

  lemma FilmNames()
    ensures Films.name == RootVariable.name + [Separator] + "films"
    ensures FilmsTitle.name == Films.name + [Separator] + "title"
  {
  }

  /** The placeholders of the queries, under a vocabulary namespace `ns`. */
  function HairAndEyes(ns: string): seq<Member>
  {
    [Member(VocabIri(ns, "hair_color"), JString(Placeholder)), Member(VocabIri(ns, "eye_color"), JString(Placeholder))]
  }

  function HairAndEyesFields(ns: string): seq<Field>
  {
    [Field(VocabIri(ns, "hair_color"), NativePlaceholder(Hair)), Field(VocabIri(ns, "eye_color"), NativePlaceholder(Eye))]
  }

  /** The patterns of the hair and eye colour of the node `s`. */
  function HairAndEyesOf(ns: string, s: Term): Algebra
  {
    Join([Bgp([Pattern(s, NamedNode(VocabIri(ns, "hair_color")), Variable(Hair))]),
          Bgp([Pattern(s, NamedNode(VocabIri(ns, "eye_color")), Variable(Eye))])])
  }

  lemma HairAndEyesTerms(ns: string)
    requires IsNamespace(ns)
    ensures VocabIri(ns, "hair_color") != "@context" && VocabIri(ns, "eye_color") != "@context"
    ensures !IsKeyword(VocabIri(ns, "hair_color")) && IsAbsoluteIri(VocabIri(ns, "hair_color"))
    ensures !IsKeyword(VocabIri(ns, "eye_color")) && IsAbsoluteIri(VocabIri(ns, "eye_color"))
    ensures VariableUnder(RootVariable, VocabIri(ns, "hair_color")) == Hair
    ensures VariableUnder(RootVariable, VocabIri(ns, "eye_color")) == Eye
  {
    assert LocalNameOnly("hair_color") && LocalNameOnly("eye_color");
    VocabularyTerm(ns, RootVariable, "hair_color");
    VocabularyTerm(ns, RootVariable, "eye_color");
    ColourNames();
  }

  // index.test.ts: "can produce a query for a property by @id"

  function ByIdQuery(ns: string): Json
  {
    JObject([Member("@id", JString(LukeId))] + HairAndEyes(ns))
  }

  /** A constant `@id` is the subject of every pattern and is not projected. */
  lemma ByIdScenario(ns: string)
    requires IsNamespace(ns)
    ensures ParseQuery(ByIdQuery(ns)) == Success(Query(
      Object([Field("@id", NativeValue(JString(LukeId)))] + HairAndEyesFields(ns)),
      Project(HairAndEyesOf(ns, NamedNode(LukeId)), [Hair, Eye]),
      []))
  {
    HairAndEyesTerms(ns);
    assert Expand(NullContext, "@id") == IdKey;
    IdAndTwoPlaceholders("@id", LukeId, VocabIri(ns, "hair_color"), VocabIri(ns, "eye_color"),
      RootVariable, NullContext, VocabIri(ns, "hair_color"), VocabIri(ns, "eye_color"), Hair, Eye);
    assert [Member("@id", JString(LukeId))] + HairAndEyes(ns) ==
      [Member("@id", JString(LukeId)), HairAndEyes(ns)[0], HairAndEyes(ns)[1]];
    assert [Field("@id", NativeValue(JString(LukeId)))] + HairAndEyesFields(ns) ==
      [Field("@id", NativeValue(JString(LukeId))), HairAndEyesFields(ns)[0], HairAndEyesFields(ns)[1]];
    assert !HasKey(ByIdQuery(ns), "@graph");
    ParseQueryDelegates(ByIdQuery(ns));
  }

  // index.test.ts: "can produce a query for a property by other properties"

  function ByPropertiesQuery(ns: string): Json
  {
    JObject([Member(VocabIri(ns, "name"), JString("Luke Skywalker"))] + HairAndEyes(ns))
  }

  /** Without `@id` the subject is the unprojected `?root`, and a constant
      value constrains its pattern. */
  lemma ByPropertiesScenario(ns: string)
    requires IsNamespace(ns)
    ensures var root := Variable(RootVariable);
      ParseQuery(ByPropertiesQuery(ns)) == Success(Query(
        Object([Field(VocabIri(ns, "name"), NativeValue(JString("Luke Skywalker")))] + HairAndEyesFields(ns)),
        Project(Join([Bgp([Pattern(root, NamedNode(VocabIri(ns, "name")), Literal(JString("Luke Skywalker")))])] + HairAndEyesOf(ns, root).inputs),
                [Hair, Eye]),
        []))
  {
    assert LocalNameOnly("name");
    VocabularyTerm(ns, RootVariable, "name");
    HairAndEyesTerms(ns);
    LiteralAndTwoPlaceholders(VocabIri(ns, "name"), JString("Luke Skywalker"), VocabIri(ns, "hair_color"), VocabIri(ns, "eye_color"),
      RootVariable, NullContext, VocabIri(ns, "name"), VocabIri(ns, "hair_color"), VocabIri(ns, "eye_color"), Hair, Eye);
    assert [Member(VocabIri(ns, "name"), JString("Luke Skywalker"))] + HairAndEyes(ns) ==
      [Member(VocabIri(ns, "name"), JString("Luke Skywalker")), HairAndEyes(ns)[0], HairAndEyes(ns)[1]];
    assert [Field(VocabIri(ns, "name"), NativeValue(JString("Luke Skywalker")))] + HairAndEyesFields(ns) ==
      [Field(VocabIri(ns, "name"), NativeValue(JString("Luke Skywalker"))), HairAndEyesFields(ns)[0], HairAndEyesFields(ns)[1]];
    var root := Variable(RootVariable);
    var b := Bgp([Pattern(root, NamedNode(VocabIri(ns, "name")), Literal(JString("Luke Skywalker")))]);
    assert [b] + HairAndEyesOf(ns, root).inputs == [b, HairAndEyesOf(ns, root).inputs[0], HairAndEyesOf(ns, root).inputs[1]];
    assert !HasKey(ByPropertiesQuery(ns), "@graph");
    ParseQueryDelegates(ByPropertiesQuery(ns));
  }

  // index.test.ts: "understands aliases for @id"

  const AliasDefinition: Json := JObject([Member("id", JString("@id"))])

  function AliasEntries(ns: string): seq<Member>
  {
    [Member("id", JString(LukeId))] + HairAndEyes(ns)
  }

  function AliasQuery(ns: string): Json
  {
    JObject([Member("@context", AliasDefinition)] + AliasEntries(ns))
  }

  /** Under the alias context, `id` names the subject exactly as `@id` would. */
  lemma AliasNode(ns: string)
    requires IsNamespace(ns)
    ensures NodeObject(JObject(AliasEntries(ns)), RootVariable, Context(map[], None, {"id"}, map[])) ==
      Parsed(Variable(RootVariable), Object([Field("id", NativeValue(JString(LukeId)))] + HairAndEyesFields(ns)),
             HairAndEyesOf(ns, NamedNode(LukeId)), [Hair, Eye], [])
  {
    HairAndEyesTerms(ns);
    var ctx := Context(map[], None, {"id"}, map[]);
    var hair, eye := VocabIri(ns, "hair_color"), VocabIri(ns, "eye_color");
    assert Expand(ctx, "id") == IdKey;
    assert hair != "id" && eye != "id" by { assert |hair| > 2 && |eye| > 2; }
    assert hair != "@id" && eye != "@id";
    assert Expand(ctx, hair) == IriKey(hair) && Expand(ctx, eye) == IriKey(eye);
    ConsTwo(Member("id", JString(LukeId)), HairAndEyes(ns));
    ConsTwo(Field("id", NativeValue(JString(LukeId))), HairAndEyesFields(ns));
    IdAndTwoPlaceholders("id", LukeId, hair, eye, RootVariable, ctx, hair, eye, Hair, Eye);
  }

  /** A term the context defines as `@id` acts as `@id`; the context itself
      is kept verbatim in the intermediate result. */
  lemma AliasScenario(ns: string)
    requires IsNamespace(ns)
    ensures ParseQuery(AliasQuery(ns)) == Success(Query(
      Object([Field("@context", NativeValue(AliasDefinition)), Field("id", NativeValue(JString(LukeId)))] + HairAndEyesFields(ns)),
      Project(HairAndEyesOf(ns, NamedNode(LukeId)), [Hair, Eye]),
      []))
  {
    AliasContext();
    AliasNode(ns);
    var es := AliasEntries(ns);
    var ctx := Context(map[], None, {"id"}, map[]);
    var r := NodeObject(JObject(es), RootVariable, ctx);
    assert es[0].key == "id" && es[1..] == HairAndEyes(ns);
    assert NoContextKey(es) && !HasKey(JObject(es), "@graph");
    ObjectWithContext(AliasDefinition, es, ctx, r);
    ConsPair(Field("@context", NativeValue(AliasDefinition)), Field("id", NativeValue(JString(LukeId))), HairAndEyesFields(ns));
  }

  /** `{"@vocab": ns#}`: keys without a colon are local names in the vocabulary. */
  function VocabDeclaration(ns: string): Json
  {
    JObject([Member("@vocab", JString(ns + ['#']))])
  }

  function VocabContext(ns: string): Context
  {
    Context(map[], Some(ns + ['#']), {}, map[])
  }

  lemma VocabPropagates(ns: string)
    ensures Propagate(Some(VocabDeclaration(ns)), NullContext) == VocabContext(ns)
  {
    VocabContextDefined(ns + ['#']);
  }

  /** Under VocabDeclaration a local name expands into the vocabulary, and
      its variable is named after it. */
  lemma {:induction false} VocabularyKey(ns: string, v: Var, name: string)
    requires IsNamespace(ns) && LocalNameOnly(name) && !IsKeyword(name) && !IsAbsoluteIri(name)
    ensures Propagate(Some(VocabDeclaration(ns)), NullContext) == VocabContext(ns)
    ensures name != "@context" && Expand(VocabContext(ns), name) == IriKey(VocabIri(ns, name))
    ensures ContainerOf(VocabContext(ns), name) == None
    ensures VariableUnder(v, VocabIri(ns, name)) == Var(v.name + [Separator] + name)
  {
    VocabContextDefined(ns + ['#']);
    VocabularyTerm(ns, v, name);
    assert name != "@id" && name != "@context" by { assert IsKeyword("@id") && IsKeyword("@context"); }
  }

  const HomeworldNode: Json := JObject([Member("name", JString(Placeholder))])
  const FilmNode: Json := JObject([Member("title", JString(Placeholder))])
  const VehicleNode: Json := JObject([Member("name", JString(Placeholder))])


  /** A document that is one node object with a leading `@context`: the
      other entries are parsed under the context `d` defines, and `d` itself
      heads the intermediate result. */
  lemma {:induction false} ObjectWithContext(d: Json, es: seq<Member>, ctx: Context, r: Parsed)
    requires Propagate(Some(d), NullContext) == ctx && NoContextKey(es)
    requires NodeObject(JObject(es), RootVariable, ctx) == r && r.ir.Object? && !HasKey(JObject(es), "@graph")
    ensures ParseQuery(JObject([Member("@context", d)] + es)) ==
      Success(Query(Object([Field("@context", NativeValue(d))] + r.ir.fields), Project(r.operation, r.projections), r.warnings))
  {
    LeadingContext(d, es, RootVariable, NullContext);
    var x := JObject([Member("@context", d)] + es);
    assert x.entries[0].key == "@context" && x.entries[1..] == es;
    assert !HasKey(x, "@graph");
    ParseQueryDelegates(x);
  }

  /** The same node object as the only member of an array document: `?root`
      is bound to each result and projected, and warnings are nested under
      index 0. */
  lemma {:induction false} ArrayWithContext(d: Json, es: seq<Member>, ctx: Context, r: Parsed)
    requires Propagate(Some(d), NullContext) == ctx && NoContextKey(es)
    requires NodeObject(JObject(es), RootVariable, ctx) == r && r.ir.Object?
    ensures ParseQuery(JArray([JObject([Member("@context", d)] + es)])) ==
      Success(Query(Plural(RootVariable, Object([Field("@context", NativeValue(d))] + r.ir.fields)),
                    Project(r.operation, [RootVariable] + r.projections), NestUnder(Index(0), r.warnings)))
  {
    LeadingContext(d, es, RootVariable, NullContext);
    var x := JObject([Member("@context", d)] + es);
    var t := NodeObject(x, RootVariable, NullContext);
    assert Document(JArray([x]), RootVariable, NullContext) ==
      Parsed(Variable(RootVariable), Plural(RootVariable, t.ir), t.operation, [RootVariable] + t.projections, NestUnder(Index(0), t.warnings));
    ParseQueryDelegates(JArray([x]));
  }

  // index.test.ts: "can produce a query for a singular related node"

  function SingularRelatedEntries(): seq<Member>
  {
    [Member("name", JString("Luke Skywalker")), Member("homeworld", HomeworldNode)]
  }

  function SingularRelatedQuery(ns: string): Json
  {
    JObject([Member("@context", VocabDeclaration(ns))] + SingularRelatedEntries())
  }

  lemma SingularRelatedNode(ns: string)
    requires IsNamespace(ns)
    ensures var root := Variable(RootVariable);
      NodeObject(JObject(SingularRelatedEntries()), RootVariable, VocabContext(ns)) ==
        Parsed(root,
               Object([Field("name", NativeValue(JString("Luke Skywalker"))),
                       Field("homeworld", Object([Field("name", NativePlaceholder(HomeworldName))]))]),
               Join([Bgp([Pattern(root, NamedNode(VocabIri(ns, "name")), Literal(JString("Luke Skywalker")))]),
                     Bgp([Pattern(root, NamedNode(VocabIri(ns, "homeworld")), Variable(Homeworld))]),
                     Bgp([Pattern(Variable(Homeworld), NamedNode(VocabIri(ns, "name")), Variable(HomeworldName))])]),
               [HomeworldName], [])
  {
    var root, ctx := Variable(RootVariable), VocabContext(ns);
    var name, homeworld := VocabIri(ns, "name"), VocabIri(ns, "homeworld");
    assert LocalNameOnly("name") && LocalNameOnly("homeworld");
    VocabularyKey(ns, RootVariable, "name");
    VocabularyKey(ns, RootVariable, "homeworld");
    VocabularyKey(ns, Homeworld, "name");
    HomeworldNames();
    OnePlaceholder("name", Homeworld, ctx, name, HomeworldName);
    assert !HasKey(HomeworldNode, "@graph") && !HasKey(HomeworldNode, "@value")
      && !HasKey(HomeworldNode, "@list") && !HasKey(HomeworldNode, "@set");
    var child := NodeObject(HomeworldNode, Homeworld, ctx);
    LiteralAndNode("name", JString("Luke Skywalker"), "homeworld", HomeworldNode, RootVariable, ctx, name, homeworld, child);
    var b1 := Bgp([Pattern(root, NamedNode(name), Literal(JString("Luke Skywalker")))]);
    var b2 := Bgp([Pattern(root, NamedNode(homeworld), Variable(Homeworld))]);
    assert [b1, b2] + child.operation.inputs == [b1, b2, child.operation.inputs[0]];
  }

  /** A nested node object is linked to its parent through its own
      variable, which is not projected; its placeholders are. */
  lemma SingularRelatedScenario(ns: string)
    requires IsNamespace(ns)
    ensures var root := Variable(RootVariable);
      ParseQuery(SingularRelatedQuery(ns)) == Success(Query(
        Object([Field("@context", NativeValue(VocabDeclaration(ns))),
                Field("name", NativeValue(JString("Luke Skywalker"))),
                Field("homeworld", Object([Field("name", NativePlaceholder(HomeworldName))]))]),
        Project(Join([Bgp([Pattern(root, NamedNode(VocabIri(ns, "name")), Literal(JString("Luke Skywalker")))]),
                      Bgp([Pattern(root, NamedNode(VocabIri(ns, "homeworld")), Variable(Homeworld))]),
                      Bgp([Pattern(Variable(Homeworld), NamedNode(VocabIri(ns, "name")), Variable(HomeworldName))])]),
                [HomeworldName]),
        []))
  {
    VocabPropagates(ns);
    SingularRelatedNode(ns);
    var r := NodeObject(JObject(SingularRelatedEntries()), RootVariable, VocabContext(ns));
    PlainEntryLists();
    ObjectWithContext(VocabDeclaration(ns), SingularRelatedEntries(), VocabContext(ns), r);
    ConsTwo(Field("@context", NativeValue(VocabDeclaration(ns))), r.ir.fields);
  }

  // index.test.ts: "can produce a query for multiple results"

  function MultipleResultsEntries(): seq<Member>
  {
    [Member("eye_color", JString("blue")), Member("name", JString(Placeholder)), Member("height", JString(Placeholder))]
  }

  function MultipleResultsQuery(ns: string): Json
  {
    JArray([JObject([Member("@context", VocabDeclaration(ns))] + MultipleResultsEntries())])
  }

  lemma MultipleResultsNode(ns: string)
    requires IsNamespace(ns)
    ensures var root := Variable(RootVariable);
      NodeObject(JObject(MultipleResultsEntries()), RootVariable, VocabContext(ns)) ==
        Parsed(root,
               Object([Field("eye_color", NativeValue(JString("blue"))),
                       Field("name", NativePlaceholder(Name)),
                       Field("height", NativePlaceholder(Height))]),
               Join([Bgp([Pattern(root, NamedNode(VocabIri(ns, "eye_color")), Literal(JString("blue")))]),
                     Bgp([Pattern(root, NamedNode(VocabIri(ns, "name")), Variable(Name))]),
                     Bgp([Pattern(root, NamedNode(VocabIri(ns, "height")), Variable(Height))])]),
               [Name, Height], [])
  {
    assert LocalNameOnly("eye_color") && LocalNameOnly("name") && LocalNameOnly("height");
    VocabularyKey(ns, RootVariable, "eye_color");
    VocabularyKey(ns, RootVariable, "name");
    VocabularyKey(ns, RootVariable, "height");
    NameAndHeightNames();
    LiteralAndTwoPlaceholders("eye_color", JString("blue"), "name", "height", RootVariable, VocabContext(ns),
      VocabIri(ns, "eye_color"), VocabIri(ns, "name"), VocabIri(ns, "height"), Name, Height);
  }

  /** An array document binds `?root` to each result and projects it. */
  lemma MultipleResultsScenario(ns: string)
    requires IsNamespace(ns)
    ensures var root := Variable(RootVariable);
      ParseQuery(MultipleResultsQuery(ns)) == Success(Query(
        Plural(RootVariable, Object([Field("@context", NativeValue(VocabDeclaration(ns))),
                                     Field("eye_color", NativeValue(JString("blue"))),
                                     Field("name", NativePlaceholder(Name)),
                                     Field("height", NativePlaceholder(Height))])),
        Project(Join([Bgp([Pattern(root, NamedNode(VocabIri(ns, "eye_color")), Literal(JString("blue")))]),
                      Bgp([Pattern(root, NamedNode(VocabIri(ns, "name")), Variable(Name))]),
                      Bgp([Pattern(root, NamedNode(VocabIri(ns, "height")), Variable(Height))])]),
                [RootVariable, Name, Height]),
        []))
  {
    VocabPropagates(ns);
    MultipleResultsNode(ns);
    var r := NodeObject(JObject(MultipleResultsEntries()), RootVariable, VocabContext(ns));
    PlainEntryLists();
    ArrayWithContext(VocabDeclaration(ns), MultipleResultsEntries(), VocabContext(ns), r);
    ConsThree(Field("@context", NativeValue(VocabDeclaration(ns))), r.ir.fields);
    ConsTwo(RootVariable, r.projections);
  }

  // index.test.ts: "can produce a query for a plural related node"

  function PluralRelatedEntries(): seq<Member>
  {
    [Member("eye_color", JString("blue")), Member("name", JString(Placeholder)), Member("films", JArray([FilmNode]))]
  }

  function PluralRelatedQuery(ns: string): Json
  {
    JArray([JObject([Member("@context", VocabDeclaration(ns))] + PluralRelatedEntries())])
  }

  lemma PluralRelatedNode(ns: string)
    requires IsNamespace(ns)
    ensures var root := Variable(RootVariable);
      NodeObject(JObject(PluralRelatedEntries()), RootVariable, VocabContext(ns)) ==
        Parsed(root,
               Object([Field("eye_color", NativeValue(JString("blue"))),
                       Field("name", NativePlaceholder(Name)),
                       Field("films", Plural(Films, Object([Field("title", NativePlaceholder(FilmsTitle))])))]),
               LeftJoin(Join([Bgp([Pattern(root, NamedNode(VocabIri(ns, "eye_color")), Literal(JString("blue")))]),
                              Bgp([Pattern(root, NamedNode(VocabIri(ns, "name")), Variable(Name))])]),
                        Join([Bgp([Pattern(root, NamedNode(VocabIri(ns, "films")), Variable(Films))]),
                              Bgp([Pattern(Variable(Films), NamedNode(VocabIri(ns, "title")), Variable(FilmsTitle))])])),
               [Name, Films, FilmsTitle], [])
  {
    var root, ctx := Variable(RootVariable), VocabContext(ns);
    assert LocalNameOnly("eye_color") && LocalNameOnly("name") && LocalNameOnly("films");
    VocabularyKey(ns, RootVariable, "eye_color");
    VocabularyKey(ns, RootVariable, "name");
    VocabularyKey(ns, RootVariable, "films");
    NameAndHeightNames(); FilmNames();
    VocabFilms(ns);
    var child := NodeObjectArray([FilmNode], Films, ctx);
    var bt := Bgp([Pattern(Variable(Films), NamedNode(VocabIri(ns, "title")), Variable(FilmsTitle))]);
    LiteralPlaceholderArray("eye_color", JString("blue"), "name", "films", [FilmNode], RootVariable, ctx,
      VocabIri(ns, "eye_color"), VocabIri(ns, "name"), VocabIri(ns, "films"), Name, child);
    Two(Bgp([Pattern(root, NamedNode(VocabIri(ns, "films")), Variable(Films))]), bt);
    ThenTwo(Name, Films, FilmsTitle);
  }

  /** `films: [{title: "?"}]` under the vocabulary: one pattern from the
      array's variable, which is projected before the title's. */
  lemma VocabFilms(ns: string)
    requires IsNamespace(ns)
    ensures NodeObjectArray([FilmNode], Films, VocabContext(ns)) ==
      Parsed(Variable(Films), Plural(Films, Object([Field("title", NativePlaceholder(FilmsTitle))])),
             Join([Bgp([Pattern(Variable(Films), NamedNode(VocabIri(ns, "title")), Variable(FilmsTitle))])]),
             [Films, FilmsTitle], [])
  {
    assert LocalNameOnly("title");
    VocabularyKey(ns, Films, "title");
    FilmNames();
    OnePlaceholder("title", Films, VocabContext(ns), VocabIri(ns, "title"), FilmsTitle);
  }



  /** An array-valued entry is an optional match of the link and of the
      array's patterns; the array's own variable is projected. */
  lemma PluralRelatedScenario(ns: string)
    requires IsNamespace(ns)
    ensures var root := Variable(RootVariable);
      ParseQuery(PluralRelatedQuery(ns)) == Success(Query(
        Plural(RootVariable, Object([Field("@context", NativeValue(VocabDeclaration(ns))),
                                     Field("eye_color", NativeValue(JString("blue"))),
                                     Field("name", NativePlaceholder(Name)),
                                     Field("films", Plural(Films, Object([Field("title", NativePlaceholder(FilmsTitle))])))])),
        Project(LeftJoin(Join([Bgp([Pattern(root, NamedNode(VocabIri(ns, "eye_color")), Literal(JString("blue")))]),
                               Bgp([Pattern(root, NamedNode(VocabIri(ns, "name")), Variable(Name))])]),
                         Join([Bgp([Pattern(root, NamedNode(VocabIri(ns, "films")), Variable(Films))]),
                               Bgp([Pattern(Variable(Films), NamedNode(VocabIri(ns, "title")), Variable(FilmsTitle))])])),
                [RootVariable, Name, Films, FilmsTitle]),
        []))
  {
    VocabPropagates(ns);
    PluralRelatedNode(ns);
    var r := NodeObject(JObject(PluralRelatedEntries()), RootVariable, VocabContext(ns));
    PlainEntryLists();
    ArrayWithContext(VocabDeclaration(ns), PluralRelatedEntries(), VocabContext(ns), r);
    ConsThree(Field("@context", NativeValue(VocabDeclaration(ns))), r.ir.fields);
    ConsThree(RootVariable, r.projections);
  }

  // index.test.ts: "ignores and warns about unmapped keys"

  /** An object of five entries (none `@context`) is those entries read in order. */
  lemma {:induction false} FiveEntries(m1: Member, m2: Member, m3: Member, m4: Member, m5: Member, v: Var, ctx: Context)
    requires m1.key != "@context" && m2.key != "@context" && m3.key != "@context"
    requires m4.key != "@context" && m5.key != "@context"
    ensures var a := Entry(m5, v, ctx, Entry(m4, v, ctx, Entry(m3, v, ctx, Entry(m2, v, ctx, Entry(m1, v, ctx, StartOf(v))))));
      NodeObject(JObject([m1, m2, m3, m4, m5]), v, ctx) == Parsed(Variable(v), Object(a.fields), a.operation, a.projections, a.warnings)
  {
    assert NoContextKey([m1, m2, m3, m4, m5]);
    NoContextNode([m1, m2, m3, m4, m5], v, ctx);
    var a1 := Entry(m1, v, ctx, StartOf(v));
    var a2 := Entry(m2, v, ctx, a1);
    var a3 := Entry(m3, v, ctx, a2);
    var a4 := Entry(m4, v, ctx, a3);
    assert [m1, m2, m3, m4, m5] == [m1] + [m2, m3, m4, m5];
    assert [m2, m3, m4, m5] == [m2] + [m3, m4, m5];
    ThenTwo(m3, m4, m5);
    Two(m4, m5);
    Units([m5]);
    EntriesCons(m1, [m2, m3, m4, m5], v, ctx, StartOf(v));
    EntriesCons(m2, [m3, m4, m5], v, ctx, a1);
    EntriesCons(m3, [m4, m5], v, ctx, a2);
    EntriesCons(m4, [m5], v, ctx, a3);
    EntriesCons(m5, [], v, ctx, a4);
  }

  /** The first three entries of UndefinedKeysNode: one pattern, one
      projection, two warnings with the later first. */
  lemma {:induction false} UndefinedPlaceholderUndefined(m1: Member, k2: string, m3: Member, v: Var, ctx: Context, i2: string, w2: Var)
    requires m1.key != "@context" && Expand(ctx, m1.key).Undefined? && !m1.value.JArray?
    requires k2 != "@context" && Expand(ctx, k2) == IriKey(i2) && VariableUnder(v, i2) == w2
    requires m3.key != "@context" && Expand(ctx, m3.key).Undefined? && !m3.value.JArray?
    ensures Entry(m3, v, ctx, Entry(Member(k2, JString(Placeholder)), v, ctx, Entry(m1, v, ctx, StartOf(v)))) ==
      Acc(Variable(v),
          [Field(m1.key, NativeValue(m1.value)), Field(k2, NativePlaceholder(w2)), Field(m3.key, NativeValue(m3.value))],
          Join([Bgp([Pattern(Variable(v), NamedNode(i2), Variable(w2))])]), [w2],
          [Warning(KeyNotDefinedMessage, [Key(m3.key)]), Warning(KeyNotDefinedMessage, [Key(m1.key)])])
  {
    var s := Variable(v);
    var m2 := Member(k2, JString(Placeholder));
    var f1, f2, f3 := Field(m1.key, NativeValue(m1.value)), Field(k2, NativePlaceholder(w2)), Field(m3.key, NativeValue(m3.value));
    var b2 := Bgp([Pattern(s, NamedNode(i2), Variable(w2))]);
    var u1, u3 := Warning(KeyNotDefinedMessage, [Key(m1.key)]), Warning(KeyNotDefinedMessage, [Key(m3.key)]);
    var a1 := Entry(m1, v, ctx, StartOf(v));
    assert a1 == Acc(s, [f1], Join([]), [], [u1]) by {
      StepUndefined(m1, v, ctx, StartOf(v));
      Units([f1]); Units([u1]);
    }
    var a2 := Entry(m2, v, ctx, a1);
    assert a2 == Acc(s, [f1, f2], Join([b2]), [w2], [u1]) by {
      StepPlaceholder(k2, v, ctx, a1, i2, w2);
      Units([b2]); Units([w2]); Two(f1, f2);
    }
    StepUndefined(m3, v, ctx, a2);
    TwoThen(f1, f2, f3); Two(u3, u1);
  }

  /** The node `{k1: x1, k2: "?", k3: x3, k4: [...], k5: [...]}` where only
      `k2` and `k4` are defined: undefined keys add no pattern, except that
      an undefined array still adds an empty optional match, and each adds a
      warning ahead of those before it. */
  lemma {:induction false} UndefinedKeysNode(
    m1: Member, k2: string, m3: Member, k4: string, items: seq<Json>, m5: Member, v: Var, ctx: Context,
    i2: string, i4: string, w2: Var, child: Parsed)
    requires m1.key != "@context" && Expand(ctx, m1.key).Undefined? && !m1.value.JArray?
    requires k2 != "@context" && Expand(ctx, k2) == IriKey(i2) && VariableUnder(v, i2) == w2
    requires m3.key != "@context" && Expand(ctx, m3.key).Undefined? && !m3.value.JArray?
    requires k4 != "@context" && Expand(ctx, k4) == IriKey(i4) && ContainerOf(ctx, k4) == None
    requires NodeObjectArray(items, VariableUnder(v, i4), ctx) == child && child.operation == EmptyJoin
    requires m5.key != "@context" && Expand(ctx, m5.key).Undefined? && m5.value.JArray?
    ensures NodeObject(JObject([m1, Member(k2, JString(Placeholder)), m3, Member(k4, JArray(items)), m5]), v, ctx) ==
      Parsed(Variable(v),
             Object([Field(m1.key, NativeValue(m1.value)), Field(k2, NativePlaceholder(w2)), Field(m3.key, NativeValue(m3.value)),
                     Field(k4, child.ir), Field(m5.key, NativeValue(m5.value))]),
             LeftJoin(LeftJoin(Join([Bgp([Pattern(Variable(v), NamedNode(i2), Variable(w2))])]),
                               Join([Bgp([Pattern(Variable(v), NamedNode(i4), Variable(VariableUnder(v, i4)))])])),
                      EmptyJoin),
             [w2] + child.projections,
             [Warning(KeyNotDefinedMessage, [Key(m5.key)])] + NestWarningsUnderKey(k4, child.warnings)
               + [Warning(KeyNotDefinedMessage, [Key(m3.key)]), Warning(KeyNotDefinedMessage, [Key(m1.key)])])
  {
    var s := Variable(v);
    var m2, m4 := Member(k2, JString(Placeholder)), Member(k4, JArray(items));
    var f1, f2, f3 := Field(m1.key, NativeValue(m1.value)), Field(k2, NativePlaceholder(w2)), Field(m3.key, NativeValue(m3.value));
    var f4, f5 := Field(k4, child.ir), Field(m5.key, NativeValue(m5.value));
    var b2 := Bgp([Pattern(s, NamedNode(i2), Variable(w2))]);
    var b4 := Bgp([Pattern(s, NamedNode(i4), Variable(VariableUnder(v, i4)))]);
    var u1, u3 := Warning(KeyNotDefinedMessage, [Key(m1.key)]), Warning(KeyNotDefinedMessage, [Key(m3.key)]);
    var u5 := Warning(KeyNotDefinedMessage, [Key(m5.key)]);
    var nested := NestWarningsUnderKey(k4, child.warnings);
    var a3 := Entry(m3, v, ctx, Entry(m2, v, ctx, Entry(m1, v, ctx, StartOf(v))));
    assert a3 == Acc(s, [f1, f2, f3], Join([b2]), [w2], [u3, u1]) by {
      UndefinedPlaceholderUndefined(m1, k2, m3, v, ctx, i2, w2);
    }
    var a4 := Entry(m4, v, ctx, a3);
    assert a4 == Acc(s, [f1, f2, f3, f4], LeftJoin(Join([b2]), Join([b4])), [w2] + child.projections, nested + [u3, u1]) by {
      StepNodeArray(k4, items, v, ctx, a3, i4, child);
      Units([b4]); ThreeThen(f1, f2, f3, f4);
    }
    assert Entry(m5, v, ctx, a4) ==
      Acc(s, [f1, f2, f3, f4, f5], LeftJoin(LeftJoin(Join([b2]), Join([b4])), EmptyJoin), [w2] + child.projections, [u5] + nested + [u3, u1]) by {
      StepUndefined(m5, v, ctx, a4);
      FourThen(f1, f2, f3, f4, f5);
      assert [u5] + (nested + [u3, u1]) == [u5] + nested + [u3, u1];
    }
    FiveEntries(m1, m2, m3, m4, m5, v, ctx);
  }

  /** The context of the query: two terms mapped into the vocabulary. */
  function TermsDeclaration(ns: string): Json
  {
    JObject([Member("name", JString(VocabIri(ns, "name"))), Member("films", JString(VocabIri(ns, "films")))])
  }

  function TermsContextOf(ns: string): Context
  {
    Context(map["name" := VocabIri(ns, "name"), "films" := VocabIri(ns, "films")], None, {}, map[])
  }

  const VehicleNodes: Json := JArray([VehicleNode])

  function UnmappedKeysEntries(): seq<Member>
  {
    [Member("eye_color", JString("blue")), Member("name", JString(Placeholder)), Member("homeworld", HomeworldNode),
     Member("films", JArray([FilmNode])), Member("vehicles", VehicleNodes)]
  }

  /** No entry of the queries' node objects is `@context`, and the singular
      one has no `@graph`. */
  lemma PlainEntryLists()
    ensures NoContextKey(SingularRelatedEntries()) && !HasKey(JObject(SingularRelatedEntries()), "@graph")
    ensures NoContextKey(MultipleResultsEntries()) && NoContextKey(PluralRelatedEntries())
    ensures NoContextKey(UnmappedKeysEntries())
  {
  }

  function UnmappedKeysQuery(ns: string): Json
  {
    JArray([JObject([Member("@context", TermsDeclaration(ns))] + UnmappedKeysEntries())])
  }

  function Undefined(path: seq<PathSegment>): Warning
  {
    Warning(KeyNotDefinedMessage, path)
  }

  /** What the terms context makes of the keys of the query. */
  lemma UnmappedKeysTerms(ns: string)
    requires IsNamespace(ns)
    ensures var ctx := TermsContextOf(ns);
      && Expand(ctx, "eye_color").Undefined? && Expand(ctx, "homeworld").Undefined? && Expand(ctx, "vehicles").Undefined?
      && Expand(ctx, "title").Undefined?
      && Expand(ctx, "name") == IriKey(VocabIri(ns, "name")) && Expand(ctx, "films") == IriKey(VocabIri(ns, "films"))
      && ContainerOf(ctx, "films") == None
      && VariableUnder(RootVariable, VocabIri(ns, "name")) == Name && VariableUnder(RootVariable, VocabIri(ns, "films")) == Films
    ensures Propagate(Some(TermsDeclaration(ns)), NullContext) == TermsContextOf(ns)
  {
    assert LocalNameOnly("name") && LocalNameOnly("films");
    VocabularyTerm(ns, RootVariable, "name");
    VocabularyTerm(ns, RootVariable, "films");
    NameAndHeightNames(); FilmNames();
    TermsContext(VocabIri(ns, "name"), VocabIri(ns, "films"));
  }

  /** `films: [{title: "?"}]` under the terms context: `title` is not
      defined, so the array binds only `?root·films` and warns once. */
  lemma UnmappedFilms(ns: string)
    requires IsNamespace(ns)
    ensures var child := NodeObjectArray([FilmNode], Films, TermsContextOf(ns));
      && child == Parsed(Variable(Films), Plural(Films, Object([Field("title", NativeValue(JString(Placeholder)))])),
                         EmptyJoin, [Films], [Undefined([Index(0), Key("title")])])
      && NestWarningsUnderKey("films", child.warnings) == [Undefined([Key("films"), Index(0), Key("title")])]
  {
    var ctx := TermsContextOf(ns);
    UnmappedKeysTerms(ns);
    UndefinedEntry("title", JString(Placeholder), Films, ctx);
    Two(Index(0), Key("title"));
    ThenTwo(Key("films"), Index(0), Key("title"));
  }

  lemma UnmappedKeysNode(ns: string)
    requires IsNamespace(ns)
    ensures NodeObject(JObject(UnmappedKeysEntries()), RootVariable, TermsContextOf(ns)) ==
      Parsed(Variable(RootVariable),
             Object([Field("eye_color", NativeValue(JString("blue"))),
                     Field("name", NativePlaceholder(Name)),
                     Field("homeworld", NativeValue(HomeworldNode)),
                     Field("films", Plural(Films, Object([Field("title", NativeValue(JString(Placeholder)))]))),
                     Field("vehicles", NativeValue(VehicleNodes))]),
             LeftJoin(LeftJoin(Join([Bgp([Pattern(Variable(RootVariable), NamedNode(VocabIri(ns, "name")), Variable(Name))])]),
                               Join([Bgp([Pattern(Variable(RootVariable), NamedNode(VocabIri(ns, "films")), Variable(Films))])])),
                      EmptyJoin),
             [Name, Films],
             [Undefined([Key("vehicles")]), Undefined([Key("films"), Index(0), Key("title")]),
              Undefined([Key("homeworld")]), Undefined([Key("eye_color")])])
  {
    var ctx := TermsContextOf(ns);
    UnmappedKeysTerms(ns);
    UnmappedFilms(ns);
    var child := NodeObjectArray([FilmNode], Films, ctx);
    UndefinedKeysNode(Member("eye_color", JString("blue")), "name", Member("homeworld", HomeworldNode),
      "films", [FilmNode], Member("vehicles", VehicleNodes), RootVariable, ctx,
      VocabIri(ns, "name"), VocabIri(ns, "films"), Name, child);
    Two(Name, Films);
    var u5, n, u3, u1 := Undefined([Key("vehicles")]), Undefined([Key("films"), Index(0), Key("title")]),
                         Undefined([Key("homeworld")]), Undefined([Key("eye_color")]);
    assert [u5] + [n] + [u3, u1] == [u5, n, u3, u1];
  }

  /** Keys the context does not define are kept verbatim in the intermediate
      result and warned about, last entry first, with paths into the
      document; a defined term inside an undefined value is never read. */
  lemma UnmappedKeysScenario(ns: string)
    requires IsNamespace(ns)
    ensures ParseQuery(UnmappedKeysQuery(ns)) == Success(Query(
      Plural(RootVariable, Object([Field("@context", NativeValue(TermsDeclaration(ns))),
                                   Field("eye_color", NativeValue(JString("blue"))),
                                   Field("name", NativePlaceholder(Name)),
                                   Field("homeworld", NativeValue(HomeworldNode)),
                                   Field("films", Plural(Films, Object([Field("title", NativeValue(JString(Placeholder)))]))),
                                   Field("vehicles", NativeValue(VehicleNodes))])),
      Project(LeftJoin(LeftJoin(Join([Bgp([Pattern(Variable(RootVariable), NamedNode(VocabIri(ns, "name")), Variable(Name))])]),
                                Join([Bgp([Pattern(Variable(RootVariable), NamedNode(VocabIri(ns, "films")), Variable(Films))])])),
                       EmptyJoin),
              [RootVariable, Name, Films]),
      [Undefined([Index(0), Key("vehicles")]), Undefined([Index(0), Key("films"), Index(0), Key("title")]),
       Undefined([Index(0), Key("homeworld")]), Undefined([Index(0), Key("eye_color")])]))
  {
    UnmappedKeysTerms(ns);
    UnmappedKeysNode(ns);
    var r := NodeObject(JObject(UnmappedKeysEntries()), RootVariable, TermsContextOf(ns));
    PlainEntryLists();
    ArrayWithContext(TermsDeclaration(ns), UnmappedKeysEntries(), TermsContextOf(ns), r);
    ConsFive(Field("@context", NativeValue(TermsDeclaration(ns))), r.ir.fields);
    ConsTwo(RootVariable, r.projections);
    UnmappedWarnings();
  }


  /** The warnings of the node, each placed under the array's index 0. */
  lemma UnmappedWarnings()
    ensures NestUnder(Index(0), [Undefined([Key("vehicles")]), Undefined([Key("films"), Index(0), Key("title")]),
                                 Undefined([Key("homeworld")]), Undefined([Key("eye_color")])]) ==
      [Undefined([Index(0), Key("vehicles")]), Undefined([Index(0), Key("films"), Index(0), Key("title")]),
       Undefined([Index(0), Key("homeworld")]), Undefined([Index(0), Key("eye_color")])]
  {
    var ws := [Undefined([Key("vehicles")]), Undefined([Key("films"), Index(0), Key("title")]),
               Undefined([Key("homeworld")]), Undefined([Key("eye_color")])];
    NestFour(Index(0), ws);
    Two(Index(0), Key("vehicles"));
    assert [Index(0)] + [Key("films"), Index(0), Key("title")] == [Index(0), Key("films"), Index(0), Key("title")];
    Two(Index(0), Key("homeworld"));
    Two(Index(0), Key("eye_color"));
  }


  lemma NestFour(seg: PathSegment, ws: seq<Warning>)
    requires |ws| == 4
    ensures NestUnder(seg, ws) == [Warning(ws[0].message, [seg] + ws[0].path), Warning(ws[1].message, [seg] + ws[1].path),
                                   Warning(ws[2].message, [seg] + ws[2].path), Warning(ws[3].message, [seg] + ws[3].path)]
  {
  }
}
