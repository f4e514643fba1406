/** The active JSON-LD context, reduced to what the translator asks of it:
    a term-to-IRI map, an optional `@vocab`, the aliases of `@id` and the
    `@container` each term declares. */
module ParseContext {
  import opened Json

  datatype Container = GraphContainer | ListContainer | SetContainer

  /** The keyword that wraps a value held in a container of this kind. */
  function ContainerKeyword(c: Container): string
  {
    match c
    case GraphContainer => "@graph"
    case ListContainer => "@list"
    case SetContainer => "@set"
  }

  datatype Context = Context(
    terms: map<string, string>,
    vocab: Option<string>,
    idAliases: set<string>,
    containers: map<string, Container>)

  /** The empty context the top-level translation starts from. */
  const NullContext: Context := Context(map[], None, {}, map[])

  /** What an object key means under a context. */
  datatype KeyMeaning = IdKey | IriKey(iri: string) | Undefined

  predicate IsKeyword(k: string) {
    |k| > 0 && k[0] == '@'
  }

  /** A key holding a colon is taken as an absolute (or compact) IRI and kept as written. */
  predicate IsAbsoluteIri(k: string) {
    ':' in k
  }

  function Expand(ctx: Context, key: string): (r: KeyMeaning)
    ensures r.IdKey? <==> key == "@id" || key in ctx.idAliases
    ensures r.IriKey? ==> !IsKeyword(key)
    ensures r.IriKey? && key in ctx.terms ==> r.iri == ctx.terms[key]
    ensures !r.IdKey? && !IsKeyword(key) && key in ctx.terms ==> r == IriKey(ctx.terms[key])
    ensures r.Undefined? <==>
      !(key == "@id" || key in ctx.idAliases)
      && (IsKeyword(key) || (key !in ctx.terms && !IsAbsoluteIri(key) && ctx.vocab.None?))
  {
    if key == "@id" || key in ctx.idAliases then IdKey
    else if IsKeyword(key) then Undefined
    else if key in ctx.terms then IriKey(ctx.terms[key])
    else if IsAbsoluteIri(key) then IriKey(key)
    else if ctx.vocab.Some? then IriKey(ctx.vocab.value + key)
    else Undefined
  }

  function ContainerOf(ctx: Context, key: string): Option<Container>
  {
    if key in ctx.containers then Some(ctx.containers[key]) else None
  }

  /** Makes `t` a term for `iri`, dropping any alias of `@id` it was. */
  function DefineTerm(ctx: Context, t: string, iri: string): (r: Context)
    ensures !IsKeyword(t) ==> Expand(r, t) == IriKey(iri)
  {
    ctx.(terms := ctx.terms[t := iri], idAliases := ctx.idAliases - {t})
  }

  /** Makes `t` an alias of `@id`. */
  function DefineIdAlias(ctx: Context, t: string): (r: Context)
    ensures Expand(r, t) == IdKey
  {
    ctx.(terms := ctx.terms - {t}, idAliases := ctx.idAliases + {t})
  }

  function ContainerNamed(j: Option<Json>): Option<Container>
  {
    if j == Some(JString("@graph")) then Some(GraphContainer)
    else if j == Some(JString("@list")) then Some(ListContainer)
    else if j == Some(JString("@set")) then Some(SetContainer)
    else None
  }

  /** One entry of a local context definition, applied over `ctx`. */
  function DefineEntry(ctx: Context, m: Member): Context
  {
    var t, d := m.key, m.value;
    if t == "@vocab" then
      (if d.JString? then ctx.(vocab := Some(d.s))
       else if d.JNull? then ctx.(vocab := None) else ctx)
    else if IsKeyword(t) then ctx
    else if d == JString("@id") then DefineIdAlias(ctx, t)
    else if d.JString? && !IsKeyword(d.s) then DefineTerm(ctx, t, d.s)
    else if d.JObject? then
      var id := Find(d, "@id");
      var named :=
        if id == Some(JString("@id")) then DefineIdAlias(ctx, t)
        else if id.Some? && id.value.JString? && !IsKeyword(id.value.s) then DefineTerm(ctx, t, id.value.s)
        else ctx;
      var c := ContainerNamed(Find(d, "@container"));
      if c.Some? then named.(containers := named.containers[t := c.value]) else named
    else ctx
  }

  function DefineAll(ctx: Context, es: seq<Member>): Context
    decreases es
  {
    if es == [] then ctx else DefineAll(DefineEntry(ctx, es[0]), es[1..])
  }

  /** The context in force inside an object whose `@context` entry is `def`:
      the parent context when there is none, the null context for `null`,
      and an object's definitions applied in order over the parent otherwise. */
  function Propagate(def: Option<Json>, ctx: Context): (r: Context)
    ensures def.None? ==> r == ctx
    ensures def == Some(JNull) ==> r == NullContext
  {
    match def
    case None => ctx
    case Some(JNull) => NullContext
    case Some(JObject(es)) => DefineAll(ctx, es)
    case Some(_) => ctx
  }

  /** A local context `{t: iri}` makes `t` a term for `iri`. */
  lemma TermDefinition(ctx: Context, t: string, iri: string)
    requires !IsKeyword(t) && !IsKeyword(iri)
    ensures var c := Propagate(Some(JObject([Member(t, JString(iri))])), ctx);
      t in c.terms && c.terms[t] == iri && Expand(c, t) == IriKey(iri)
  {
    var m := Member(t, JString(iri));
    assert [m][1..] == [];
    assert DefineAll(ctx, [m]) == DefineEntry(ctx, m);
    assert JString(iri) != JString("@id") by { assert IsKeyword("@id"); }
    assert DefineEntry(ctx, m) == DefineTerm(ctx, t, iri);
  }

  /** A local context `{t: "@id"}` makes `t` an alias of `@id`. */
  lemma IdAliasDefinition(ctx: Context, t: string)
    requires !IsKeyword(t)
    ensures Expand(Propagate(Some(JObject([Member(t, JString("@id"))])), ctx), t) == IdKey
  {
    var m := Member(t, JString("@id"));
    assert [m][1..] == [];
    assert DefineAll(ctx, [m]) == DefineEntry(ctx, m);
    assert t != "@vocab" by { assert IsKeyword("@vocab"); }
    assert DefineEntry(ctx, m) == DefineIdAlias(ctx, t);
  }

  /** A local context `{"@vocab": vocab}` over the null context expands every
      other key that is neither a keyword nor absolute to `vocab + key`. */
  lemma VocabDefinition(vocab: string, k: string)
    requires !IsKeyword(k) && !IsAbsoluteIri(k)
    ensures Expand(Propagate(Some(JObject([Member("@vocab", JString(vocab))])), NullContext), k) == IriKey(vocab + k)
  {
    var m := Member("@vocab", JString(vocab));
    assert [m][1..] == [];
    assert DefineAll(NullContext, [m]) == DefineEntry(NullContext, m);
    assert k != "@id";
  }

  /** A local context `{t: {"@container": kw}}` declares a container for `t`
      and leaves what `t` expands to unchanged. */
  lemma ContainerDefinition(ctx: Context, t: string, c: Container)
    requires !IsKeyword(t)
    ensures var d := Propagate(Some(JObject([Member(t, JObject([Member("@container", JString(ContainerKeyword(c)))]))])), ctx);
      ContainerOf(d, t) == Some(c) && Expand(d, t) == Expand(ctx, t)
  {
    var def := JObject([Member("@container", JString(ContainerKeyword(c)))]);
    var m := Member(t, def);
    assert [m][1..] == [];
    assert DefineAll(ctx, [m]) == DefineEntry(ctx, m);
    assert t != "@vocab" by { assert IsKeyword("@vocab"); }
    assert !HasKey(def, "@id");
    assert def.entries[0].key == "@container";
    assert ContainerNamed(Find(def, "@container")) == Some(c);
  }
}
