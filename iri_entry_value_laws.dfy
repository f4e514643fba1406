/** The value of an IRI-keyed entry is dispatched on its shape: primitives,
    null, node object arrays, and objects by the keyword they hold. */
module IriEntryValueLaws {
  import opened Json
  import opened Rdf
  import opened IntermediateResult
  import opened ParseContext
  import opened ParseCommon
  import opened Parse

  /** A string, number or boolean gives exactly the primitive production's result. */
  lemma PrimitiveDispatch(x: Json, v: Var, ctx: Context)
    requires IsPrimitive(x)
    ensures IriEntryValue(x, v, ctx) == Primitive(x, v, ctx)
  {
  }

  /** The placeholder binds the variable and projects it; any other primitive
      is a constant literal, projected nowhere. Neither adds a pattern or a warning. */
  lemma PrimitiveLaws(x: Json, v: Var, ctx: Context)
    requires IsPrimitive(x)
    ensures var r := Primitive(x, v, ctx);
      && r.operation == EmptyJoin && r.warnings == []
      && (x == JString(Placeholder) ==> r.term == Variable(v) && r.ir == NativePlaceholder(v) && r.projections == [v])
      && (x != JString(Placeholder) ==> r.term == Literal(x) && r.ir == NativeValue(x) && r.projections == [])
  {
  }

  /** `null` is carried verbatim with a warning; it binds nothing and is never fatal. */
  lemma NullValue(v: Var, ctx: Context)
    ensures IriEntryValue(JNull, v, ctx) ==
      Parsed(Variable(v), NativeValue(JNull), EmptyJoin, [], [Warning(NullNotSupportedMessage, [])])
  {
  }

  /** An object holding none of `@graph`, `@value`, `@list`, `@set` is a node object. */
  lemma NodeObjectDispatch(x: Json, v: Var, ctx: Context)
    requires x.JObject?
    requires !HasKey(x, "@graph") && !HasKey(x, "@value") && !HasKey(x, "@list") && !HasKey(x, "@set")
    ensures IriEntryValue(x, v, ctx) == NodeObject(x, v, ctx)
  {
  }

  /** Objects holding a keyword go to the graph, value, list or set
      production, checked in that order. */
  lemma KeywordObjectDispatch(x: Json, v: Var, ctx: Context)
    requires x.JObject?
    ensures HasKey(x, "@graph") ==> IriEntryValue(x, v, ctx) == GraphObject(x, v, ctx)
    ensures !HasKey(x, "@graph") && HasKey(x, "@value") ==> IriEntryValue(x, v, ctx) == ValueObject(x, v, ctx)
    ensures !HasKey(x, "@graph") && !HasKey(x, "@value") && HasKey(x, "@list") ==>
      IriEntryValue(x, v, ctx) == ListObject(x, v, ctx)
    ensures !HasKey(x, "@graph") && !HasKey(x, "@value") && !HasKey(x, "@list") && HasKey(x, "@set") ==>
      IriEntryValue(x, v, ctx) == SetObject(x, v, ctx)
  {
  }

  /** An array is a node object array bound to the same variable. */
  lemma ArrayDispatch(items: seq<Json>, v: Var, ctx: Context)
    ensures IriEntryValue(JArray(items), v, ctx) == NodeObjectArray(items, v, ctx)
  {
  }

  /** A graph or list object reads its contents as a node object array bound
      to the same variable and keeps them under the keyword in the intermediate result. */
  lemma WrappedLaws(keyword: string, inner: Json, v: Var, ctx: Context)
    ensures var p := NodeObjectArrayOf(inner, v, ctx); var r := Wrapped(keyword, inner, v, ctx);
      && r.ir == Object([Field(keyword, p.ir)])
      && r.term == Variable(v) && r.operation == p.operation && r.projections == p.projections && r.warnings == p.warnings
  {
  }
}
