/** A document is a top-level graph container, a node object array or a
    node object, and Document adds nothing to the production it picks. */
module DocumentLaws {
  import opened Json
  import opened Rdf
  import opened IntermediateResult
  import opened ParseContext
  import opened ParseCommon
  import opened Parse

  /** A plain object gives exactly NodeObject's result. */
  lemma DocumentOfNodeObject(x: Json, v: Var, ctx: Context)
    requires x.JObject? && !HasKey(x, "@graph")
    ensures Document(x, v, ctx) == NodeObject(x, v, ctx)
  {
  }

  /** An array gives exactly NodeObjectArray's result. */
  lemma DocumentOfArray(items: seq<Json>, v: Var, ctx: Context)
    ensures Document(JArray(items), v, ctx) == NodeObjectArray(items, v, ctx)
  {
  }

  /** An object with `@graph` gives exactly TopLevelGraphContainer's result,
      whatever else (a `@context`) it holds. */
  lemma DocumentOfGraphContainer(x: Json, v: Var, ctx: Context)
    requires HasKey(x, "@graph")
    ensures Document(x, v, ctx) == TopLevelGraphContainer(x, v, ctx)
  {
  }

  /** A node object array is a plural of the array's variable, shaped like its
      first member; the variable itself is projected first, then the member's. */
  lemma NodeObjectArrayLaws(items: seq<Json>, v: Var, ctx: Context)
    requires |items| > 0 && items[0].JObject?
    ensures var t := NodeObject(items[0], v, ctx); var r := NodeObjectArray(items, v, ctx);
      && r.term == Variable(v) && r.ir == Plural(v, t.ir)
      && r.operation == t.operation && r.projections == [v] + t.projections
      && r.warnings == NestUnder(Index(0), t.warnings)
  {
  }

  /** The projection list can name a variable twice: an array whose member
      is `{"@id": "?"}` projects the array's variable both as the array's
      and as the member's name. */
  lemma IdPlaceholderMemberTwice(v: Var, ctx: Context)
    ensures NodeObjectArray([JObject([Member("@id", JString(Placeholder))])], v, ctx).projections == [v, v]
  {
    var m := Member("@id", JString(Placeholder));
    var x := JObject([m]);
    assert Find(x, "@context") == None;
    assert Expand(ctx, "@id") == IdKey;
    var e := Entry(m, v, ctx, StartOf(v));
    assert e.projections == [] + [v];
    assert [m][1..] == [];
    assert Entries([m], v, ctx, StartOf(v)) == e;
    assert NodeObject(x, v, ctx).projections == [v];
  }
}
