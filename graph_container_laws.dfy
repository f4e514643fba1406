/** A top-level graph container: the nodes under `@graph` are a node object
    array read under the object's own context, re-wrapped with `@context`
    and `@graph`. */
module GraphContainerLaws {
  import opened Json
  import opened Rdf
  import opened IntermediateResult
  import opened ParseContext
  import opened ParseCommon
  import opened Parse

  /** The `@context` value an object carries, when it is JavaScript-truthy. */
  predicate HasTruthyContext(x: Json) {
    HasKey(x, "@context") && Truthy(Lookup(x, "@context"))
  }

  /** Term, operation, projections and warnings are those of the node object
      array of `@graph`, read with the same variable under the element's
      `@context` over the incoming one. */
  lemma TopLevelGraphContainerDelegates(x: Json, v: Var, ctx: Context)
    requires HasKey(x, "@graph")
    ensures var p := NodeObjectArrayOf(Lookup(x, "@graph"), v, Propagate(Find(x, "@context"), ctx));
      var r := TopLevelGraphContainer(x, v, ctx);
      r.term == p.term && r.operation == p.operation && r.projections == p.projections && r.warnings == p.warnings
  {
  }

  /** The intermediate result is an object ending in `@graph`, which holds the
      node object array's result; it holds `@context` exactly when the element's
      `@context` is truthy, verbatim and before `@graph`. */
  lemma {:induction false} TopLevelGraphContainerShape(x: Json, v: Var, ctx: Context)
    requires HasKey(x, "@graph")
    ensures var p := NodeObjectArrayOf(Lookup(x, "@graph"), v, Propagate(Find(x, "@context"), ctx));
      var r := TopLevelGraphContainer(x, v, ctx);
      && r.ir.Object?
      && (HasTruthyContext(x) ==>
            r.ir.fields == [Field("@context", NativeValue(Lookup(x, "@context"))), Field("@graph", p.ir)])
      && (!HasTruthyContext(x) ==> r.ir.fields == [Field("@graph", p.ir)])
    ensures var fs := TopLevelGraphContainer(x, v, ctx).ir.fields;
      (exists i :: 0 <= i < |fs| && fs[i].key == "@context") <==> HasTruthyContext(x)
  {
    var fs := TopLevelGraphContainer(x, v, ctx).ir.fields;
    if HasTruthyContext(x) {
      assert fs[0].key == "@context";
    } else {
      assert |fs| == 1 && fs[0].key == "@graph";
    }
  }
}
