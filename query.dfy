/** The top-level translation: seed Document with the variable `root` and
    the null context, then project the operation over the collected variables. */
module Query {
  import opened Json
  import opened Rdf
  import opened IntermediateResult
  import opened ParseContext
  import opened ParseCommon
  import opened Parse
  import opened Soundness

  /** A scalar is not a document: Document takes an object or an array. */
  datatype QueryError = NotADocument

  datatype Result<+T> = Success(value: T) | Failure(error: QueryError)

  datatype Query = Query(ir: IR, sparql: Algebra, warnings: seq<Warning>)

  const RootVariable: Var := Var("root")

  /** The query for `doc`: it selects exactly the variables the intermediate
      result reads, all named under `root`, and every warning points into
      `doc`. */
  function ParseQuery(doc: Json): (r: Result<Query>)
    ensures r.Success? <==> doc.JObject? || doc.JArray?
    ensures r.Success? ==> r.value.sparql.Project? && ToSet(r.value.sparql.variables) == Vars(r.value.ir)
    ensures r.Success? ==> Scoped(r.value.sparql.variables, RootVariable)
    ensures r.Success? ==> FlatJoins(r.value.sparql)
    ensures r.Success? ==> WarningsResolve(r.value.warnings, doc)
  {
    if doc.JObject? || doc.JArray? then
      DocumentSound(doc, RootVariable, NullContext);
      var d := Document(doc, RootVariable, NullContext);
      Success(Query(d.ir, Project(d.operation, d.projections), d.warnings))
    else Failure(NotADocument)
  }

  /** parseQuery adds nothing of its own: Document's result under `root` and
      the null context, with its operation projected over its projections. */
  lemma ParseQueryDelegates(doc: Json)
    requires doc.JObject? || doc.JArray?
    ensures var d := Document(doc, RootVariable, NullContext);
      ParseQuery(doc) == Success(Query(d.ir, Project(d.operation, d.projections), d.warnings))
  {
  }
}
