/** Set objects are not supported: the production passes the element
    through and warns. */
module SetObjectLaws {
  import opened Json
  import opened Rdf
  import opened IntermediateResult
  import opened ParseContext
  import opened ParseCommon
  import opened Parse

  /** The raw element as the intermediate result, the variable as the term,
      exactly one fixed warning, no pattern and no projection; the context
      in force makes no difference. */
  lemma SetObjectLaws(x: Json, v: Var, ctx: Context, other: Context)
    ensures var r := SetObject(x, v, ctx);
      && r.ir == NativeValue(x) && r.term == Variable(v)
      && r.warnings == [Warning(SetNotSupportedMessage, [])]
      && r.projections == [] && r.operation == EmptyJoin
    ensures SetObject(x, v, ctx) == SetObject(x, v, other)
  {
  }
}
