/** The intermediate result: a template with the input's shape, saying where
    the bindings of which variables go. */
module IntermediateResult {
  import opened Json
  import opened Rdf

  datatype IR =
    /** A node, value, graph or list object: keys in input order. */
    | Object(fields: seq<Field>)
    /** A collection bound to `variable`, each member shaped like `template`. */
    | Plural(variable: Var, template: IR)
    /** A value known already, carried verbatim. */
    | NativeValue(value: Json)
    /** A value to be filled with the native value bound to `variable`. */
    | NativePlaceholder(variable: Var)
    /** An `@id` to be filled with the name of the term bound to `variable`. */
    | NamePlaceholder(variable: Var)

  datatype Field = Field(key: string, value: IR)

  function FieldKeys(fs: seq<Field>): (ks: seq<string>)
    ensures |ks| == |fs|
    ensures forall i :: 0 <= i < |fs| ==> ks[i] == fs[i].key
  {
    if fs == [] then [] else [fs[0].key] + FieldKeys(fs[1..])
  }

  /** The variables an intermediate result will read bindings of. */
  function Vars(ir: IR): set<Var>
  {
    match ir
    case Object(fs) => VarsOfFields(fs)
    case Plural(v, t) => {v} + Vars(t)
    case NativeValue(_) => {}
    case NativePlaceholder(v) => {v}
    case NamePlaceholder(v) => {v}
  }

  function VarsOfFields(fs: seq<Field>): set<Var>
  {
    if fs == [] then {} else Vars(fs[0].value) + VarsOfFields(fs[1..])
  }

  lemma {:induction false} VarsOfFieldsAppend(fs: seq<Field>, gs: seq<Field>)
    ensures VarsOfFields(fs + gs) == VarsOfFields(fs) + VarsOfFields(gs)
  {
    if fs == [] {
      assert fs + gs == gs;
    } else {
      assert (fs + gs)[1..] == fs[1..] + gs;
      VarsOfFieldsAppend(fs[1..], gs);
    }
  }
}
