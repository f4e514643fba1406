/** The productions of the translator, named after the JSON-LD 1.1 grammar
    (section 9 of the JSON-LD 1.1 recommendation). Each takes an element, the
    variable the element binds to and the active context, and returns a
    Parsed record. They call each other directly; the decreases clauses pair
    the size of the element with a rank for calls on the same element. */
module Parse {
  import opened Json
  import opened Rdf
  import opened IntermediateResult
  import opened ParseContext
  import opened ParseCommon

  const KeyNotDefinedMessage: string := "Key not defined by context and ignored"
  const NullNotSupportedMessage: string := "null values are not yet supported"
  const SetNotSupportedMessage: string :=
    "Set objects are not yet supported. " + "(https://github.com/m-ld/xql/issues/23)"

  /** What NodeObject has built from the entries seen so far. `subject` is
      the term sibling triple patterns start from. */
  datatype Acc = Acc(
    subject: Term,
    fields: seq<Field>,
    operation: Algebra,
    projections: seq<Var>,
    warnings: seq<Warning>)

  /** The value of an entry keyed by an IRI: dispatch on the value's shape. */
  function IriEntryValue(x: Json, v: Var, ctx: Context): Parsed
    decreases Size(x), 5
  {
    match x
    case JNull => Parsed(Variable(v), NativeValue(JNull), EmptyJoin, [], [ParseWarning(NullNotSupportedMessage)])
    case JArray(items) => NodeObjectArray(items, v, ctx)
    case JObject(_) =>
      if HasKey(x, "@graph") then GraphObject(x, v, ctx)
      else if HasKey(x, "@value") then ValueObject(x, v, ctx)
      else if HasKey(x, "@list") then ListObject(x, v, ctx)
      else if HasKey(x, "@set") then SetObject(x, v, ctx)
      else NodeObject(x, v, ctx)
    case _ => Primitive(x, v, ctx)
  }

  /** A string, number or boolean: the placeholder binds the variable, any
      other value is a constant literal. */
  function Primitive(x: Json, v: Var, ctx: Context): Parsed
    requires IsPrimitive(x)
  {
    if x == JString(Placeholder) then Parsed(Variable(v), NativePlaceholder(v), EmptyJoin, [v], [])
    else Plain(Literal(x), NativeValue(x))
  }

  /** A set object is not supported: the raw element is passed through with a warning. */
  function SetObject(x: Json, v: Var, ctx: Context): Parsed
  {
    Parsed(Variable(v), NativeValue(x), EmptyJoin, [], [ParseWarning(SetNotSupportedMessage)])
  }

  /** A value object holds a primitive under `@value`. */
  function ValueObject(x: Json, v: Var, ctx: Context): Parsed
    requires HasKey(x, "@value")
  {
    var inner := Lookup(x, "@value");
    if IsPrimitive(inner) then
      var p := Primitive(inner, v, ctx);
      p.(ir := Object([Field("@value", p.ir)]))
    else Plain(Variable(v), Object([Field("@value", NativeValue(inner))]))
  }

  function GraphObject(x: Json, v: Var, ctx: Context): Parsed
    requires HasKey(x, "@graph")
    decreases Size(x), 4
  {
    Wrapped("@graph", Lookup(x, "@graph"), v, ctx)
  }

  function ListObject(x: Json, v: Var, ctx: Context): Parsed
    requires HasKey(x, "@list")
    decreases Size(x), 4
  {
    Wrapped("@list", Lookup(x, "@list"), v, ctx)
  }

  /** The contents of a graph or list object, parsed as a node object array
      and re-wrapped under its keyword. */
  function Wrapped(keyword: string, inner: Json, v: Var, ctx: Context): Parsed
    decreases Size(inner) + 1, 2
  {
    var p := NodeObjectArrayOf(inner, v, ctx);
    p.(ir := Object([Field(keyword, p.ir)]))
  }

  /** An entry value whose term declares a container is parsed as the object
      `{keyword: value}` would be. */
  function ContainerValue(c: Container, x: Json, v: Var, ctx: Context): Parsed
    decreases Size(x) + 1, 3
  {
    match c
    case GraphContainer => Wrapped("@graph", x, v, ctx)
    case ListContainer => Wrapped("@list", x, v, ctx)
    case SetContainer => SetObject(JObject([Member("@set", x)]), v, ctx)
  }

  /** A value taken as a node object array; a single value as a one-element array. */
  function NodeObjectArrayOf(x: Json, v: Var, ctx: Context): Parsed
    decreases Size(x) + 1, 1
  {
    if x.JArray? then NodeObjectArray(x.items, v, ctx)
    else
      assert SizeItems([x]) == 1 + Size(x) by { assert [x][1..] == []; }
      NodeObjectArray([x], v, ctx)
  }

  /** An array of node objects bound to `v`. The members are taken to share
      one shape, read from the first member, which is parsed with `v` itself. */
  function NodeObjectArray(items: seq<Json>, v: Var, ctx: Context): Parsed
    decreases SizeItems(items), 0
  {
    var t :=
      if |items| > 0 && items[0].JObject? then NodeObject(items[0], v, ctx)
      else Plain(Variable(v), Object([]));
    Parsed(Variable(v), Plural(v, t.ir), t.operation, [v] + t.projections, NestUnder(Index(0), t.warnings))
  }

  /** The accumulator NodeObject starts from. */
  function StartOf(v: Var): Acc
  {
    Acc(Variable(v), [], EmptyJoin, [], [])
  }

  /** A node object: its `@context` governs all its entries, each entry adds
      a field to the intermediate result and, when its key is an IRI, a
      triple pattern joined with the pattern of its value. */
  function NodeObject(x: Json, v: Var, ctx: Context): Parsed
    requires x.JObject?
    decreases Size(x), 4
  {
    var inner := Propagate(Find(x, "@context"), ctx);
    var acc := Entries(x.entries, v, inner, StartOf(v));
    Parsed(Variable(v), Object(acc.fields), acc.operation, acc.projections, acc.warnings)
  }

  /** The operation an IRI-keyed entry contributes: the triple pattern from
      the subject to the value's term, joined with the value's own operation. */
  function Link(subject: Term, iri: string, child: Parsed): Algebra
  {
    MkJoin([Bgp([Pattern(subject, NamedNode(iri), child.term)]), child.operation])
  }

  function Entries(es: seq<Member>, v: Var, ctx: Context, acc: Acc): Acc
    decreases SizeEntries(es), 6
  {
    if es == [] then acc
    else Entries(es[1..], v, ctx, Entry(es[0], v, ctx, acc))
  }

  /** One entry, by what its key means under the context. */
  function Entry(m: Member, v: Var, ctx: Context, acc: Acc): Acc
    decreases Size(m.value) + 1, 5
  {
    var k, x := m.key, m.value;
    if k == "@context" then
      acc.(fields := acc.fields + [Field(k, NativeValue(x))])
    else
      match Expand(ctx, k)
      case IdKey => EntryForId(k, x, v, acc)
      case IriKey(iri) => EntryForIri(k, x, v, ctx, acc, iri)
      case Undefined => EntryForUndefined(k, x, acc)
  }

  /** An `@id` entry (or an alias of it): the placeholder makes `v` the
      subject and projects it, a string names the subject, anything else is
      only kept in the intermediate result. */
  function EntryForId(k: string, x: Json, v: Var, acc: Acc): Acc
  {
    if x == JString(Placeholder) then
      acc.(subject := Variable(v), fields := acc.fields + [Field(k, NamePlaceholder(v))],
           projections := acc.projections + [v])
    else if x.JString? then
      acc.(subject := NamedNode(x.s), fields := acc.fields + [Field(k, NativeValue(x))])
    else
      acc.(fields := acc.fields + [Field(k, NativeValue(x))])
  }

  /** An entry keyed by `iri`: its value is parsed under a variable named
      after the IRI, and linked to the subject; an array value is optional. */
  function EntryForIri(k: string, x: Json, v: Var, ctx: Context, acc: Acc, iri: string): Acc
    decreases Size(x) + 1, 4
  {
    var w := VariableUnder(v, iri);
    var c := ContainerOf(ctx, k);
    var child := if x.JArray? && c.Some? then ContainerValue(c.value, x, w, ctx) else IriEntryValue(x, w, ctx);
    var entryOp := Link(acc.subject, iri, child);
    Acc(
      acc.subject,
      acc.fields + [Field(k, child.ir)],
      if x.JArray? then LeftJoin(acc.operation, entryOp) else MkJoin([acc.operation, entryOp]),
      acc.projections + child.projections,
      NestWarningsUnderKey(k, child.warnings) + acc.warnings)
  }

  /** An entry the context does not define: kept verbatim and warned about;
      an array still opens an (empty) optional match. */
  function EntryForUndefined(k: string, x: Json, acc: Acc): Acc
  {
    Acc(
      acc.subject,
      acc.fields + [Field(k, NativeValue(x))],
      if x.JArray? then LeftJoin(acc.operation, EmptyJoin) else acc.operation,
      acc.projections,
      [Warning(KeyNotDefinedMessage, [Key(k)])] + acc.warnings)
  }

  /** A top-level object with `@graph`: its nodes are parsed as a node object
      array under the object's own context, and the intermediate result is
      re-wrapped with the `@context` (when truthy) and `@graph` keys. */
  function TopLevelGraphContainer(x: Json, v: Var, ctx: Context): Parsed
    requires HasKey(x, "@graph")
  {
    var ctxDef := Find(x, "@context");
    var p := NodeObjectArrayOf(Lookup(x, "@graph"), v, Propagate(ctxDef, ctx));
    var contextField := if ctxDef.Some? && Truthy(ctxDef.value) then [Field("@context", NativeValue(ctxDef.value))] else [];
    p.(ir := Object(contextField + [Field("@graph", p.ir)]))
  }

  /** A document: a top-level graph container, a node object array or a node object. */
  function Document(x: Json, v: Var, ctx: Context): Parsed
    requires x.JObject? || x.JArray?
  {
    if HasKey(x, "@graph") then TopLevelGraphContainer(x, v, ctx)
    else if x.JArray? then NodeObjectArray(x.items, v, ctx)
    else NodeObject(x, v, ctx)
  }
}
