# xql query translator, modelled in Dafny

xql lets a client write a query as a JSON-LD document in which the string
`"?"` (the placeholder) marks each value the query should return. The
translator walks that document, following the productions of the JSON-LD 1.1
grammar (section 9 of the JSON-LD 1.1 recommendation). For each element it
produces five things:

- an *intermediate result*: a template with the document's shape that says
  where each answer goes;
- a SPARQL algebra *operation* built from basic graph patterns, `Join` and
  `LeftJoin` (section 18 of SPARQL 1.1 Query Language);
- the variables to *project*;
- a *term*: the variable or IRI that stands for the element;
- *warnings*, each with a path into the input, for parts it ignores.

The top-level `parseQuery` seeds the `Document` production with the variable
`?root` and the null context. It then wraps the operation in a `Project`.

The productions modelled are:

- `Document`;
- `TopLevelGraphContainer`;
- `NodeObjectArray`;
- `NodeObject`, with each of its entry kinds;
- the dispatcher for values of IRI-keyed entries (`parseIriEntryValue`);
- the primitive, value, graph, list and set objects;
- `parseQuery`.

They are mutually recursive total functions in module `Parse`. Termination
follows the size of the element. The model has these modules:

- `Json` — JSON values;
- `Rdf` — terms, patterns and the algebra, with a flattening `MkJoin`;
- `IntermediateResult` — the intermediate result;
- `ParseContext` — the active context: terms, `@vocab`, aliases of `@id` and
  `@container` declarations;
- `ParseCommon` — the record every production returns, warnings, and child
  variable names;
- `Parse` — the productions;
- `Query` — `parseQuery`.

The proofs sit in the remaining modules:

- `Soundness`: one induction over the productions' own recursion. Every
  production keeps three invariants:
  - the projected variables are exactly the variables its intermediate
    result reads;
  - every warning's path leads to a node of the input;
  - its operation never nests a `Join` directly in a `Join`.
- Law modules (`IriEntryValueLaws`, `NodeObjectLaws`, `DocumentLaws`,
  `GraphContainerLaws`, `SetObjectLaws`): the behaviour of each production
  taken alone.
- `QueryScenarios`: the translator's end-to-end examples, proved with
  `parseQuery` applied to the whole query. Each is stated for any
  vocabulary namespace `ns` (any absolute IRI). `SwapiIsNamespace` shows
  that `http://swapi.dev/documentation` is one.
- `Lists`: small facts about sequence displays that the scenario proofs use.

## Model

| member | source | states |
|---|---|---|
| Query.ParseQuery | src/parse/index.ts:7-23 | Succeeds exactly on an object or an array. The result is a `Project` whose variables are exactly those the intermediate result reads, all scoped under `?root`. Its joins are flat, and every warning path leads into the query. |
| Query.ParseQueryDelegates | src/parse/index.ts:11-22 | The result is Document's result for `?root` under the null context: its intermediate result and warnings unchanged, its operation projected over its projections. |
| DocumentLaws.DocumentOfNodeObject | src/parse/Document.test.ts:11-27 | An object without `@graph` gives exactly NodeObject's result. |
| DocumentLaws.DocumentOfArray | src/parse/Document.test.ts:29-47 | An array gives exactly NodeObjectArray's result. |
| DocumentLaws.DocumentOfGraphContainer | src/parse/Document.test.ts:49-69 | An object with `@graph` gives exactly TopLevelGraphContainer's result. |
| DocumentLaws.IdPlaceholderMemberTwice | src/parse/NodeObject.test.ts:287-314 | An array whose member is `{"@id": "?"}` projects the array's variable twice: once as the array's own variable, once as the member's name. |
| DocumentLaws.NodeObjectArrayLaws | src/parse/Document.test.ts:29-47 | An array whose first member is an object: the term is the array's variable, and the intermediate result is a plural of that variable shaped like the first member. The operation is the first member's operation. The projections are the variable followed by the member's projections. The member's warnings are placed under index 0. |
| GraphContainerLaws.TopLevelGraphContainerDelegates | src/parse/TopLevelGraphContainer.ts:6-14 | Term, operation, projections and warnings are those of the node object array under `@graph`, parsed with the same variable and with the object's `@context` propagated. |
| GraphContainerLaws.TopLevelGraphContainerShape | src/parse/TopLevelGraphContainer.ts:14-22 | The intermediate result is an object. It ends in `@graph`, which holds the array's intermediate result. It starts with the `@context` value exactly when that value is truthy. |
| IriEntryValueLaws.PrimitiveDispatch | src/parse/parseIriEntryValue.test.ts:26-34 | A string, number or boolean gives exactly the primitive production's result. |
| IriEntryValueLaws.PrimitiveLaws | src/parse/parseIriEntryValue.test.ts:26-34 | The placeholder binds and projects the variable and is read back as its native value. Any other primitive is a constant literal, with no pattern, projection or warning. |
| IriEntryValueLaws.NullValue | src/parse/parseIriEntryValue.test.ts:36-50 | `null` binds the variable, is carried verbatim, adds no pattern and gives the one "not yet supported" warning at the value itself. |
| IriEntryValueLaws.NodeObjectDispatch | src/parse/parseIriEntryValue.test.ts:52-64 | An object holding none of `@graph`, `@value`, `@list` and `@set` gives exactly NodeObject's result. |
| IriEntryValueLaws.KeywordObjectDispatch | src/parse/parseIriEntryValue.test.ts:66-81 | Objects holding `@graph`, `@value`, `@list` or `@set` go to the graph, value, list or set production, in that order of precedence. |
| IriEntryValueLaws.ArrayDispatch | src/parse/NodeObject.test.ts:215-257 | An array gives exactly NodeObjectArray's result for the same variable. |
| IriEntryValueLaws.WrappedLaws | src/parse/NodeObject.test.ts:140-213 | A graph or list object has the operation, projections and warnings of its contents read as a node object array. Its intermediate result is that array's, re-wrapped under the keyword. |
| SetObjectLaws.SetObjectLaws | src/parse/parseSetObject.ts:4-16 | The element is passed through verbatim, with the variable as term and no pattern or projection. There is the single set-objects-unsupported warning at the element. The context plays no part. |
| NodeObjectLaws.IriEntry | src/parse/NodeObject.test.ts:52-100 | An IRI key with a non-array value: the field keeps the key and the value's intermediate result. The operation is the pattern from the node's variable through the IRI to the value's term, joined with the value's operation. The value's projections are kept and its warnings are nested under the key. |
| NodeObjectLaws.TermEntry | src/parse/NodeObject.test.ts:102-138 | A key the context maps to an IRI is linked through that IRI, while the intermediate result keeps the key as written. |
| NodeObjectLaws.ContainerAsWrapped | src/parse/NodeObject.test.ts:140-213 | An array value under a term declaring a container parses exactly as the object `{keyword: value}` would. |
| NodeObjectLaws.ContainerEntry | src/parse/NodeObject.test.ts:140-213 | An array value under a term declaring `@graph`, `@list` or `@set` is parsed as that container. The result is an optional match (`LeftJoin`) of the link and the container's operation. |
| NodeObjectLaws.ArrayEntry | src/parse/NodeObject.test.ts:215-257 | An array value under a term with no container is a node object array under the child variable. It is an optional match of the link and the array's operation. |
| NodeObjectLaws.IdValueEntry | src/parse/NodeObject.test.ts:259-285 | A concrete `@id` is kept verbatim. It makes the named node the subject of later entries, while the node's term stays its variable. It projects nothing. |
| NodeObjectLaws.IdPlaceholderEntry | src/parse/NodeObject.test.ts:287-314 | `"@id": "?"` marks where the node's name goes, projects the node's variable and keeps the variable as subject. |
| NodeObjectLaws.UndefinedEntry | src/parse/NodeObject.test.ts:362-381 | A key the context does not define is kept verbatim and adds no pattern. It gives a "Key not defined" warning at that key. |
| NodeObjectLaws.EntryPrefixFields | src/parse/NodeObject.test.ts:33-50 | An entry only appends to the fields gathered so far. |
| NodeObjectLaws.EntriesPrefixFields | src/parse/NodeObject.test.ts:33-50 | Fields already gathered are carried through, in front, by any sequence of entries. |
| NodeObjectLaws.LeadingContext | src/parse/NodeObject.test.ts:33-50 | A leading `@context` entry is kept verbatim as the first field. The other entries are folded under the propagated context. |
| NodeObjectLaws.ContextOnly | src/parse/NodeObject.test.ts:33-50 | An object holding only `@context`: the context kept verbatim, no pattern, projection or warning. |
| NodeObjectLaws.EntryKeys | src/parse/NodeObject.test.ts:33-100 | Each entry adds exactly one field, under its own key, after the fields so far. |
| NodeObjectLaws.EntriesKeys | src/parse/NodeObject.test.ts:33-100 | A fold over entries adds one field per entry, keyed by the entries' keys in order. |
| NodeObjectLaws.NodeObjectKeys | src/parse/NodeObject.test.ts:33-100 | A node object's intermediate result has one field per entry of the input object, in input order, under the same keys. |
| NodeObjectLaws.NodeObjectKeepsUndefined | src/parse/index.test.ts:219-253 | In any object, the value of every key the context in force does not define stays in the intermediate result verbatim, at that key's position. |
| NodeObjectLaws.UndefinedAddsNoPattern | src/parse/index.test.ts:256-263 | An entry whose key the context does not define adds no triple pattern. |
| NodeObjectLaws.NodeObjectWarningsAtKeys | src/parse/index.test.ts:265-282 | Every warning of a node object has a path that starts at the key of one of its entries. |
| NodeObjectLaws.ValueUndefinedWarningsBelow | src/parse/parseIriEntryValue.test.ts:36-81 | No value of an IRI-keyed entry issues a "Key not defined" warning at its own position. Such warnings always come from an entry below it. |
| NodeObjectLaws.NodeObjectUndefinedWarningIff | src/parse/NodeObject.test.ts:362-381 | A node object warns "Key not defined" at `[k]` if and only if one of its entries is keyed `k`, `k` is not `@context`, and the context in force does not define `k`. |
| NodeObjectLaws.EntryKeepsWarnings | src/parse/NodeObject.test.ts:362-381 | An entry only puts new warnings in front of those issued before it. |
| NodeObjectLaws.EntriesKeepWarnings | src/parse/NodeObject.test.ts:362-381 | Warnings once issued are kept by later entries. |
| NodeObjectLaws.EntriesWarnUndefined | src/parse/NodeObject.test.ts:362-381 | Every entry whose key the context does not define leaves a "Key not defined" warning at that key. |
| NodeObjectLaws.NodeObjectWarnsUndefined | src/parse/NodeObject.test.ts:362-381 | Every key of a node object that the context in force (after its own `@context`) does not define is reported at that key. |
| Soundness.IriEntryValueSound | src/parse/index.test.ts:141-184 | For any value of an IRI-keyed entry: the projections are exactly the variables the intermediate result reads, all scoped under the variable, joins are flat, and warnings lead into the value. |
| Soundness.PrimitiveSound | src/parse/parseIriEntryValue.test.ts:26-34 | The same invariants for a primitive. |
| Soundness.ValueObjectSound | src/parse/parseIriEntryValue.test.ts:66-81 | The same invariants for a value object. |
| Soundness.GraphObjectSound | src/parse/parseIriEntryValue.test.ts:66-81 | The same invariants for a graph object. |
| Soundness.ListObjectSound | src/parse/parseIriEntryValue.test.ts:66-81 | The same invariants for a list object. |
| Soundness.SetObjectSound | src/parse/parseSetObject.ts:4-16 | The same invariants for a set object. Its warning is at the element. |
| Soundness.WrappedSound | src/parse/NodeObject.test.ts:140-213 | The same invariants for contents re-wrapped under `@graph` or `@list`. |
| Soundness.ContainerValueSound | src/parse/NodeObject.test.ts:140-213 | The same invariants for a container-declared value. |
| Soundness.NodeObjectArrayOfSound | src/parse/TopLevelGraphContainer.ts:6-10 | The same invariants for a value read as a node object array. |
| Soundness.NodeObjectArraySound | src/parse/index.test.ts:105-139 | The same invariants for a node object array; its variable is projected along with the first member's projections. |
| Soundness.NodeObjectSound | src/parse/index.test.ts:219-283 | The same invariants for a node object: every placeholder projected and nothing else, and every warning's path resolves to some node of the object. |
| Soundness.EntriesSound | src/parse/index.test.ts:219-283 | Folding entries of an object keeps the accumulator invariants. |
| Soundness.EntrySound | src/parse/index.test.ts:219-283 | One entry of any kind keeps the accumulator invariants. |
| Soundness.EntryForIriSound | src/parse/index.test.ts:141-184 | An IRI-keyed entry keeps the accumulator invariants. |
| Soundness.TopLevelGraphContainerSound | src/parse/TopLevelGraphContainer.ts:4-23 | The same invariants for a top-level graph container. Its warnings lead into the object, entering `@graph` without a path segment. |
| Soundness.DocumentSound | src/parse/Document.test.ts:11-69 | The same invariants for any object or array document. |
| ParseCommon.Plain | src/parse/NodeObject.test.ts:40-49 | A result with the given term and intermediate result and the defaults: no pattern, projection or warning. |
| ParseCommon.ParseWarning | src/parse/parseSetObject.ts:9-14 | A warning about the element itself has the given message and the empty path. |
| ParseCommon.NestUnder | src/parse/index.test.ts:265-282 | Each warning keeps its message and order, with one segment put in front of its path. |
| ParseCommon.NestWarningsUnderKey | src/parse/NodeObject.test.ts:95-97 | Each warning keeps its message and order, with the entry's key put in front of its path. |
| ParseCommon.LocalNameSplits | src/parse/index.test.ts:22 | The local name of an IRI is a suffix that holds no `#` or `/`, and what precedes it is empty or ends at one. |
| ParseCommon.LocalNameAfter | src/parse/index.test.ts:90 | The local name of `prefix + d + name`, with `d` a delimiter and `name` free of delimiters, is `name`. |
| ParseCommon.VariableUnder | src/parse/index.test.ts:165 | A child variable's name extends its parent's with the separator and a non-empty suffix: the IRI's local name, or the whole IRI when it ends at `#` or `/`. So every child is scoped under its parent. |
| ParseContext.Expand | src/parse/NodeObject.test.ts:102-138 | A key is `@id` exactly when it is `@id` or an alias of it. It is undefined exactly when it is some other keyword, or has no term, no colon and no `@vocab` to expand it. A defined term expands to its IRI. |
| ParseContext.DefineTerm | src/parse/NodeObject.test.ts:102-138 | After defining a term, that term expands to the given IRI. |
| ParseContext.DefineIdAlias | src/parse/NodeObject.test.ts:316-348 | After defining an alias, it expands to `@id`. |
| ParseContext.TermDefinition | src/parse/NodeObject.test.ts:102-138 | A local context `{t: iri}` makes `t` expand to `iri`, with no container. |
| ParseContext.IdAliasDefinition | src/parse/index.test.ts:186-217 | A local context `{t: "@id"}` makes `t` an alias of `@id`. |
| ParseContext.VocabDefinition | src/parse/NodeObject.test.ts:215-257 | A local context `{"@vocab": ns}` over the null context expands each plain key `k` to `ns + k`. |
| ParseContext.ContainerDefinition | src/parse/NodeObject.test.ts:140-213 | A local context `{t: {"@container": kw}}` declares that container for `t`. |
| IntermediateResult.FieldKeys | src/IntermediateResult/index.ts:3-7 | The keys of an object's fields, one per field, in order. |
| IntermediateResult.VarsOfFieldsAppend | src/IntermediateResult/index.ts:3-7 | The variables read by two field lists together are those of each. |
| Json.Keys | src/parse/NodeObject.test.ts:33-100 | The keys of an object's entries, one per entry, in order. |
| Json.FindIn | src/parse/TopLevelGraphContainer.ts:6 | `element[k]`: found exactly when some entry has key `k`, and then it is that entry's value. |
| Json.Find | src/parse/TopLevelGraphContainer.ts:11 | Found exactly when the object has the key. The value is smaller than the object. |
| Json.Lookup | src/parse/TopLevelGraphContainer.ts:6 | The value of some entry with the key. |
| Rdf.MkJoin | src/parse/NodeObject.test.ts:122-131 | The factory always builds a `Join`. |
| Rdf.MkJoinKeepsPatterns | src/parse/NodeObject.test.ts:122-131 | Flattening keeps the triple patterns and their order. |
| Rdf.FlattenKeepsPatterns | src/parse/NodeObject.test.ts:122-131 | Splicing joins into their parent keeps the triple patterns and their order. |
| Rdf.TriplePatternsOfAllAppend | src/parse/NodeObject.test.ts:122-131 | The patterns of two operation lists together are those of each, in order. |
| Rdf.FlattenFlat | src/parse/NodeObject.test.ts:122-131 | Flattening flat operations leaves no `Join` among the inputs. |
| Rdf.MkJoinFlat | src/parse/NodeObject.test.ts:122-131 | A join of flat operations is flat. |
| Rdf.MkJoinEmptyLeft | src/parse/NodeObject.test.ts:122-131 | Joining the empty group with a join gives that join unchanged. |
| Rdf.MkJoinOfJoins | src/parse/index.test.ts:40-72 | Joining two joins gives one join of all their inputs. |
| Rdf.MkJoinEmptyRight | src/parse/NodeObject.test.ts:122-131 | Joining a non-join with the empty group gives a one-input join. |
| Rdf.MkJoinPatternJoin | src/parse/index.test.ts:74-103 | Joining a non-join with a join puts it in front of the join's inputs. |
| QueryScenarios.VocabularyTerm | src/parse/index.test.ts:22 | A vocabulary IRI is kept as written under the null context, and its value's variable is named after its local name. |
| QueryScenarios.LiteralAndTwoPlaceholders | src/parse/index.test.ts:40-72 | A node with a constant and two placeholders: three patterns from the node's variable in one join, the two child variables projected, no warning. |
| QueryScenarios.IdAndTwoPlaceholders | src/parse/index.test.ts:9-38 | A node with a constant `@id` and two placeholders: two patterns from the named node in one join, the two child variables projected. |
| QueryScenarios.OnePlaceholder | src/parse/index.test.ts:74-103 | The node `{k: "?"}` is one pattern to the projected child variable. |
| QueryScenarios.LiteralAndNode | src/parse/index.test.ts:74-103 | A constant and a nested node: the link to the nested node is spliced into the same join as the nested node's patterns. |
| QueryScenarios.LiteralPlaceholderArray | src/parse/index.test.ts:141-184 | A constant, a placeholder and an array: the array's link and patterns are the right side of a `LeftJoin` of the rest. |
| QueryScenarios.ByIdScenario | src/parse/index.test.ts:9-38 | The query by `@id` translates to patterns whose subject is the named node, projecting hair and eye colour, with no warning. |
| QueryScenarios.ByPropertiesScenario | src/parse/index.test.ts:40-72 | The query by name translates to a join of the name pattern and the two colour patterns from `?root`, with `?root` not projected. |
| QueryScenarios.AliasNode | src/parse/index.test.ts:186-217 | Under the alias context, `id` names the subject exactly as `@id` does. |
| QueryScenarios.AliasScenario | src/parse/index.test.ts:186-217 | The query using an alias of `@id` translates as the query by `@id` does, with the context kept in the intermediate result. |
| QueryScenarios.VocabularyKey | src/parse/index.test.ts:74-103 | Under `@vocab`, a plain key expands into the vocabulary and names its variable after itself. |
| QueryScenarios.ObjectWithContext | src/parse/index.test.ts:74-103 | A one-object document with a leading `@context`: the context is the first field, and the rest is the node object under that context. |
| QueryScenarios.ArrayWithContext | src/parse/index.test.ts:105-139 | The same node object as the only member of an array: `?root` is projected first and warnings go under index 0. |
| QueryScenarios.SingularRelatedNode | src/parse/index.test.ts:74-103 | The node with a nested `homeworld` gives three patterns in one join, projecting only `?root·homeworld·name`. |
| QueryScenarios.SingularRelatedScenario | src/parse/index.test.ts:74-103 | The whole query for a singular related node: the intermediate result, the projected join and no warning. |
| QueryScenarios.MultipleResultsNode | src/parse/index.test.ts:105-139 | The node of the array query: three patterns from `?root`, projecting name and height. |
| QueryScenarios.MultipleResultsScenario | src/parse/index.test.ts:105-139 | The array query: a plural bound to `?root`, projecting `?root`, name and height. |
| QueryScenarios.PluralRelatedNode | src/parse/index.test.ts:141-184 | The node with `films: [...]`: the films link and title pattern are an optional match of the rest. |
| QueryScenarios.PluralRelatedScenario | src/parse/index.test.ts:141-184 | The whole query for a plural related node, projecting `?root`, name, films and films' title. |
| QueryScenarios.UndefinedKeysNode | src/parse/index.test.ts:219-283 | A node mixing undefined keys with IRI keys: undefined keys are kept verbatim, but an undefined array still opens an empty optional match. Warnings come newest first. |
| QueryScenarios.UnmappedKeysNode | src/parse/index.test.ts:219-283 | The node of the unmapped-keys query: its intermediate result, the nested `LeftJoin`s and the four warnings. |
| QueryScenarios.UnmappedKeysScenario | src/parse/index.test.ts:219-283 | The unmapped-keys query: unmapped keys verbatim, only mapped ones linked, and four warnings each under index 0 at the ignored key. |

## Left out

- Context processing is reduced to what the productions ask of it: terms,
  `@vocab`, aliases of `@id` and `@container`. A term definition may be a
  string or an object with `@id` and `@container`. It does not load remote
  contexts, handle `@base`, prefixes or compact IRIs, type coercion, or
  report invalid or cyclic contexts. An array of contexts is ignored.
  `src/parse/common` and the `jsonld` library it calls are not part of this
  model.
- The parser registry is left out. The source lets a caller pass its own
  parser to `parseQuery` (src/parse/index.ts:9), and the tests override
  single productions. The model fixes the default productions.
- Asynchrony (every production awaits its children) is left out. It does not
  affect the results.
- Numbers are integers. Floating point is out of scope.
- Literal datatypes are left out. A literal carries the JSON value it came
  from; its `xsd` datatype is not computed.
- The errors in src/IntermediateResult/index.ts:9-14 and the filling of the
  intermediate result from query answers are left out. They belong to the
  result side, not to the translation.
- Language, index, id and type maps and included blocks are left out. So
  are objects holding `@type`, `@reverse` or `@nest` other than as
  undefined keys. They are marked not yet written in the source
  (src/parse/NodeObject.test.ts:350-360).
- The code that names child variables is not part of this model. The model
  takes the suffix of the IRI after its last `#` or `/`. When that suffix is
  empty it takes the whole IRI, as the naming scheme is designed to do.
- Collision-freedom of generated variable names is left out. Two entries
  with the same local name get the same variable, as the source notes
  (src/parse/index.test.ts:285).
- NodeObjectArray reads the shape of an array from its first member only,
  as the source's tests show. An empty array, or a first member that is not
  an object, gives
  the empty node object.
- Query.ParseQuery states the projected variables as a set only. The list
  itself can name a variable twice. An array whose member has `"@id": "?"`
  projects the array's variable as the array's and again as the member's
  name (`DocumentLaws.IdPlaceholderMemberTwice`). Each placeholder is
  promised to appear in the list, not to appear exactly once.
- Duplicate keys in an object are kept as written. A parsed JavaScript
  object holds one value per key: the last one, at the first key's
  position. The model's objects are the entries as listed. `Find` takes the
  first entry with a key, and NodeObject reads every entry, repeats
  included. A query with repeated keys is outside what the model describes.
- Object key order is the order written. JavaScript moves integer-like keys
  to the front of an object; the model does not.
- The source of the NodeObject, NodeObjectArray, Document and
  parseIriEntryValue productions is not part of this model. They are
  modelled from their tests (src/parse/*.test.ts). Where the tests fix a
  detail, the model follows them:
  - a `@list` container is also an optional match
    (src/parse/NodeObject.test.ts:140-213);
  - an undefined array-valued key opens an empty optional match, `OPTIONAL
    {  }` (src/parse/index.test.ts:256-263);
  - warnings are listed newest entry first (src/parse/index.test.ts:265-282).
- The intermediate result's constructors are named after what they mean
  (`NativeValue`, `Plural`, `NativePlaceholder`, `NamePlaceholder`), not
  after the source's classes.
- SPARQL text is not generated. Only the algebra is modelled.
- `MkJoin` models the algebra factory's `createJoin` as flattening one
  level of nested joins. This is what the tests' expected values require.
  The factory is not part of this model.
- TopLevelGraphContainer adds the `@context` field only when the value is
  JavaScript-truthy (src/parse/TopLevelGraphContainer.ts:17-19). The model
  follows the code.
- TopLevelGraphContainer passes the `@graph` value to NodeObjectArray even
  when it is not an array. The model reads a single value as a one-element
  array (`NodeObjectArrayOf`), as the list and graph objects do.
- Warning paths from the graph and list productions and from
  TopLevelGraphContainer get no segment for the `@graph` or `@list` key
  (src/parse/TopLevelGraphContainer.ts:14-15 keeps the array's warnings as
  they are). So the model's notion of a path leading into the input enters
  those wrappers without a segment.
- Query.ParseQuery returns `Failure(NotADocument)` for a string, number,
  boolean or `null` query. The source passes such a value to Document,
  whose behaviour on it is not shown. The JSON-LD grammar admits no such
  document.
