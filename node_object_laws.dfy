/** What the node object production promises, entry kind by entry kind, and
    over whole objects: the keys of the intermediate result, and a warning
    for every key the context does not define. */
module NodeObjectLaws {
  import opened Json
  import opened Rdf
  import opened IntermediateResult
  import opened ParseContext
  import opened ParseCommon
  import opened Parse
  import opened Lists

  /** No entry of `es` is keyed `@context`. */
  predicate NoContextKey(es: seq<Member>) {
    forall i :: 0 <= i < |es| ==> es[i].key != "@context"
  }

  /** Without `@context` an object is its entries folded under the parent context. */
  lemma NoContextNode(es: seq<Member>, v: Var, ctx: Context)
    requires NoContextKey(es)
    ensures var a := Entries(es, v, ctx, StartOf(v));
      NodeObject(JObject(es), v, ctx) == Parsed(Variable(v), Object(a.fields), a.operation, a.projections, a.warnings)
  {
    assert Find(JObject(es), "@context") == None;
  }

  lemma {:induction false} EntriesCons(m: Member, es: seq<Member>, v: Var, ctx: Context, acc: Acc)
    ensures Entries([m] + es, v, ctx, acc) == Entries(es, v, ctx, Entry(m, v, ctx, acc))
  {
    assert ([m] + es)[1..] == es;
  }

  /** An object of three entries (none `@context`) is those entries read in order. */
  lemma {:induction false} ThreeEntries(m: Member, n: Member, o: Member, v: Var, ctx: Context)
    requires m.key != "@context" && n.key != "@context" && o.key != "@context"
    ensures var a := Entry(o, v, ctx, Entry(n, v, ctx, Entry(m, v, ctx, StartOf(v))));
      NodeObject(JObject([m, n, o]), v, ctx) == Parsed(Variable(v), Object(a.fields), a.operation, a.projections, a.warnings)
  {
    assert !HasKey(JObject([m, n, o]), "@context");
    var a1 := Entry(m, v, ctx, StartOf(v));
    var a2 := Entry(n, v, ctx, a1);
    ThenTwo(m, n, o);
    Two(n, o);
    Units([o]);
    EntriesCons(m, [n, o], v, ctx, StartOf(v));
    EntriesCons(n, [o], v, ctx, a1);
    EntriesCons(o, [], v, ctx, a2);
  }

  /** One step of the fold for an IRI-keyed entry whose value is not an array. */
  lemma {:induction false} StepIri(m: Member, v: Var, ctx: Context, acc: Acc, iri: string)
    requires m.key != "@context" && Expand(ctx, m.key) == IriKey(iri) && !m.value.JArray?
    ensures var c := IriEntryValue(m.value, VariableUnder(v, iri), ctx);
      Entry(m, v, ctx, acc) ==
        Acc(acc.subject, acc.fields + [Field(m.key, c.ir)], MkJoin([acc.operation, Link(acc.subject, iri, c)]),
            acc.projections + c.projections, NestWarningsUnderKey(m.key, c.warnings) + acc.warnings)
  {
  }

  /** One step of the fold for an IRI-keyed array without a declared container. */
  lemma {:induction false} StepIriArray(m: Member, v: Var, ctx: Context, acc: Acc, iri: string)
    requires m.key != "@context" && Expand(ctx, m.key) == IriKey(iri) && m.value.JArray?
    requires ContainerOf(ctx, m.key) == None
    ensures var c := NodeObjectArray(m.value.items, VariableUnder(v, iri), ctx);
      Entry(m, v, ctx, acc) ==
        Acc(acc.subject, acc.fields + [Field(m.key, c.ir)], LeftJoin(acc.operation, Link(acc.subject, iri, c)),
            acc.projections + c.projections, NestWarningsUnderKey(m.key, c.warnings) + acc.warnings)
  {
    var w := VariableUnder(v, iri);
    assert IriEntryValue(m.value, w, ctx) == NodeObjectArray(m.value.items, w, ctx);
  }

  /** One step of the fold for a key the context does not define. */
  lemma {:induction false} StepUndefined(m: Member, v: Var, ctx: Context, acc: Acc)
    requires m.key != "@context" && Expand(ctx, m.key).Undefined?
    ensures Entry(m, v, ctx, acc) ==
      Acc(acc.subject, acc.fields + [Field(m.key, NativeValue(m.value))],
          if m.value.JArray? then LeftJoin(acc.operation, EmptyJoin) else acc.operation,
          acc.projections, [Warning(KeyNotDefinedMessage, [Key(m.key)])] + acc.warnings)
  {
  }

  /** One step of the fold for an `@id` (or alias) naming the node. */
  lemma {:induction false} StepIdValue(m: Member, v: Var, ctx: Context, acc: Acc)
    requires m.key != "@context" && Expand(ctx, m.key) == IdKey
    requires m.value.JString? && m.value != JString(Placeholder)
    ensures Entry(m, v, ctx, acc) ==
      acc.(subject := NamedNode(m.value.s), fields := acc.fields + [Field(m.key, NativeValue(m.value))])
  {
  }

  /** An object of one entry (not `@context`) is that entry read from the start. */
  lemma {:induction false} SingleEntry(m: Member, v: Var, ctx: Context)
    requires m.key != "@context"
    ensures var a := Entry(m, v, ctx, StartOf(v));
      NodeObject(JObject([m]), v, ctx) == Parsed(Variable(v), Object(a.fields), a.operation, a.projections, a.warnings)
  {
    assert Find(JObject([m]), "@context") == None;
    Units([m]);
    EntriesCons(m, [], v, ctx, StartOf(v));
  }

  /** An object of two entries (neither `@context`) is those entries read in order. */
  lemma {:induction false} TwoEntries(m: Member, n: Member, v: Var, ctx: Context)
    requires m.key != "@context" && n.key != "@context"
    ensures var a := Entry(n, v, ctx, Entry(m, v, ctx, StartOf(v)));
      NodeObject(JObject([m, n]), v, ctx) == Parsed(Variable(v), Object(a.fields), a.operation, a.projections, a.warnings)
  {
    assert !HasKey(JObject([m, n]), "@context");
    Two(m, n);
    Units([n]);
    EntriesCons(m, [n], v, ctx, StartOf(v));
    EntriesCons(n, [], v, ctx, Entry(m, v, ctx, StartOf(v)));
  }

  /** An entry keyed by an IRI: the intermediate result keeps the key as
      written; the operation is the triple pattern from the node's variable
      along the IRI to the value's term, joined with the value's operation;
      the projections are the value's and its warnings are nested under the key. */
  lemma {:induction false} IriEntry(k: string, x: Json, v: Var, ctx: Context, iri: string)
    requires k != "@context" && Expand(ctx, k) == IriKey(iri) && !x.JArray?
    ensures var child := IriEntryValue(x, VariableUnder(v, iri), ctx);
      NodeObject(JObject([Member(k, x)]), v, ctx) ==
        Parsed(Variable(v), Object([Field(k, child.ir)]),
               MkJoin([Bgp([Pattern(Variable(v), NamedNode(iri), child.term)]), child.operation]),
               child.projections, NestWarningsUnderKey(k, child.warnings))
  {
    SingleEntry(Member(k, x), v, ctx);
    var child := IriEntryValue(x, VariableUnder(v, iri), ctx);
    assert Entry(Member(k, x), v, ctx, StartOf(v)) ==
      Acc(Variable(v), [Field(k, child.ir)], MkJoin([EmptyJoin, Link(Variable(v), iri, child)]),
          [] + child.projections, NestWarningsUnderKey(k, child.warnings) + []);
    MkJoinEmptyLeft(Link(Variable(v), iri, child));
    Units(child.projections);
    Units([Field(k, child.ir)]);
    Units(NestWarningsUnderKey(k, child.warnings));
  }

  /** A key the context defines as a term: the intermediate result keeps the
      short key, while the triple pattern uses the IRI the term stands for. */
  lemma {:induction false} TermEntry(t: string, x: Json, v: Var, ctx: Context)
    requires !IsKeyword(t) && t in ctx.terms && t !in ctx.idAliases && !x.JArray?
    ensures var iri := ctx.terms[t];
      var child := IriEntryValue(x, VariableUnder(v, iri), ctx);
      NodeObject(JObject([Member(t, x)]), v, ctx) ==
        Parsed(Variable(v), Object([Field(t, child.ir)]),
               MkJoin([Bgp([Pattern(Variable(v), NamedNode(iri), child.term)]), child.operation]),
               child.projections, NestWarningsUnderKey(t, child.warnings))
  {
    assert IsKeyword("@context");
    IriEntry(t, x, v, ctx, ctx.terms[t]);
  }

  /** The value of a container-declared entry is parsed as the object
      `{"@graph" | "@list" | "@set": value}`. */
  lemma {:induction false} ContainerAsWrapped(c: Container, x: Json, v: Var, ctx: Context)
    ensures ContainerValue(c, x, v, ctx) == IriEntryValue(JObject([Member(ContainerKeyword(c), x)]), v, ctx)
  {
    var o := JObject([Member(ContainerKeyword(c), x)]);
    assert o.entries[0].key == ContainerKeyword(c);
    assert HasKey(o, ContainerKeyword(c));
    assert Lookup(o, ContainerKeyword(c)) == x;
    match c
    case GraphContainer =>
    case ListContainer =>
      assert !HasKey(o, "@graph") && !HasKey(o, "@value");
    case SetContainer =>
      assert !HasKey(o, "@graph") && !HasKey(o, "@value") && !HasKey(o, "@list");
  }

  /** An array value under a term that declares a container: the value is
      parsed as the wrapped object, and the entry's pattern is optional. */
  lemma {:induction false} ContainerEntry(k: string, items: seq<Json>, v: Var, ctx: Context, iri: string, c: Container)
    requires k != "@context" && Expand(ctx, k) == IriKey(iri) && ContainerOf(ctx, k) == Some(c)
    ensures var child := IriEntryValue(JObject([Member(ContainerKeyword(c), JArray(items))]), VariableUnder(v, iri), ctx);
      NodeObject(JObject([Member(k, JArray(items))]), v, ctx) ==
        Parsed(Variable(v), Object([Field(k, child.ir)]),
               LeftJoin(EmptyJoin, MkJoin([Bgp([Pattern(Variable(v), NamedNode(iri), child.term)]), child.operation])),
               child.projections, NestWarningsUnderKey(k, child.warnings))
  {
    SingleEntry(Member(k, JArray(items)), v, ctx);
    ContainerAsWrapped(c, JArray(items), VariableUnder(v, iri), ctx);
    var child := ContainerValue(c, JArray(items), VariableUnder(v, iri), ctx);
    assert Entry(Member(k, JArray(items)), v, ctx, StartOf(v)) ==
      Acc(Variable(v), [Field(k, child.ir)], LeftJoin(EmptyJoin, Link(Variable(v), iri, child)),
          [] + child.projections, NestWarningsUnderKey(k, child.warnings) + []);
    Units(child.projections);
    Units([Field(k, child.ir)]);
    Units(NestWarningsUnderKey(k, child.warnings));
  }

  /** An array value under a term without a container: a node object array
      bound to the entry's variable, and an optional pattern. */
  lemma {:induction false} ArrayEntry(k: string, items: seq<Json>, v: Var, ctx: Context, iri: string)
    requires k != "@context" && Expand(ctx, k) == IriKey(iri) && ContainerOf(ctx, k) == None
    ensures var child := NodeObjectArray(items, VariableUnder(v, iri), ctx);
      NodeObject(JObject([Member(k, JArray(items))]), v, ctx) ==
        Parsed(Variable(v), Object([Field(k, child.ir)]),
               LeftJoin(EmptyJoin, MkJoin([Bgp([Pattern(Variable(v), NamedNode(iri), child.term)]), child.operation])),
               child.projections, NestWarningsUnderKey(k, child.warnings))
  {
    SingleEntry(Member(k, JArray(items)), v, ctx);
    var child := NodeObjectArray(items, VariableUnder(v, iri), ctx);
    StepIriArray(Member(k, JArray(items)), v, ctx, StartOf(v), iri);
    Units(child.projections);
    Units([Field(k, child.ir)]);
    Units(NestWarningsUnderKey(k, child.warnings));
  }

  /** A concrete `@id` makes the named node the subject of the entries after
      it; the `@id` is kept as a literal, the term stays the node's variable
      and nothing is projected for it. */
  lemma {:induction false} IdValueEntry(idKey: string, id: string, k: string, x: Json, v: Var, ctx: Context, iri: string)
    requires idKey != "@context" && Expand(ctx, idKey) == IdKey && id != Placeholder
    requires k != "@context" && Expand(ctx, k) == IriKey(iri) && !x.JArray?
    ensures var child := IriEntryValue(x, VariableUnder(v, iri), ctx);
      NodeObject(JObject([Member(idKey, JString(id)), Member(k, x)]), v, ctx) ==
        Parsed(Variable(v), Object([Field(idKey, NativeValue(JString(id))), Field(k, child.ir)]),
               MkJoin([Bgp([Pattern(NamedNode(id), NamedNode(iri), child.term)]), child.operation]),
               child.projections, NestWarningsUnderKey(k, child.warnings))
  {
    TwoEntries(Member(idKey, JString(id)), Member(k, x), v, ctx);
    var child := IriEntryValue(x, VariableUnder(v, iri), ctx);
    var a := Entry(Member(idKey, JString(id)), v, ctx, StartOf(v));
    assert a == Acc(NamedNode(id), [Field(idKey, NativeValue(JString(id)))], EmptyJoin, [], []);
    assert Entry(Member(k, x), v, ctx, a) ==
      Acc(NamedNode(id), a.fields + [Field(k, child.ir)], MkJoin([EmptyJoin, Link(NamedNode(id), iri, child)]),
          [] + child.projections, NestWarningsUnderKey(k, child.warnings) + []);
    MkJoinEmptyLeft(Link(NamedNode(id), iri, child));
    Units(child.projections);
    assert a.fields + [Field(k, child.ir)] == [Field(idKey, NativeValue(JString(id))), Field(k, child.ir)];
    Units(NestWarningsUnderKey(k, child.warnings));
  }

  /** `"@id": "?"` keeps the node's variable as the subject, marks where its
      name goes, and projects the variable before the entries after it. */
  lemma {:induction false} IdPlaceholderEntry(idKey: string, k: string, x: Json, v: Var, ctx: Context, iri: string)
    requires idKey != "@context" && Expand(ctx, idKey) == IdKey
    requires k != "@context" && Expand(ctx, k) == IriKey(iri) && !x.JArray?
    ensures var child := IriEntryValue(x, VariableUnder(v, iri), ctx);
      NodeObject(JObject([Member(idKey, JString(Placeholder)), Member(k, x)]), v, ctx) ==
        Parsed(Variable(v), Object([Field(idKey, NamePlaceholder(v)), Field(k, child.ir)]),
               MkJoin([Bgp([Pattern(Variable(v), NamedNode(iri), child.term)]), child.operation]),
               [v] + child.projections, NestWarningsUnderKey(k, child.warnings))
  {
    TwoEntries(Member(idKey, JString(Placeholder)), Member(k, x), v, ctx);
    var child := IriEntryValue(x, VariableUnder(v, iri), ctx);
    var a := Entry(Member(idKey, JString(Placeholder)), v, ctx, StartOf(v));
    assert a == Acc(Variable(v), [Field(idKey, NamePlaceholder(v))], EmptyJoin, [] + [v], []);
    assert Entry(Member(k, x), v, ctx, a) ==
      Acc(Variable(v), a.fields + [Field(k, child.ir)], MkJoin([EmptyJoin, Link(Variable(v), iri, child)]),
          [v] + child.projections, NestWarningsUnderKey(k, child.warnings) + []);
    MkJoinEmptyLeft(Link(Variable(v), iri, child));
    Units([v]);
    assert a.fields + [Field(k, child.ir)] == [Field(idKey, NamePlaceholder(v)), Field(k, child.ir)];
    Units(NestWarningsUnderKey(k, child.warnings));
  }

  /** A key the context does not define: its value is kept verbatim, it adds
      no pattern and no projection, and one warning points at the key. */
  lemma {:induction false} UndefinedEntry(k: string, x: Json, v: Var, ctx: Context)
    requires k != "@context" && Expand(ctx, k).Undefined? && !x.JArray?
    ensures NodeObject(JObject([Member(k, x)]), v, ctx) ==
      Parsed(Variable(v), Object([Field(k, NativeValue(x))]), EmptyJoin, [], [Warning(KeyNotDefinedMessage, [Key(k)])])
  {
    SingleEntry(Member(k, x), v, ctx);
    assert Entry(Member(k, x), v, ctx, StartOf(v)) ==
      Acc(Variable(v), [Field(k, NativeValue(x))], EmptyJoin, [], [Warning(KeyNotDefinedMessage, [Key(k)])]);
    Units([Field(k, NativeValue(x))]);
    Units([Warning(KeyNotDefinedMessage, [Key(k)])]);
  }

  /** The `@context` entry's value is kept verbatim in the field list, which
      is the only thing it changes in the accumulator. */
  lemma {:induction false} EntryPrefixFields(m: Member, v: Var, ctx: Context, a: Acc, pre: seq<Field>)
    ensures var e := Entry(m, v, ctx, a);
      Entry(m, v, ctx, a.(fields := pre + a.fields)) == e.(fields := pre + e.fields)
  {
    var f := Entry(m, v, ctx, a).fields[|a.fields|];
    assert Entry(m, v, ctx, a).fields == a.fields + [f];
    assert (pre + a.fields) + [f] == pre + (a.fields + [f]);
  }

  /** Fields already in the accumulator are carried through, in front. */
  lemma {:induction false} EntriesPrefixFields(es: seq<Member>, v: Var, ctx: Context, a: Acc, pre: seq<Field>)
    ensures var r := Entries(es, v, ctx, a);
      Entries(es, v, ctx, a.(fields := pre + a.fields)) == r.(fields := pre + r.fields)
  {
    if es != [] {
      EntryPrefixFields(es[0], v, ctx, a, pre);
      EntriesPrefixFields(es[1..], v, ctx, Entry(es[0], v, ctx, a), pre);
    }
  }

  /** A leading `@context` entry is kept verbatim as the first field, and
      the entries after it are read under the context it defines. */
  lemma {:induction false} LeadingContext(d: Json, es: seq<Member>, v: Var, ctx: Context)
    requires NoContextKey(es)
    ensures var r := NodeObject(JObject(es), v, Propagate(Some(d), ctx));
      NodeObject(JObject([Member("@context", d)] + es), v, ctx) ==
        r.(ir := Object([Field("@context", NativeValue(d))] + r.ir.fields))
  {
    var m := Member("@context", d);
    var x := JObject([m] + es);
    assert x.entries[0] == m;
    assert Find(x, "@context") == Some(d);
    assert Find(JObject(es), "@context") == None;
    var inner := Propagate(Some(d), ctx);
    EntriesCons(m, es, v, inner, StartOf(v));
    var pre := [Field("@context", NativeValue(d))];
    assert Entry(m, v, inner, StartOf(v)) == StartOf(v).(fields := pre + StartOf(v).fields);
    EntriesPrefixFields(es, v, inner, StartOf(v), pre);
  }

  /** An object holding only `@context`: the context kept verbatim, no
      pattern, no projection, no warning. */
  lemma {:induction false} ContextOnly(d: Json, v: Var, ctx: Context)
    ensures NodeObject(JObject([Member("@context", d)]), v, ctx) ==
      Parsed(Variable(v), Object([Field("@context", NativeValue(d))]), EmptyJoin, [], [])
  {
    LeadingContext(d, [], v, ctx);
    Units([Member("@context", d)]);
    Units([Field("@context", NativeValue(d))]);
  }

  /** Each entry adds one field, under the entry's own key, after the fields so far. */
  lemma {:induction false} EntryKeys(m: Member, v: Var, ctx: Context, acc: Acc)
    ensures FieldKeys(Entry(m, v, ctx, acc).fields) == FieldKeys(acc.fields) + [m.key]
  {
    if m.key != "@context" && Expand(ctx, m.key).IriKey? {
      var e := EntryForIri(m.key, m.value, v, ctx, acc, Expand(ctx, m.key).iri);
      assert FieldKeys(e.fields) == FieldKeys(acc.fields) + [m.key];
    }
  }

  lemma {:induction false} EntriesKeys(es: seq<Member>, v: Var, ctx: Context, acc: Acc)
    ensures FieldKeys(Entries(es, v, ctx, acc).fields) == FieldKeys(acc.fields) + Keys(es)
  {
    if es == [] {
      Units(FieldKeys(acc.fields));
    } else {
      var next := Entry(es[0], v, ctx, acc);
      EntryKeys(es[0], v, ctx, acc);
      EntriesKeys(es[1..], v, ctx, next);
      KeysAfter(FieldKeys(acc.fields), es);
    }
  }

  lemma {:induction false} KeysAfter(ks: seq<string>, es: seq<Member>)
    requires es != []
    ensures (ks + [es[0].key]) + Keys(es[1..]) == ks + Keys(es)
  {
    assert Keys(es) == [es[0].key] + Keys(es[1..]);
  }

  /** The intermediate result of a node object has one field per entry, with
      the entry's key, in the input's order. */
  lemma {:induction false} NodeObjectKeys(x: Json, v: Var, ctx: Context)
    requires x.JObject?
    ensures NodeObject(x, v, ctx).ir.Object?
    ensures FieldKeys(NodeObject(x, v, ctx).ir.fields) == Keys(x.entries)
  {
    EntriesKeys(x.entries, v, Propagate(Find(x, "@context"), ctx), StartOf(v));
    assert FieldKeys([]) == [];
    Units(Keys(x.entries));
  }

  /** Warnings, once issued, are kept. */
  lemma {:induction false} EntriesKeepWarnings(es: seq<Member>, v: Var, ctx: Context, acc: Acc, w: Warning)
    requires w in acc.warnings
    ensures w in Entries(es, v, ctx, acc).warnings
  {
    if es != [] {
      EntryKeepsWarnings(es[0], v, ctx, acc);
      EntriesKeepWarnings(es[1..], v, ctx, Entry(es[0], v, ctx, acc), w);
    }
  }

  /** An entry only ever adds warnings in front of those issued before it. */
  lemma {:induction false} EntryKeepsWarnings(m: Member, v: Var, ctx: Context, acc: Acc)
    ensures var e := Entry(m, v, ctx, acc);
      |acc.warnings| <= |e.warnings| && e.warnings[|e.warnings| - |acc.warnings|..] == acc.warnings
  {
  }

  lemma {:induction false} EntriesWarnUndefined(es: seq<Member>, v: Var, ctx: Context, acc: Acc, i: nat)
    requires i < |es| && es[i].key != "@context" && Expand(ctx, es[i].key).Undefined?
    ensures Warning(KeyNotDefinedMessage, [Key(es[i].key)]) in Entries(es, v, ctx, acc).warnings
  {
    var next := Entry(es[0], v, ctx, acc);
    if i == 0 {
      EntriesKeepWarnings(es[1..], v, ctx, next, Warning(KeyNotDefinedMessage, [Key(es[0].key)]));
    } else {
      assert es[1..][i - 1] == es[i];
      EntriesWarnUndefined(es[1..], v, ctx, next, i - 1);
    }
  }

  /** Every key the context in force does not define is reported, with the
      key as the warning's path. */
  lemma {:induction false} NodeObjectWarnsUndefined(x: Json, v: Var, ctx: Context, i: nat)
    requires x.JObject? && i < |x.entries|
    requires x.entries[i].key != "@context"
    requires Expand(Propagate(Find(x, "@context"), ctx), x.entries[i].key).Undefined?
    ensures Warning(KeyNotDefinedMessage, [Key(x.entries[i].key)]) in NodeObject(x, v, ctx).warnings
  {
    EntriesWarnUndefined(x.entries, v, Propagate(Find(x, "@context"), ctx), StartOf(v), i);
  }

  /** The value of every key the context in force does not define stays in
      the intermediate result verbatim, at the key's position. */
  lemma {:induction false} NodeObjectKeepsUndefined(x: Json, v: Var, ctx: Context, i: nat)
    requires x.JObject? && i < |x.entries|
    requires x.entries[i].key != "@context"
    requires Expand(Propagate(Find(x, "@context"), ctx), x.entries[i].key).Undefined?
    ensures NodeObject(x, v, ctx).ir.Object?
    ensures var fs := NodeObject(x, v, ctx).ir.fields;
      i < |fs| && fs[i] == Field(x.entries[i].key, NativeValue(x.entries[i].value))
  {
    EntriesKeepUndefined(x.entries, v, Propagate(Find(x, "@context"), ctx), StartOf(v), i);
  }

  lemma {:induction false} EntriesKeepUndefined(es: seq<Member>, v: Var, ctx: Context, acc: Acc, i: nat)
    requires i < |es| && es[i].key != "@context" && Expand(ctx, es[i].key).Undefined?
    ensures var r := Entries(es, v, ctx, acc);
      |acc.fields| + i < |r.fields| && r.fields[|acc.fields| + i] == Field(es[i].key, NativeValue(es[i].value))
  {
    var next := Entry(es[0], v, ctx, acc);
    EntryKeys(es[0], v, ctx, acc);
    assert |next.fields| == |acc.fields| + 1;
    if i == 0 {
      StepUndefined(es[0], v, ctx, acc);
      Units(next.fields);
      EntriesPrefixFields(es[1..], v, ctx, next.(fields := []), next.fields);
      assert next.(fields := next.fields + []) == next;
    } else {
      assert es[1..][i - 1] == es[i];
      EntriesKeepUndefined(es[1..], v, ctx, next, i - 1);
    }
  }

  /** A key the context does not define adds no triple pattern. */
  lemma {:induction false} UndefinedAddsNoPattern(m: Member, v: Var, ctx: Context, acc: Acc)
    requires m.key != "@context" && Expand(ctx, m.key).Undefined?
    ensures TriplePatterns(Entry(m, v, ctx, acc).operation) == TriplePatterns(acc.operation)
  {
    StepUndefined(m, v, ctx, acc);
    if m.value.JArray? {
      Units(TriplePatterns(acc.operation));
    }
  }

  /** Every warning of `ws` has a path starting at one of the keys `ks`. */
  predicate AtKeys(ws: seq<Warning>, ks: seq<string>) {
    forall w :: w in ws ==> w.path != [] && w.path[0].Key? && w.path[0].key in ks
  }

  /** Nesting warnings under a segment gives each a non-empty path. */
  lemma {:induction false} NestedPaths(seg: PathSegment, ws: seq<Warning>)
    ensures forall w :: w in NestUnder(seg, ws) ==> w.path != [] && w.path[0] == seg
  {
    forall w | w in NestUnder(seg, ws)
      ensures w.path != [] && w.path[0] == seg
    {
      var j :| 0 <= j < |ws| && NestUnder(seg, ws)[j] == w;
    }
  }

  /** The warnings of an IRI-keyed entry's value are placed under the entry's key. */
  lemma {:induction false} EntryWarnsAtKey(m: Member, v: Var, ctx: Context, acc: Acc, ks: seq<string>)
    requires AtKeys(acc.warnings, ks) && m.key in ks
    ensures AtKeys(Entry(m, v, ctx, acc).warnings, ks)
  {
    if m.key != "@context" && Expand(ctx, m.key).IriKey? {
      var iri := Expand(ctx, m.key).iri;
      var w := VariableUnder(v, iri);
      var c := ContainerOf(ctx, m.key);
      var child := if m.value.JArray? && c.Some? then ContainerValue(c.value, m.value, w, ctx) else IriEntryValue(m.value, w, ctx);
      assert Entry(m, v, ctx, acc).warnings == NestWarningsUnderKey(m.key, child.warnings) + acc.warnings;
      NestedPaths(Key(m.key), child.warnings);
    }
  }

  lemma {:induction false} EntriesWarnAtKeys(es: seq<Member>, v: Var, ctx: Context, acc: Acc, ks: seq<string>)
    requires AtKeys(acc.warnings, ks) && forall m :: m in es ==> m.key in ks
    ensures AtKeys(Entries(es, v, ctx, acc).warnings, ks)
  {
    if es != [] {
      EntryWarnsAtKey(es[0], v, ctx, acc, ks);
      EntriesWarnAtKeys(es[1..], v, ctx, Entry(es[0], v, ctx, acc), ks);
    }
  }

  /** Every warning of a node object is about one of its entries: its path
      starts at that entry's key. */
  lemma {:induction false} NodeObjectWarningsAtKeys(x: Json, v: Var, ctx: Context)
    requires x.JObject?
    ensures AtKeys(NodeObject(x, v, ctx).warnings, Keys(x.entries))
  {
    forall m | m in x.entries
      ensures m.key in Keys(x.entries)
    {
      var i :| 0 <= i < |x.entries| && x.entries[i] == m;
      assert Keys(x.entries)[i] == m.key;
    }
    EntriesWarnAtKeys(x.entries, v, Propagate(Find(x, "@context"), ctx), StartOf(v), Keys(x.entries));
  }

  lemma MessagesDiffer()
    ensures KeyNotDefinedMessage != NullNotSupportedMessage && KeyNotDefinedMessage != SetNotSupportedMessage
  {
    assert KeyNotDefinedMessage[0] == 'K';
    assert NullNotSupportedMessage[0] == 'n';
    assert SetNotSupportedMessage[0] == 'S';
  }

  /** A "Key not defined" warning from an entry's value is never at the value
      itself: it comes from an entry of a node object below the value. */
  lemma {:induction false} ValueUndefinedWarningsBelow(x: Json, v: Var, ctx: Context)
    ensures forall w :: w in IriEntryValue(x, v, ctx).warnings && w.message == KeyNotDefinedMessage ==> w.path != []
  {
    MessagesDiffer();
    match x
    case JArray(items) =>
      NodeObjectArrayBelow(items, v, ctx);
    case JObject(_) =>
      if HasKey(x, "@graph") {
        assert IriEntryValue(x, v, ctx) == GraphObject(x, v, ctx) == Wrapped("@graph", Lookup(x, "@graph"), v, ctx);
        NodeObjectArrayOfBelow(Lookup(x, "@graph"), v, ctx);
      } else if HasKey(x, "@value") {
      } else if HasKey(x, "@list") {
        assert IriEntryValue(x, v, ctx) == ListObject(x, v, ctx) == Wrapped("@list", Lookup(x, "@list"), v, ctx);
        NodeObjectArrayOfBelow(Lookup(x, "@list"), v, ctx);
      } else if HasKey(x, "@set") {
      } else {
        NodeObjectWarningsAtKeys(x, v, ctx);
      }
    case _ =>
  }

  /** The same for a value held in a declared container. */
  lemma {:induction false} ContainerUndefinedWarningsBelow(c: Container, x: Json, v: Var, ctx: Context)
    ensures forall w :: w in ContainerValue(c, x, v, ctx).warnings && w.message == KeyNotDefinedMessage ==> w.path != []
  {
    MessagesDiffer();
    if !c.SetContainer? {
      NodeObjectArrayOfBelow(x, v, ctx);
    }
  }

  lemma {:induction false} NodeObjectArrayBelow(items: seq<Json>, v: Var, ctx: Context)
    ensures forall w :: w in NodeObjectArray(items, v, ctx).warnings ==> w.path != []
  {
    var t :=
      if |items| > 0 && items[0].JObject? then NodeObject(items[0], v, ctx)
      else Plain(Variable(v), Object([]));
    NestedPaths(Index(0), t.warnings);
  }

  lemma {:induction false} NodeObjectArrayOfBelow(x: Json, v: Var, ctx: Context)
    ensures forall w :: w in NodeObjectArrayOf(x, v, ctx).warnings ==> w.path != []
  {
    if x.JArray? {
      NodeObjectArrayBelow(x.items, v, ctx);
    } else {
      NodeObjectArrayBelow([x], v, ctx);
    }
  }

  /** An entry issues a "Key not defined" warning at `[k]` only when it is
      keyed `k` and the context does not define `k`. */
  lemma {:induction false} EntryWarnsOnlyUndefined(m: Member, v: Var, ctx: Context, acc: Acc, k: string)
    ensures var u := Warning(KeyNotDefinedMessage, [Key(k)]);
      u in Entry(m, v, ctx, acc).warnings ==>
        u in acc.warnings || (m.key == k && k != "@context" && Expand(ctx, k).Undefined?)
  {
    var u := Warning(KeyNotDefinedMessage, [Key(k)]);
    if m.key != "@context" && Expand(ctx, m.key).IriKey? {
      var iri := Expand(ctx, m.key).iri;
      var w := VariableUnder(v, iri);
      var c := ContainerOf(ctx, m.key);
      var child := if m.value.JArray? && c.Some? then ContainerValue(c.value, m.value, w, ctx) else IriEntryValue(m.value, w, ctx);
      var nested := NestWarningsUnderKey(m.key, child.warnings);
      assert Entry(m, v, ctx, acc).warnings == nested + acc.warnings;
      if m.value.JArray? && c.Some? {
        ContainerUndefinedWarningsBelow(c.value, m.value, w, ctx);
      } else {
        ValueUndefinedWarningsBelow(m.value, w, ctx);
      }
      forall j | 0 <= j < |nested|
        ensures nested[j] != u
      {
        assert child.warnings[j] in child.warnings;
      }
    }
  }

  lemma {:induction false} EntriesWarnOnlyUndefined(es: seq<Member>, v: Var, ctx: Context, acc: Acc, k: string)
    ensures var u := Warning(KeyNotDefinedMessage, [Key(k)]);
      u in Entries(es, v, ctx, acc).warnings ==>
        u in acc.warnings || exists i :: 0 <= i < |es| && es[i].key == k && k != "@context" && Expand(ctx, k).Undefined?
  {
    if es != [] {
      var next := Entry(es[0], v, ctx, acc);
      EntryWarnsOnlyUndefined(es[0], v, ctx, acc, k);
      EntriesWarnOnlyUndefined(es[1..], v, ctx, next, k);
      if exists i :: 0 <= i < |es[1..]| && es[1..][i].key == k && k != "@context" && Expand(ctx, k).Undefined? {
        var i :| 0 <= i < |es[1..]| && es[1..][i].key == k && k != "@context" && Expand(ctx, k).Undefined?;
        assert es[i + 1] == es[1..][i];
      }
    }
  }

  /** A node object warns "Key not defined" at `[k]` exactly when one of its
      entries is keyed `k` and the context in force does not define `k`. */
  lemma {:induction false} NodeObjectUndefinedWarningIff(x: Json, v: Var, ctx: Context, k: string)
    requires x.JObject?
    ensures Warning(KeyNotDefinedMessage, [Key(k)]) in NodeObject(x, v, ctx).warnings <==>
      exists i :: 0 <= i < |x.entries| && x.entries[i].key == k && k != "@context"
                  && Expand(Propagate(Find(x, "@context"), ctx), k).Undefined?
  {
    var inner := Propagate(Find(x, "@context"), ctx);
    EntriesWarnOnlyUndefined(x.entries, v, inner, StartOf(v), k);
    if exists i :: 0 <= i < |x.entries| && x.entries[i].key == k && k != "@context" && Expand(inner, k).Undefined? {
      var i :| 0 <= i < |x.entries| && x.entries[i].key == k && k != "@context" && Expand(inner, k).Undefined?;
      NodeObjectWarnsUndefined(x, v, ctx, i);
    }
  }
}
