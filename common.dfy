/** What every production takes and returns, and the helpers they share:
    the placeholder marker, warnings and their paths, child variable names. */
module ParseCommon {
  import opened Json
  import opened Rdf
  import opened IntermediateResult

  /** The marker for a position whose value the query returns. */
  const Placeholder: string := "?"

  /** Separator between a parent variable's name and a child's local name. */
  const Separator: char := '·'

  /** One step of a path into the input document. */
  datatype PathSegment = Key(key: string) | Index(index: nat)

  datatype Warning = Warning(message: string, path: seq<PathSegment>)

  /** The result of a production. */
  datatype Parsed = Parsed(
    term: Term,
    ir: IR,
    operation: Algebra,
    projections: seq<Var>,
    warnings: seq<Warning>)

  /** A result with the defaults of `parsed`: no pattern, no projections, no warnings. */
  function Plain(term: Term, ir: IR): (r: Parsed)
    ensures r.term == term && r.ir == ir
    ensures r.operation == EmptyJoin && r.projections == [] && r.warnings == []
  {
    Parsed(term, ir, EmptyJoin, [], [])
  }

  /** A warning about the element itself (the empty path). */
  function ParseWarning(message: string): (w: Warning)
    ensures w.message == message && w.path == []
  {
    Warning(message, [])
  }

  /** Prefixes one path segment to every warning's path, keeping their order. */
  function NestUnder(seg: PathSegment, ws: seq<Warning>): (r: seq<Warning>)
    ensures |r| == |ws|
    ensures forall i :: 0 <= i < |ws| ==> r[i] == Warning(ws[i].message, [seg] + ws[i].path)
  {
    if ws == [] then [] else [Warning(ws[0].message, [seg] + ws[0].path)] + NestUnder(seg, ws[1..])
  }

  function NestWarningsUnderKey(key: string, ws: seq<Warning>): (r: seq<Warning>)
    ensures |r| == |ws|
    ensures forall i :: 0 <= i < |ws| ==> r[i] == Warning(ws[i].message, [Key(key)] + ws[i].path)
  {
    NestUnder(Key(key), ws)
  }

  predicate IsIriDelimiter(c: char) {
    c == '#' || c == '/'
  }

  /** The last segment of an IRI: what follows its last `#` or `/`. */
  function LocalName(iri: string): (r: string)
  {
    if iri == [] then []
    else if IsIriDelimiter(iri[|iri| - 1]) then []
    else LocalName(iri[..|iri| - 1]) + [iri[|iri| - 1]]
  }

  /** LocalName splits an IRI into a prefix that is empty or ends at a delimiter,
      followed by a suffix that holds no delimiter. */
  lemma {:induction false} LocalNameSplits(iri: string)
    ensures |LocalName(iri)| <= |iri|
    ensures iri == iri[..|iri| - |LocalName(iri)|] + LocalName(iri)
    ensures forall i :: 0 <= i < |LocalName(iri)| ==> !IsIriDelimiter(LocalName(iri)[i])
    ensures |LocalName(iri)| < |iri| ==> IsIriDelimiter(iri[|iri| - |LocalName(iri)| - 1])
  {
    if iri != [] && !IsIriDelimiter(iri[|iri| - 1]) {
      var init, last := iri[..|iri| - 1], iri[|iri| - 1];
      LocalNameSplits(init);
      var n := LocalName(init);
      assert LocalName(iri) == n + [last];
      assert iri == init + [last];
      assert iri[..|iri| - |n + [last]|] == init[..|init| - |n|];
    }
  }

  /** The local name of `prefix + [d] + name` is `name` when `d` delimits and `name` holds no delimiter. */
  lemma {:induction false} LocalNameAfter(prefix: string, d: char, name: string)
    requires IsIriDelimiter(d)
    requires forall i :: 0 <= i < |name| ==> !IsIriDelimiter(name[i])
    ensures LocalName(prefix + [d] + name) == name
  {
    var iri := prefix + [d] + name;
    if name == [] {
      assert iri[|iri| - 1] == d;
    } else {
      var init := name[..|name| - 1];
      assert iri[..|iri| - 1] == prefix + [d] + init;
      LocalNameAfter(prefix, d, init);
      assert name == init + [name[|name| - 1]];
    }
  }

  /** The variable for the value of the entry `iri` of the node bound to
      `parent`: named after the IRI's local name, or after the whole IRI when
      it ends at a delimiter. */
  function VariableUnder(parent: Var, iri: string): (v: Var)
    ensures |v.name| > |parent.name|
    ensures v.name[..|parent.name|] == parent.name && v.name[|parent.name|] == Separator
    ensures iri != [] ==> |v.name| > |parent.name| + 1
  {
    var name := LocalName(iri);
    Var(parent.name + [Separator] + (if name != [] then name else iri))
  }

  /** `v` is `parent` or a variable derived from it by VariableUnder, at any depth. */
  predicate ScopedUnder(v: Var, parent: Var) {
    parent.name <= v.name
  }
}
