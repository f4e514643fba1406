/** RDF terms, triple patterns and the fragment of the SPARQL algebra the
    translator builds (section 18 of SPARQL 1.1 Query Language: BGP, Join,
    LeftJoin and Project). */
module Rdf {
  import opened Json

  /** A query variable, named without its leading `?`. */
  datatype Var = Var(name: string)

  /** A literal carries the JSON primitive it was written as; its datatype IRI
      (xsd:string, xsd:integer, ...) follows from that value. */
  datatype Term =
    | Variable(v: Var)
    | NamedNode(iri: string)
    | Literal(value: Json)

  datatype Pattern = Pattern(subject: Term, pred: Term, obj: Term)

  datatype Algebra =
    | Bgp(patterns: seq<Pattern>)
    | Join(inputs: seq<Algebra>)
    | LeftJoin(left: Algebra, right: Algebra)
    | Project(input: Algebra, variables: seq<Var>)

  /** The empty group pattern, the "no pattern" default of every production. */
  const EmptyJoin: Algebra := Join([])

  /** The inputs of a flattening join: a Join in the list is replaced by its own inputs. */
  function Flatten(xs: seq<Algebra>): (r: seq<Algebra>)
  {
    if xs == [] then []
    else (if xs[0].Join? then xs[0].inputs else [xs[0]]) + Flatten(xs[1..])
  }

  /** Join as the algebra factory builds it: nested joins are flattened into one. */
  function MkJoin(xs: seq<Algebra>): (r: Algebra)
    ensures r.Join?
  {
    Join(Flatten(xs))
  }

  /** Every Join node in `a` has no Join among its direct inputs. */
  predicate FlatJoins(a: Algebra)
  {
    match a
    case Bgp(_) => true
    case Join(xs) => forall i :: 0 <= i < |xs| ==> !xs[i].Join? && FlatJoins(xs[i])
    case LeftJoin(l, r) => FlatJoins(l) && FlatJoins(r)
    case Project(x, _) => FlatJoins(x)
  }

  /** The triple patterns of an algebra expression, left to right. */
  function TriplePatterns(a: Algebra): seq<Pattern>
  {
    match a
    case Bgp(ps) => ps
    case Join(xs) => TriplePatternsOfAll(xs)
    case LeftJoin(l, r) => TriplePatterns(l) + TriplePatterns(r)
    case Project(x, _) => TriplePatterns(x)
  }

  function TriplePatternsOfAll(xs: seq<Algebra>): seq<Pattern>
  {
    if xs == [] then [] else TriplePatterns(xs[0]) + TriplePatternsOfAll(xs[1..])
  }

  lemma {:induction false} TriplePatternsOfAllAppend(xs: seq<Algebra>, ys: seq<Algebra>)
    ensures TriplePatternsOfAll(xs + ys) == TriplePatternsOfAll(xs) + TriplePatternsOfAll(ys)
  {
    if xs == [] {
      assert xs + ys == ys;
    } else {
      assert (xs + ys)[1..] == xs[1..] + ys;
      TriplePatternsOfAllAppend(xs[1..], ys);
    }
  }

  /** Flattening keeps every triple pattern, in the same order. */
  lemma {:induction false} MkJoinKeepsPatterns(xs: seq<Algebra>)
    ensures TriplePatterns(MkJoin(xs)) == TriplePatternsOfAll(xs)
  {
    FlattenKeepsPatterns(xs);
  }

  lemma {:induction false} FlattenKeepsPatterns(xs: seq<Algebra>)
    ensures TriplePatternsOfAll(Flatten(xs)) == TriplePatternsOfAll(xs)
  {
    if xs != [] {
      var head := if xs[0].Join? then xs[0].inputs else [xs[0]];
      TriplePatternsOfAllAppend(head, Flatten(xs[1..]));
      FlattenKeepsPatterns(xs[1..]);
      if !xs[0].Join? {
        assert [xs[0]][1..] == [];
      }
    }
  }

  lemma {:induction false} FlattenFlat(xs: seq<Algebra>)
    requires forall i :: 0 <= i < |xs| ==> FlatJoins(xs[i])
    ensures forall i :: 0 <= i < |Flatten(xs)| ==> !Flatten(xs)[i].Join? && FlatJoins(Flatten(xs)[i])
  {
    if xs != [] {
      FlattenFlat(xs[1..]);
    }
  }

  /** A join of flat expressions is flat: MkJoin never leaves a Join directly inside a Join. */
  lemma MkJoinFlat(xs: seq<Algebra>)
    requires forall i :: 0 <= i < |xs| ==> FlatJoins(xs[i])
    ensures FlatJoins(MkJoin(xs))
  {
    FlattenFlat(xs);
  }

  /** The empty join is a unit of the flattening join on the left. */
  lemma {:induction false} MkJoinEmptyLeft(a: Algebra)
    requires a.Join?
    ensures MkJoin([EmptyJoin, a]) == a
  {
    assert Flatten([a]) == a.inputs + Flatten([]);
    assert [EmptyJoin, a][1..] == [a];
    assert Flatten([EmptyJoin, a]) == [] + Flatten([a]);
  }

  /** Joining two joins concatenates their inputs. */
  lemma {:induction false} MkJoinOfJoins(xs: seq<Algebra>, ys: seq<Algebra>)
    ensures MkJoin([Join(xs), Join(ys)]) == Join(xs + ys)
  {
    assert [Join(xs), Join(ys)][1..] == [Join(ys)];
    assert [Join(ys)][1..] == [];
    assert Flatten([Join(ys)]) == ys + [];
    assert ys + [] == ys;
  }

  /** A pattern joined with the empty join is the join of that pattern alone. */
  lemma {:induction false} MkJoinEmptyRight(b: Algebra)
    requires !b.Join?
    ensures MkJoin([b, EmptyJoin]) == Join([b])
  {
    assert [b, EmptyJoin][1..] == [EmptyJoin];
    assert [EmptyJoin][1..] == [];
    assert Flatten([EmptyJoin]) == [];
    assert [b] + [] == [b];
  }

  /** A pattern joined with a join is a join that starts with the pattern. */
  lemma {:induction false} MkJoinPatternJoin(b: Algebra, cs: seq<Algebra>)
    requires !b.Join?
    ensures MkJoin([b, Join(cs)]) == Join([b] + cs)
  {
    assert [b, Join(cs)][1..] == [Join(cs)];
    assert [Join(cs)][1..] == [];
    assert Flatten([Join(cs)]) == cs + [];
    assert cs + [] == cs;
  }
}
