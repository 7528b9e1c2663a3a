/**
 * The slice of an RDF graph store that the SHACL shapes reader relies on:
 * terms, triples, a graph as an ordered sequence of triples, and the three
 * queries `objects(s, p)`, `value(s, p)` (first object or nothing) and the
 * strict `value(s, p, any=False)` that raises when a subject has more than
 * one object for a predicate.  The vocabulary IRIs used by the reader are
 * declared here once.
 */
module Rdf {

  datatype Option<T> = None | Some(value: T)

  /** An RDF term. A plain literal has no datatype IRI (`datatypeIri == None`). */
  datatype Term =
    | IRI(iri: string)
    | BNode(id: string)
    | Literal(lexical: string, datatypeIri: Option<string>, language: Option<string>)

  datatype Triple = Triple(s: Term, p: Term, o: Term)

  /** Triples in the order the store yields them. */
  type Graph = seq<Triple>

  /** The objects of all triples `(s, p, _)`, in graph order, one per triple. */
  function Objects(g: Graph, s: Term, p: Term): seq<Term>
  {
    if g == [] then []
    else (if g[0].s == s && g[0].p == p then [g[0].o] else []) + Objects(g[1..], s, p)
  }

  /** The objects are exactly those of the graph's `(s, p, _)` triples. */
  lemma {:induction false} ObjectsMembership(g: Graph, s: Term, p: Term)
    ensures forall o :: o in Objects(g, s, p) <==> Triple(s, p, o) in g
  {
    if g != [] {
      ObjectsMembership(g[1..], s, p);
      assert g == [g[0]] + g[1..];
    }
  }

  /**
   * The subjects of all triples `(_, p, o)`, in graph order, one per triple;
   * `o == None` is the wildcard of `subjects(p, None)`.
   */
  function Subjects(g: Graph, p: Term, o: Option<Term>): (r: seq<Term>)
    ensures forall s :: s in r <==> exists t :: t in g && t.s == s && t.p == p && (o.None? || t.o == o.value)
  {
    if g == [] then []
    else
      assert g == [g[0]] + g[1..];
      (if g[0].p == p && (o.None? || g[0].o == o.value) then [g[0].s] else []) + Subjects(g[1..], p, o)
  }

  /** `value(s, p)`: the first object of `(s, p, _)`, or nothing. */
  function Value(g: Graph, s: Term, p: Term): (r: Option<Term>)
    ensures r.None? <==> Objects(g, s, p) == []
    ensures r.Some? ==> r.value == Objects(g, s, p)[0]
  {
    var os := Objects(g, s, p);
    if os == [] then None else Some(os[0])
  }

  /** The strict `value(s, p, any=False)` raises a uniqueness error exactly here. */
  predicate Ambiguous(g: Graph, s: Term, p: Term) {
    |Objects(g, s, p)| >= 2
  }

  /** `value(predicate=p, object=o)`: the first subject of `(_, p, o)`, or nothing. */
  function SubjectValue(g: Graph, p: Term, o: Term): (r: Option<Term>)
    ensures r.None? <==> forall s :: Triple(s, p, o) !in g
    ensures r.Some? ==> Triple(r.value, p, o) in g
  {
    if g == [] then None
    else if g[0].p == p && g[0].o == o then Some(g[0].s)
    else
      var r := SubjectValue(g[1..], p, o);
      assert forall s :: Triple(s, p, o) in g <==> Triple(s, p, o) in g[1..] by {
        assert g == [g[0]] + g[1..];
      }
      r
  }

  /** Python's `str()` of a term: the IRI, the blank node label or the lexical form. */
  function Str(t: Term): string {
    match t
    case IRI(i) => i
    case BNode(b) => b
    case Literal(lex, _, _) => lex
  }

  /** Python's `str()` of a query result that may be `None`. */
  function PyStr(t: Option<Term>): string {
    match t
    case None => "None"
    case Some(x) => Str(x)
  }

  /** rdflib term equality `t == BNode(t)` holds exactly for blank nodes. */
  predicate IsBlank(t: Term) {
    t.BNode?
  }

  // RDF vocabulary

  const RdfFirst: Term := IRI("http://www.w3.org/1999/02/22-rdf-syntax-ns#first")
  const RdfRest: Term := IRI("http://www.w3.org/1999/02/22-rdf-syntax-ns#rest")
  const RdfNil: Term := IRI("http://www.w3.org/1999/02/22-rdf-syntax-ns#nil")
  const RdfType: Term := IRI("http://www.w3.org/1999/02/22-rdf-syntax-ns#type")

  const XsdString: string := "http://www.w3.org/2001/XMLSchema#string"
  const XsdInteger: string := "http://www.w3.org/2001/XMLSchema#integer"
  const XsdBoolean: string := "http://www.w3.org/2001/XMLSchema#boolean"

  // SHACL vocabulary (W3C SHACL, namespace http://www.w3.org/ns/shacl#)

  const ShNodeShape: Term := IRI("http://www.w3.org/ns/shacl#NodeShape")
  const ShPropertyGroup: Term := IRI("http://www.w3.org/ns/shacl#PropertyGroup")
  const ShPath: Term := IRI("http://www.w3.org/ns/shacl#path")
  const ShProperty: Term := IRI("http://www.w3.org/ns/shacl#property")
  const ShNode: Term := IRI("http://www.w3.org/ns/shacl#node")
  const ShNot: Term := IRI("http://www.w3.org/ns/shacl#not")
  const ShTargetClass: Term := IRI("http://www.w3.org/ns/shacl#targetClass")
  const ShTargetNode: Term := IRI("http://www.w3.org/ns/shacl#targetNode")
  const ShTargetObjectsOf: Term := IRI("http://www.w3.org/ns/shacl#targetObjectsOf")
  const ShTargetSubjectsOf: Term := IRI("http://www.w3.org/ns/shacl#targetSubjectsOf")
  const ShIgnoredProperties: Term := IRI("http://www.w3.org/ns/shacl#ignoredProperties")
  const ShMessage: Term := IRI("http://www.w3.org/ns/shacl#message")
  const ShNodeKind: Term := IRI("http://www.w3.org/ns/shacl#nodeKind")
  /** Not a SHACL term: the lower-case spelling the max-count table queries. */
  const ShNodekindLowercase: Term := IRI("http://www.w3.org/ns/shacl#nodekind")
  const ShClosed: Term := IRI("http://www.w3.org/ns/shacl#closed")
  const ShClass: Term := IRI("http://www.w3.org/ns/shacl#class")
  const ShName: Term := IRI("http://www.w3.org/ns/shacl#name")
  const ShDescription: Term := IRI("http://www.w3.org/ns/shacl#description")
  const ShDatatype: Term := IRI("http://www.w3.org/ns/shacl#datatype")
  const ShMinCount: Term := IRI("http://www.w3.org/ns/shacl#minCount")
  const ShMaxCount: Term := IRI("http://www.w3.org/ns/shacl#maxCount")
  const ShMinExclusive: Term := IRI("http://www.w3.org/ns/shacl#minExclusive")
  const ShMinInclusive: Term := IRI("http://www.w3.org/ns/shacl#minInclusive")
  const ShMaxExclusive: Term := IRI("http://www.w3.org/ns/shacl#maxExclusive")
  const ShMaxInclusive: Term := IRI("http://www.w3.org/ns/shacl#maxInclusive")
  const ShMinLength: Term := IRI("http://www.w3.org/ns/shacl#minLength")
  const ShMaxLength: Term := IRI("http://www.w3.org/ns/shacl#maxLength")
  const ShPattern: Term := IRI("http://www.w3.org/ns/shacl#pattern")
  const ShFlags: Term := IRI("http://www.w3.org/ns/shacl#flags")
  const ShLanguageIn: Term := IRI("http://www.w3.org/ns/shacl#languageIn")
  const ShUniqueLang: Term := IRI("http://www.w3.org/ns/shacl#uniqueLang")
  const ShEquals: Term := IRI("http://www.w3.org/ns/shacl#equals")
  const ShDisjoint: Term := IRI("http://www.w3.org/ns/shacl#disjoint")
  const ShLessThan: Term := IRI("http://www.w3.org/ns/shacl#lessThan")
  const ShLessThanOrEquals: Term := IRI("http://www.w3.org/ns/shacl#lessThanOrEquals")
  const ShHasValue: Term := IRI("http://www.w3.org/ns/shacl#hasValue")
  const ShIn: Term := IRI("http://www.w3.org/ns/shacl#in")
  const ShOrder: Term := IRI("http://www.w3.org/ns/shacl#order")
  const ShQualifiedValueShape: Term := IRI("http://www.w3.org/ns/shacl#qualifiedValueShape")
  const ShQualifiedValueShapesDisjoint: Term := IRI("http://www.w3.org/ns/shacl#qualifiedValueShapesDisjoint")
  const ShQualifiedMinCount: Term := IRI("http://www.w3.org/ns/shacl#qualifiedMinCount")
  const ShQualifiedMaxCount: Term := IRI("http://www.w3.org/ns/shacl#qualifiedMaxCount")
  const ShGroup: Term := IRI("http://www.w3.org/ns/shacl#group")
  const ShAlternativePath: Term := IRI("http://www.w3.org/ns/shacl#alternativePath")
  const ShInversePath: Term := IRI("http://www.w3.org/ns/shacl#inversePath")
  const ShZeroOrMorePath: Term := IRI("http://www.w3.org/ns/shacl#zeroOrMorePath")
  const ShOneOrMorePath: Term := IRI("http://www.w3.org/ns/shacl#oneOrMorePath")
  const ShZeroOrOnePath: Term := IRI("http://www.w3.org/ns/shacl#zeroOrOnePath")
  const ShBlankNode: Term := IRI("http://www.w3.org/ns/shacl#BlankNode")
  const ShIRI: Term := IRI("http://www.w3.org/ns/shacl#IRI")
  const ShLiteral: Term := IRI("http://www.w3.org/ns/shacl#Literal")
  const ShBlankNodeOrIRI: Term := IRI("http://www.w3.org/ns/shacl#BlankNodeOrIRI")
  const ShBlankNodeOrLiteral: Term := IRI("http://www.w3.org/ns/shacl#BlankNodeOrLiteral")
  const ShIRIOrLiteral: Term := IRI("http://www.w3.org/ns/shacl#IRIOrLiteral")

  // RDF collections (rdf:first / rdf:rest chains ending in rdf:nil)

  /**
   * Following `rdf:rest` from `node` reaches `rdf:nil` in fewer than `n`
   * steps, and every node on the way has an `rdf:rest`.
   */
  ghost predicate ListBounded(g: Graph, node: Term, n: nat)
    decreases n
  {
    n > 0 &&
    match Value(g, node, RdfRest)
    case None => false
    case Some(next) => next == RdfNil || ListBounded(g, next, n - 1)
  }

  /** The list nodes from `node` up to, and not including, `rdf:nil`. */
  function ListNodes(g: Graph, node: Term, ghost n: nat): (r: seq<Term>)
    requires ListBounded(g, node, n)
    ensures 1 <= |r| <= n && r[0] == node
    decreases n
  {
    var next := Value(g, node, RdfRest).value;
    if next == RdfNil then [node] else [node] + ListNodes(g, next, n - 1)
  }

  /**
   * The list nodes are the `rdf:rest` chain from `node`: each node's rest is
   * the next one and the last one's rest is `rdf:nil`.
   */
  lemma {:induction false} ListNodesFollowRest(g: Graph, node: Term, n: nat)
    requires ListBounded(g, node, n)
    ensures var r := ListNodes(g, node, n);
      (forall i :: 0 <= i < |r| - 1 ==> Value(g, r[i], RdfRest) == Some(r[i + 1])) &&
      Value(g, r[|r| - 1], RdfRest) == Some(RdfNil)
    decreases n
  {
    var next := Value(g, node, RdfRest).value;
    if next != RdfNil {
      var rest := ListNodes(g, next, n - 1);
      var r := ListNodes(g, node, n);
      ListNodesFollowRest(g, next, n - 1);
      assert r == [node] + rest;
      assert forall i :: 0 < i < |r| ==> r[i] == rest[i - 1];
      assert r[1] == next;
    }
  }
}
