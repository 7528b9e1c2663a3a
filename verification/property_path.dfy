/**
 * SHACL property paths (section 2.3.1 of W3C SHACL) as the reader resolves
 * them: an RDF list becomes a flat list, each of the five path combinators
 * becomes a one-key dictionary, an IRI leaf becomes its string, and any
 * other leaf becomes Python's `None`.
 */
module PropertyPath {
  import opened Rdf

  datatype Combinator = Alternative | Inverse | ZeroOrMore | OneOrMore | ZeroOrOne

  /** The SHACL predicate that introduces a combinator. */
  function CombinatorPredicate(c: Combinator): (p: Term)
    ensures p.IRI?
  {
    match c
    case Alternative => ShAlternativePath
    case Inverse => ShInversePath
    case ZeroOrMore => ShZeroOrMorePath
    case OneOrMore => ShOneOrMorePath
    case ZeroOrOne => ShZeroOrOnePath
  }

  /** Position of a combinator in the order the resolver tries them. */
  function Priority(c: Combinator): nat {
    match c
    case Alternative => 0
    case Inverse => 1
    case ZeroOrMore => 2
    case OneOrMore => 3
    case ZeroOrOne => 4
  }

  /** The Python value a path resolves to: a string, a list, a one-key dict or `None`. */
  datatype PathValue =
    | PStr(s: string)
    | PList(items: seq<PathValue>)
    | PDict(key: Combinator, inner: PathValue)
    | PNone

  /**
   * The first combinator present on `t`, tried in the order alternative,
   * inverse, zero-or-more, one-or-more, zero-or-one, with its object.
   */
  function FirstCombinator(g: Graph, t: Term): (r: Option<(Combinator, Term)>)
    ensures r.Some? ==> Value(g, t, CombinatorPredicate(r.value.0)) == Some(r.value.1)
  {
    match Value(g, t, ShAlternativePath)
    case Some(o) => Some((Alternative, o))
    case None =>
      match Value(g, t, ShInversePath)
      case Some(o) => Some((Inverse, o))
      case None =>
        match Value(g, t, ShZeroOrMorePath)
        case Some(o) => Some((ZeroOrMore, o))
        case None =>
          match Value(g, t, ShOneOrMorePath)
          case Some(o) => Some((OneOrMore, o))
          case None =>
            match Value(g, t, ShZeroOrOnePath)
            case Some(o) => Some((ZeroOrOne, o))
            case None => None
  }

  /**
   * `FirstCombinator` finds a combinator exactly when one is present, and the
   * one it finds is preceded, in the resolver's order, by none that is present.
   */
  lemma CombinatorPriority(g: Graph, t: Term)
    ensures FirstCombinator(g, t).None? <==> forall c: Combinator :: Value(g, t, CombinatorPredicate(c)).None?
    ensures FirstCombinator(g, t).Some? ==>
              forall c: Combinator :: Priority(c) < Priority(FirstCombinator(g, t).value.0) ==> Value(g, t, CombinatorPredicate(c)).None?
  {
    if FirstCombinator(g, t).None? {
      forall c: Combinator ensures Value(g, t, CombinatorPredicate(c)).None? {
        match c
        case Alternative =>
        case Inverse =>
        case ZeroOrMore =>
        case OneOrMore =>
        case ZeroOrOne =>
      }
    }
  }

  /**
   * The walk from `t` through `rdf:first`, `rdf:rest` and the combinators is
   * shorter than `n`.  The resolver has no cycle guard; this is what makes
   * it terminate.  A list node without `rdf:rest` ends the walk: the
   * resolver goes on with Python's `None`, on which rdflib's `value` finds
   * nothing, so `None` is a leaf.
   */
  ghost predicate PathBounded(g: Graph, t: Term, n: nat)
    decreases n
  {
    n > 0 &&
    match Value(g, t, RdfFirst)
    case Some(head) =>
      PathBounded(g, head, n - 1) &&
      (match Value(g, t, RdfRest)
       case None => true
       case Some(next) => next == RdfNil || PathBounded(g, next, n - 1))
    case None =>
      match FirstCombinator(g, t)
      case Some((_, inner)) => PathBounded(g, inner, n - 1)
      case None => true
  }

  /** `rdfList.append(first)` followed by `+= rest` when the rest is a list, else `append(rest)`. */
  function Cons(first: PathValue, rest: PathValue): PathValue {
    if rest.PList? then PList([first] + rest.items) else PList([first, rest])
  }

  /** A term with no `rdf:first` and no combinator: the end of a path part. */
  predicate IsLeaf(g: Graph, t: Term) {
    Value(g, t, RdfFirst).None? && FirstCombinator(g, t).None?
  }

  /** `ShapeParser.getPropertyPath`. */
  function GetPropertyPath(g: Graph, t: Term, ghost n: nat): (r: PathValue)
    requires PathBounded(g, t, n)
    ensures r.PList? <==> Value(g, t, RdfFirst).Some?
    ensures r.PList? ==> |r.items| >= 1
    ensures r.PDict? <==> Value(g, t, RdfFirst).None? && FirstCombinator(g, t).Some?
    ensures r.PDict? ==> r.key == FirstCombinator(g, t).value.0
    ensures r.PStr? <==> IsLeaf(g, t) && t.IRI?
    ensures r.PStr? ==> r.s == t.iri
    ensures r.PNone? <==> IsLeaf(g, t) && !t.IRI?
    decreases n
  {
    match Value(g, t, RdfFirst)
    case Some(head) =>
      var first := GetPropertyPath(g, head, n - 1);
      (match Value(g, t, RdfRest)
       case None => Cons(first, PNone)
       case Some(next) =>
         if next == RdfNil then PList([first])
         else Cons(first, GetPropertyPath(g, next, n - 1)))
    case None =>
      match FirstCombinator(g, t)
      case Some((c, inner)) => PDict(c, GetPropertyPath(g, inner, n - 1))
      case None => if t.IRI? then PStr(t.iri) else PNone
  }

  /**
   * A path list: a chain of list nodes from `node` to `rdf:nil`, each with an
   * `rdf:first` member that resolves within the bound.
   */
  ghost predicate PathList(g: Graph, node: Term, n: nat)
    decreases n
  {
    n > 0 && Value(g, node, RdfFirst).Some? && PathBounded(g, Value(g, node, RdfFirst).value, n - 1) &&
    match Value(g, node, RdfRest)
    case None => false
    case Some(next) => next == RdfNil || PathList(g, next, n - 1)
  }

  /** The members of a path list, in list order. */
  function Members(g: Graph, node: Term, ghost n: nat): (r: seq<Term>)
    requires PathList(g, node, n)
    ensures 1 <= |r| <= n
    ensures r[0] == Value(g, node, RdfFirst).value
    decreases n
  {
    var head := Value(g, node, RdfFirst).value;
    var next := Value(g, node, RdfRest).value;
    if next == RdfNil then [head] else [head] + Members(g, next, n - 1)
  }

  /** A path list is a resolvable path. */
  lemma {:induction false} PathListBounded(g: Graph, node: Term, n: nat)
    requires PathList(g, node, n)
    ensures PathBounded(g, node, n)
    decreases n
  {
    var next := Value(g, node, RdfRest).value;
    if next != RdfNil { PathListBounded(g, next, n - 1); }
  }

  /** A larger bound is also a bound. */
  lemma {:induction false} PathBoundedMonotone(g: Graph, t: Term, n: nat)
    requires PathBounded(g, t, n)
    ensures PathBounded(g, t, n + 1)
    decreases n
  {
    match Value(g, t, RdfFirst)
    case Some(head) =>
      PathBoundedMonotone(g, head, n - 1);
      match Value(g, t, RdfRest) {
        case None =>
        case Some(next) => if next != RdfNil { PathBoundedMonotone(g, next, n - 1); }
      }
    case None =>
      match FirstCombinator(g, t)
      case Some((_, inner)) => PathBoundedMonotone(g, inner, n - 1);
      case None =>
  }

  /** Every member of a path list resolves within the list's bound less one. */
  lemma {:induction false} MembersBounded(g: Graph, node: Term, n: nat)
    requires PathList(g, node, n)
    ensures AllBounded(g, Members(g, node, n), n - 1)
    decreases n
  {
    var head := Value(g, node, RdfFirst).value;
    var next := Value(g, node, RdfRest).value;
    var ms := Members(g, node, n);
    if next != RdfNil {
      var tail := Members(g, next, n - 1);
      MembersBounded(g, next, n - 1);
      assert ms == [head] + tail;
      forall i | 0 <= i < |ms| ensures PathBounded(g, ms[i], n - 1) {
        if i > 0 { PathBoundedMonotone(g, tail[i - 1], n - 2); }
      }
    }
  }

  ghost predicate AllBounded(g: Graph, ts: seq<Term>, n: nat) {
    forall i :: 0 <= i < |ts| ==> PathBounded(g, ts[i], n)
  }

  /** The resolution does not depend on which bound is used. */
  lemma {:induction false} GetPropertyPathBoundIrrelevant(g: Graph, t: Term, n: nat, m: nat)
    requires PathBounded(g, t, n) && PathBounded(g, t, m)
    ensures GetPropertyPath(g, t, n) == GetPropertyPath(g, t, m)
    decreases n
  {
    match Value(g, t, RdfFirst)
    case Some(head) =>
      GetPropertyPathBoundIrrelevant(g, head, n - 1, m - 1);
      match Value(g, t, RdfRest) {
        case None =>
        case Some(next) => if next != RdfNil { GetPropertyPathBoundIrrelevant(g, next, n - 1, m - 1); }
      }
    case None =>
      match FirstCombinator(g, t)
      case Some((_, inner)) => GetPropertyPathBoundIrrelevant(g, inner, n - 1, m - 1);
      case None =>
  }

  /** Resolve each member, keeping the order. */
  function ResolveAll(g: Graph, ts: seq<Term>, ghost n: nat): (r: seq<PathValue>)
    requires AllBounded(g, ts, n)
    ensures |r| == |ts|
    ensures forall i :: 0 <= i < |ts| ==> r[i] == GetPropertyPath(g, ts[i], n)
  {
    if ts == [] then [] else [GetPropertyPath(g, ts[0], n)] + ResolveAll(g, ts[1..], n)
  }

  /**
   * An RDF list of members ending in `rdf:nil` resolves to the flat list of
   * its resolved members, in list order.
   */
  lemma {:induction false} ListResolvesToMembers(g: Graph, node: Term, n: nat)
    requires PathList(g, node, n)
    ensures PathBounded(g, node, n) && AllBounded(g, Members(g, node, n), n - 1)
    ensures GetPropertyPath(g, node, n) == PList(ResolveAll(g, Members(g, node, n), n - 1))
    decreases n
  {
    PathListBounded(g, node, n);
    MembersBounded(g, node, n);
    var head := Value(g, node, RdfFirst).value;
    var next := Value(g, node, RdfRest).value;
    if next != RdfNil {
      var tail := Members(g, next, n - 1);
      ListResolvesToMembers(g, next, n - 1);
      ResolveAllRaise(g, tail, n - 2);
      ListStep(g, node, n);
      assert Members(g, node, n) == [head] + tail;
    }
  }

  /** One list node: its member's resolution is put in front of the rest's list. */
  lemma ListStep(g: Graph, node: Term, n: nat)
    requires PathBounded(g, node, n)
    requires Value(g, node, RdfFirst).Some? && Value(g, node, RdfRest).Some? && Value(g, node, RdfRest).value != RdfNil
    ensures GetPropertyPath(g, node, n) ==
            Cons(GetPropertyPath(g, Value(g, node, RdfFirst).value, n - 1), GetPropertyPath(g, Value(g, node, RdfRest).value, n - 1))
  {
  }

  /** Resolving a list of members under a larger bound changes nothing. */
  lemma ResolveAllRaise(g: Graph, ts: seq<Term>, n: nat)
    requires AllBounded(g, ts, n)
    ensures AllBounded(g, ts, n + 1)
    ensures ResolveAll(g, ts, n) == ResolveAll(g, ts, n + 1)
  {
    forall i | 0 <= i < |ts| ensures PathBounded(g, ts[i], n + 1) && GetPropertyPath(g, ts[i], n) == GetPropertyPath(g, ts[i], n + 1) {
      PathBoundedMonotone(g, ts[i], n);
      GetPropertyPathBoundIrrelevant(g, ts[i], n, n + 1);
    }
  }

  /** A one-member list resolves to a one-element list, never to its member alone. */
  lemma SingletonListNotCollapsed(g: Graph, node: Term, n: nat)
    requires PathBounded(g, node, n) && Value(g, node, RdfFirst).Some?
    requires Value(g, node, RdfRest) == Some(RdfNil)
    ensures GetPropertyPath(g, node, n) == PList([GetPropertyPath(g, Value(g, node, RdfFirst).value, n - 1)])
  {
  }

  /**
   * A list node without `rdf:rest`: the resolver resolves the rest from
   * `None`, which is a leaf that is not an IRI, so the list ends in `None`.
   */
  lemma MissingRestStep(g: Graph, node: Term, n: nat)
    requires PathBounded(g, node, n)
    requires Value(g, node, RdfFirst).Some? && Value(g, node, RdfRest).None?
    ensures GetPropertyPath(g, node, n) == PList([GetPropertyPath(g, Value(g, node, RdfFirst).value, n - 1), PNone])
  {
  }

  /** A combinator node: the one-key dictionary holds the resolution of the node it wraps. */
  lemma CombinatorStep(g: Graph, t: Term, n: nat, c: Combinator, inner: Term)
    requires PathBounded(g, t, n)
    requires Value(g, t, RdfFirst).None? && FirstCombinator(g, t) == Some((c, inner))
    ensures PathBounded(g, inner, n - 1)
    ensures GetPropertyPath(g, t, n) == PDict(c, GetPropertyPath(g, inner, n - 1))
  {
  }
}
