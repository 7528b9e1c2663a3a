/**
 * `WellFormedShapeConstraintCheck`: checks one shape of a shapes graph
 * against syntax rules of W3C SHACL (node kinds, datatypes, SHACL lists,
 * single-valued predicates, `sh:nodeKind` values, property paths) and
 * collects every violation in an errors list.
 *
 * The functions below state, for each check, which errors it appends; the
 * class runs the checks step by step and appends to its `errors` field.
 */
module ConstraintCheck {
  import opened Rdf
  import opened Exceptions
  import opened NodeKinds
  import opened PropertyPath

  // ------------------------------------------------------ single-term checks

  /** `nodeKindConstraint(object, nodeKindType)`; `object` may be a missing value. */
  function NodeKindErrors(obj: Option<Term>, nk: NodeKindType): (r: seq<Exception>)
    ensures |r| <= 1
    ensures r == [] <==> obj.Some? && Admits(nk, obj.value)
    ensures r != [] ==> r[0] == Exception(NodeKindConstraintError, WrongType(obj))
  {
    var correctType :=
      (nk.isUri && obj.Some? && obj.value.IRI?) ||
      (nk.isBNode && obj.Some? && obj.value.BNode?) ||
      (nk.isLiteral && obj.Some? && obj.value.Literal?);
    if correctType then [] else [Exception(NodeKindConstraintError, WrongType(obj))]
  }

  /** The term is a literal whose datatype IRI is `dt` (a plain literal has none). */
  predicate HasDatatype(obj: Option<Term>, dt: string) {
    match obj
    case Some(Literal(_, d, _)) => d == Some(dt)
    case _ => false
  }

  /** `datatypeConstraint(object, datatype)`. */
  function DatatypeErrors(obj: Option<Term>, dt: string): (r: seq<Exception>)
    ensures |r| <= 1
    ensures r == [] <==> HasDatatype(obj, dt)
    ensures r != [] ==> r[0] == Exception(DataTypeConstraintError, WrongDatatype(obj))
  {
    if obj.Some? && obj.value.Literal? then
      if obj.value.datatypeIri != Some(dt) then [Exception(DataTypeConstraintError, WrongDatatype(obj))]
      else []
    else [Exception(DataTypeConstraintError, WrongDatatype(obj))]
  }

  /** Appending is associative; stated once so that proofs need not rediscover it. */
  lemma AppendAssoc(a: seq<Exception>, b: seq<Exception>, c: seq<Exception>)
    ensures a + b + c == a + (b + c)
  {
  }

  /** Every error in `errs` has one of the classes `cs`. */
  predicate ClassesIn(errs: seq<Exception>, cs: set<ErrorClass>) {
    forall i :: 0 <= i < |errs| ==> errs[i].cls in cs
  }

  lemma ClassesInAppend(a: seq<Exception>, b: seq<Exception>, cs: set<ErrorClass>)
    requires ClassesIn(a, cs) && ClassesIn(b, cs)
    ensures ClassesIn(a + b, cs)
  {
    forall i | 0 <= i < |a + b| ensures (a + b)[i].cls in cs {
      if i >= |a| {
        assert (a + b)[i] == b[i - |a|];
      }
    }
  }

  lemma ClassesInSubset(errs: seq<Exception>, cs: set<ErrorClass>, ds: set<ErrorClass>)
    requires ClassesIn(errs, cs) && cs <= ds
    ensures ClassesIn(errs, ds)
  {
  }

  /** No error in `errs` has class `c`. */
  lemma ClassesInExcludes(errs: seq<Exception>, cs: set<ErrorClass>, c: ErrorClass)
    requires ClassesIn(errs, cs) && c !in cs
    ensures forall e :: e in errs ==> e.cls != c
  {
  }

  // -------------------------------------------------------------- SHACL lists

  /** The objects of all triples of the graph. */
  function ObjectSet(g: Graph): set<Term> {
    if g == [] then {} else {g[0].o} + ObjectSet(g[1..])
  }

  /** What a list walk may reach from `head`: the head and every object in the graph. */
  function Reachable(g: Graph, head: Term): set<Term> {
    {head} + ObjectSet(g)
  }

  lemma {:induction false} ObjectsInObjectSet(g: Graph, s: Term, p: Term)
    ensures forall o :: o in Objects(g, s, p) ==> o in ObjectSet(g)
  {
    if g != [] {
      ObjectsInObjectSet(g[1..], s, p);
    }
  }

  lemma ValueReachable(g: Graph, head: Term, s: Term, p: Term)
    ensures Value(g, s, p).Some? ==> Value(g, s, p).value in Reachable(g, head)
  {
    ObjectsInObjectSet(g, s, p);
  }

  /** The terms of a sequence, as a set. */
  function Elems(s: seq<Term>): set<Term> {
    set v | v in s
  }

  /**
   * Where the walk of `shaclListConstraint` ends: the structural error that
   * stops it early, if any (the method then returns False), and the list
   * nodes it visited, each of which had its member checked.
   */
  datatype Walk = Walk(structural: Option<Exception>, walked: seq<Term>)

  /**
   * The walk from `uri`, with `walked` the nodes already visited.  It stops
   * at the first term that is neither an IRI nor a blank node, at the first
   * node seen twice, or after a node whose `rdf:rest` is `rdf:nil`.
   */
  function ListWalk(g: Graph, head: Term, uri: Option<Term>, walked: seq<Term>): Walk
    requires uri.Some? ==> uri.value in Reachable(g, head)
    requires Elems(walked) <= Reachable(g, head)
    decreases Reachable(g, head) - Elems(walked)
  {
    if uri.None? || uri.value.Literal? then
      Walk(Some(Exception(ShaclListConstraintError, WrongListType(uri))), walked)
    else if uri.value in walked then
      Walk(Some(Exception(ShaclListConstraintError, ListLoop(uri.value))), walked)
    else
      var u := uri.value;
      var next := Value(g, u, RdfRest);
      if next == Some(RdfNil) then Walk(None, walked + [u])
      else
        WalkStep(g, head, walked, u);
        ValueReachable(g, head, u, RdfRest);
        ListWalk(g, head, next, walked + [u])
  }

  /** Visiting a new reachable node shrinks what is left to visit. */
  lemma WalkStep(g: Graph, head: Term, walked: seq<Term>, u: Term)
    requires Elems(walked) <= Reachable(g, head) && u in Reachable(g, head) && u !in walked
    ensures Elems(walked + [u]) == Elems(walked) + {u} <= Reachable(g, head)
    ensures Reachable(g, head) - Elems(walked + [u]) < Reachable(g, head) - Elems(walked)
  {
    assert Elems(walked + [u]) == Elems(walked) + {u};
  }

  /** One step of the walk from a node that is neither a literal nor already visited. */
  lemma WalkNode(g: Graph, head: Term, u: Term, walked: seq<Term>)
    requires u in Reachable(g, head) && Elems(walked) <= Reachable(g, head)
    requires !u.Literal? && u !in walked
    ensures Elems(walked + [u]) <= Reachable(g, head)
    ensures Reachable(g, head) - Elems(walked + [u]) < Reachable(g, head) - Elems(walked)
    ensures Value(g, u, RdfRest).Some? ==> Value(g, u, RdfRest).value in Reachable(g, head)
    ensures ListWalk(g, head, Some(u), walked) ==
            if Value(g, u, RdfRest) == Some(RdfNil) then Walk(None, walked + [u])
            else ListWalk(g, head, Value(g, u, RdfRest), walked + [u])
  {
    WalkStep(g, head, walked, u);
    ValueReachable(g, head, u, RdfRest);
  }

  /** The walk of `shaclListConstraint(listUri, ...)`. */
  function ShaclListWalk(g: Graph, listUri: Term): Walk {
    ListWalk(g, listUri, Some(listUri), [])
  }

  /** The node-kind and datatype errors for one list node's `rdf:first` value. */
  function MemberErrors(g: Graph, u: Term, nk: Option<NodeKindType>, dt: Option<string>): seq<Exception> {
    (if nk.Some? then NodeKindErrors(Value(g, u, RdfFirst), nk.value) else []) +
    (if dt.Some? then DatatypeErrors(Value(g, u, RdfFirst), dt.value) else [])
  }

  /** The member errors of a sequence of list nodes, in list order. */
  function AllMemberErrors(g: Graph, nodes: seq<Term>, nk: Option<NodeKindType>, dt: Option<string>): seq<Exception> {
    if nodes == [] then []
    else AllMemberErrors(g, nodes[..|nodes| - 1], nk, dt) + MemberErrors(g, nodes[|nodes| - 1], nk, dt)
  }

  lemma MemberStep(g: Graph, nodes: seq<Term>, u: Term, nk: Option<NodeKindType>, dt: Option<string>)
    ensures AllMemberErrors(g, nodes + [u], nk, dt) == AllMemberErrors(g, nodes, nk, dt) + MemberErrors(g, u, nk, dt)
  {
    assert (nodes + [u])[..|nodes|] == nodes;
  }

  /**
   * `shaclListConstraint(listUri, nodeKindType, datatype)`: the member
   * errors of the visited nodes in order, then the structural error if any.
   */
  function ShaclListErrors(g: Graph, listUri: Term, nk: Option<NodeKindType>, dt: Option<string>): seq<Exception> {
    var w := ShaclListWalk(g, listUri);
    AllMemberErrors(g, w.walked, nk, dt) + (if w.structural.Some? then [w.structural.value] else [])
  }

  /** The classes a list check with these member checks may record. */
  function ListClasses(nk: Option<NodeKindType>, dt: Option<string>): set<ErrorClass> {
    {ShaclListConstraintError} +
    (if nk.Some? then {NodeKindConstraintError} else {}) +
    (if dt.Some? then {DataTypeConstraintError} else {})
  }

  /**
   * Each node yields at most one node-kind and one datatype error, only for
   * the checks requested; a list checked for neither yields none.
   */
  lemma {:induction false} AllMemberErrorsClasses(g: Graph, nodes: seq<Term>, nk: Option<NodeKindType>, dt: Option<string>)
    ensures ClassesIn(AllMemberErrors(g, nodes, nk, dt), ListClasses(nk, dt) - {ShaclListConstraintError})
    ensures |AllMemberErrors(g, nodes, nk, dt)| <= 2 * |nodes|
    ensures nk.None? && dt.None? ==> AllMemberErrors(g, nodes, nk, dt) == []
  {
    if nodes != [] {
      var front := nodes[..|nodes| - 1];
      AllMemberErrorsClasses(g, front, nk, dt);
      MemberErrorsClasses(g, nodes[|nodes| - 1], nk, dt);
      ClassesInAppend(AllMemberErrors(g, front, nk, dt), MemberErrors(g, nodes[|nodes| - 1], nk, dt),
        ListClasses(nk, dt) - {ShaclListConstraintError});
    }
  }

  /** One node yields at most one error per requested check, of that check's class. */
  lemma MemberErrorsClasses(g: Graph, u: Term, nk: Option<NodeKindType>, dt: Option<string>)
    ensures ClassesIn(MemberErrors(g, u, nk, dt), ListClasses(nk, dt) - {ShaclListConstraintError})
    ensures |MemberErrors(g, u, nk, dt)| <= 2
    ensures nk.None? && dt.None? ==> MemberErrors(g, u, nk, dt) == []
  {
    var a := if nk.Some? then NodeKindErrors(Value(g, u, RdfFirst), nk.value) else [];
    var b := if dt.Some? then DatatypeErrors(Value(g, u, RdfFirst), dt.value) else [];
    var cs := ListClasses(nk, dt) - {ShaclListConstraintError};
    assert ClassesIn(a, cs);
    assert ClassesIn(b, cs);
    ClassesInAppend(a, b, cs);
  }

  predicate NoDuplicates(s: seq<Term>) {
    forall i, j :: 0 <= i < j < |s| ==> s[i] != s[j]
  }

  /** The walk only extends the nodes already visited. */
  lemma {:induction false} ListWalkExtends(g: Graph, head: Term, uri: Option<Term>, walked: seq<Term>)
    requires uri.Some? ==> uri.value in Reachable(g, head)
    requires Elems(walked) <= Reachable(g, head)
    ensures walked <= ListWalk(g, head, uri, walked).walked
    decreases Reachable(g, head) - Elems(walked)
  {
    if uri.Some? && !uri.value.Literal? && uri.value !in walked {
      var u := uri.value;
      WalkNode(g, head, u, walked);
      if Value(g, u, RdfRest) != Some(RdfNil) {
        ListWalkExtends(g, head, Value(g, u, RdfRest), walked + [u]);
      }
    }
  }

  /** The walk never visits a node twice. */
  lemma {:induction false} ListWalkNoDuplicates(g: Graph, head: Term, uri: Option<Term>, walked: seq<Term>)
    requires uri.Some? ==> uri.value in Reachable(g, head)
    requires Elems(walked) <= Reachable(g, head)
    requires NoDuplicates(walked)
    ensures NoDuplicates(ListWalk(g, head, uri, walked).walked)
    decreases Reachable(g, head) - Elems(walked)
  {
    if uri.Some? && !uri.value.Literal? && uri.value !in walked {
      var u := uri.value;
      WalkNode(g, head, u, walked);
      if Value(g, u, RdfRest) != Some(RdfNil) {
        ListWalkNoDuplicates(g, head, Value(g, u, RdfRest), walked + [u]);
      }
    }
  }

  /** A walk that stops early stops with a list-structure error. */
  lemma {:induction false} ListWalkStructural(g: Graph, head: Term, uri: Option<Term>, walked: seq<Term>)
    requires uri.Some? ==> uri.value in Reachable(g, head)
    requires Elems(walked) <= Reachable(g, head)
    ensures ListWalk(g, head, uri, walked).structural.Some? ==>
              ListWalk(g, head, uri, walked).structural.value.cls == ShaclListConstraintError
    decreases Reachable(g, head) - Elems(walked)
  {
    if uri.Some? && !uri.value.Literal? && uri.value !in walked {
      var u := uri.value;
      WalkNode(g, head, u, walked);
      if Value(g, u, RdfRest) != Some(RdfNil) {
        ListWalkStructural(g, head, Value(g, u, RdfRest), walked + [u]);
      }
    }
  }

  /** A walk that succeeds has visited at least one node, and the last one it visited ends the list. */
  lemma {:induction false} ListWalkEndsAtNil(g: Graph, head: Term, uri: Option<Term>, walked: seq<Term>)
    requires uri.Some? ==> uri.value in Reachable(g, head)
    requires Elems(walked) <= Reachable(g, head)
    ensures var r := ListWalk(g, head, uri, walked);
            r.structural.None? ==> |r.walked| > 0 && Value(g, r.walked[|r.walked| - 1], RdfRest) == Some(RdfNil)
    decreases Reachable(g, head) - Elems(walked)
  {
    if uri.Some? && !uri.value.Literal? && uri.value !in walked {
      var u := uri.value;
      WalkNode(g, head, u, walked);
      if Value(g, u, RdfRest) != Some(RdfNil) {
        ListWalkEndsAtNil(g, head, Value(g, u, RdfRest), walked + [u]);
      }
    }
  }

  /** Every error a list check records is of a class its requested checks allow. */
  lemma ListCheckClasses(g: Graph, listUri: Term, nk: Option<NodeKindType>, dt: Option<string>)
    ensures ClassesIn(ShaclListErrors(g, listUri, nk, dt), ListClasses(nk, dt))
  {
    ListWalkStructural(g, listUri, Some(listUri), []);
    AllMemberErrorsClasses(g, ShaclListWalk(g, listUri).walked, nk, dt);
  }

  /** A list check that fails records the list-structure error last. */
  lemma ListCheckFailsLast(g: Graph, listUri: Term, nk: Option<NodeKindType>, dt: Option<string>)
    ensures ShaclListWalk(g, listUri).structural.Some? ==>
              var errs := ShaclListErrors(g, listUri, nk, dt);
              |errs| > 0 && errs[|errs| - 1].cls == ShaclListConstraintError
  {
    ListWalkStructural(g, listUri, Some(listUri), []);
  }

  /** Without member checks, a list check records at most the one list-structure error. */
  lemma BareListCheck(g: Graph, listUri: Term)
    ensures |ShaclListErrors(g, listUri, None, None)| <= 1
    ensures ClassesIn(ShaclListErrors(g, listUri, None, None), {ShaclListConstraintError})
  {
    ListWalkStructural(g, listUri, Some(listUri), []);
    AllMemberErrorsClasses(g, ShaclListWalk(g, listUri).walked, None, None);
  }

  /**
   * From `node`, the list reaches `rdf:nil` through IRIs and blank nodes
   * none of which is in `seen` or repeats.
   */
  ghost predicate ProperList(g: Graph, node: Term, seen: seq<Term>, n: nat)
    decreases n
  {
    n > 0 && !node.Literal? && node !in seen &&
    match Value(g, node, RdfRest)
    case None => false
    case Some(next) => next == RdfNil || ProperList(g, next, seen + [node], n - 1)
  }

  lemma {:induction false} ProperListBounded(g: Graph, node: Term, seen: seq<Term>, n: nat)
    requires ProperList(g, node, seen, n)
    ensures ListBounded(g, node, n)
    decreases n
  {
    var next := Value(g, node, RdfRest).value;
    if next != RdfNil {
      ProperListBounded(g, next, seen + [node], n - 1);
    }
  }

  /** On a proper list the walk succeeds and visits exactly the list nodes, never `rdf:nil` itself. */
  lemma {:induction false} ProperListWalk(g: Graph, head: Term, node: Term, walked: seq<Term>, n: nat)
    requires ProperList(g, node, walked, n)
    requires node in Reachable(g, head) && Elems(walked) <= Reachable(g, head)
    ensures ListBounded(g, node, n)
    ensures ListWalk(g, head, Some(node), walked) == Walk(None, walked + ListNodes(g, node, n))
    decreases n
  {
    ProperListBounded(g, node, walked, n);
    WalkNode(g, head, node, walked);
    var next := Value(g, node, RdfRest).value;
    if next != RdfNil {
      ProperListWalk(g, head, next, walked + [node], n - 1);
      var rest := ListNodes(g, next, n - 1);
      assert ListNodes(g, node, n) == [node] + rest;
      assert walked + [node] + rest == walked + ([node] + rest);
    } else {
      assert ListNodes(g, node, n) == [node];
    }
  }

  /** A proper list yields only its members' node-kind and datatype errors, in list order. */
  lemma ProperListOnlyMemberErrors(g: Graph, listUri: Term, nk: Option<NodeKindType>, dt: Option<string>, n: nat)
    requires ProperList(g, listUri, [], n)
    ensures ListBounded(g, listUri, n)
    ensures ShaclListWalk(g, listUri).structural.None?
    ensures ShaclListErrors(g, listUri, nk, dt) == AllMemberErrors(g, ListNodes(g, listUri, n), nk, dt)
  {
    ProperListWalk(g, listUri, listUri, [], n);
    assert [] + ListNodes(g, listUri, n) == ListNodes(g, listUri, n);
  }

  /** A list node whose `rdf:rest` is itself: its member is checked, then the loop is reported. */
  lemma SelfLoopReported(g: Graph, u: Term, nk: Option<NodeKindType>, dt: Option<string>)
    requires !u.Literal? && u != RdfNil && Value(g, u, RdfRest) == Some(u)
    ensures ShaclListErrors(g, u, nk, dt) ==
            MemberErrors(g, u, nk, dt) + [Exception(ShaclListConstraintError, ListLoop(u))]
  {
    WalkNode(g, u, u, []);
    assert [] + [u] == [u];
    MemberStep(g, [], u, nk, dt);
  }

  // --------------------------------------------------------- max-count table

  /** The predicates that may have at most one value, in the order they are checked. */
  const MaxTable: seq<Term> := [
    ShIgnoredProperties, ShNodekindLowercase, ShClosed, ShPath, ShDatatype, ShMinCount, ShMaxCount,
    ShMinExclusive, ShMinInclusive, ShMaxExclusive, ShMaxInclusive, ShMinLength, ShMaxLength,
    ShPattern, ShFlags, ShUniqueLang, ShIn, ShOrder, ShQualifiedValueShape,
    ShQualifiedValueShapesDisjoint, ShQualifiedMinCount, ShQualifiedMaxCount, ShGroup, ShLanguageIn
  ]

  /** One `MaxConstraintError` per table predicate with two or more values, in table order. */
  function MaxErrors(g: Graph, s: Term, table: seq<Term>): (r: seq<Exception>)
  {
    if table == [] then []
    else
      var last := table[|table| - 1];
      MaxErrors(g, s, table[..|table| - 1]) +
      (if Ambiguous(g, s, last) then [Exception(MaxConstraintError, ConflictFor(last))] else [])
  }

  /**
   * A predicate's conflict is recorded exactly when
   * the predicate is in the table and has two or more values, and every
   * recorded error is a `MaxConstraintError`.
   */
  lemma {:induction false} MaxErrorsExact(g: Graph, s: Term, table: seq<Term>, p: Term)
    ensures Exception(MaxConstraintError, ConflictFor(p)) in MaxErrors(g, s, table) <==> p in table && Ambiguous(g, s, p)
  {
    if table != [] {
      var init := table[..|table| - 1];
      var last := table[|table| - 1];
      assert table == init + [last];
      MaxErrorsExact(g, s, init, p);
    }
  }

  /** The max-count table records `MaxConstraintError`s only. */
  lemma {:induction false} MaxErrorsClasses(g: Graph, s: Term, table: seq<Term>)
    ensures ClassesIn(MaxErrors(g, s, table), {MaxConstraintError})
  {
    if table != [] {
      var last := table[|table| - 1];
      MaxErrorsClasses(g, s, table[..|table| - 1]);
      ClassesInAppend(MaxErrors(g, s, table[..|table| - 1]),
                      if Ambiguous(g, s, last) then [Exception(MaxConstraintError, ConflictFor(last))] else [],
                      {MaxConstraintError});
    }
  }

  lemma NodeKindNotInMaxTable()
    ensures ShNodeKind !in MaxTable
  {
  }

  /** The table spells `sh:nodekind` in lower case, so several `sh:nodeKind` values are never reported. */
  lemma NodeKindDuplicatesNeverReported(g: Graph, s: Term)
    ensures Exception(MaxConstraintError, ConflictFor(ShNodeKind)) !in MaxErrors(g, s, MaxTable)
  {
    NodeKindNotInMaxTable();
    MaxErrorsExact(g, s, MaxTable, ShNodeKind);
  }

  // ----------------------------------------------------------- property paths

  /** The outcome of `propertyPathConstraints`: the resolved path and the errors appended. */
  datatype Checked = Checked(value: PathValue, errors: seq<Exception>)

  /**
   * `propertyPathConstraints(pathUri)`: resolves the path like
   * `getPropertyPath`, checks the list structure of every list node that is
   * not the last, and records a `PathError` for each leaf that is not an IRI.
   */
  function PathCheck(g: Graph, t: Term, ghost n: nat): (r: Checked)
    requires PathBounded(g, t, n)
    ensures IsLeaf(g, t) && t.IRI? ==> r.errors == []
    ensures IsLeaf(g, t) && !t.IRI? ==> r.errors == [Exception(PathError, PathNotIri(Some(t)))]
    decreases n
  {
    match Value(g, t, RdfFirst)
    case Some(head) =>
      var first := PathCheck(g, head, n - 1);
      (match Value(g, t, RdfRest)
       case None =>
         var listErrors := ShaclListErrors(g, t, None, None);
         Checked(Cons(first.value, NoneCheck.value), first.errors + listErrors + NoneCheck.errors)
       case Some(next) =>
         if next == RdfNil then Checked(PList([first.value]), first.errors)
         else
           var listErrors := ShaclListErrors(g, t, None, None);
           var rest := PathCheck(g, next, n - 1);
           Checked(Cons(first.value, rest.value), first.errors + listErrors + rest.errors))
    case None =>
      match FirstCombinator(g, t)
      case Some((c, inner)) =>
        var sub := PathCheck(g, inner, n - 1);
        Checked(PDict(c, sub.value), sub.errors)
      case None =>
        if t.IRI? then Checked(PStr(t.iri), []) else Checked(PNone, [Exception(PathError, PathNotIri(Some(t)))])
  }

  /**
   * `propertyPathConstraints(None)`, reached from a list node without
   * `rdf:rest`: rdflib's `value` finds nothing for the subject `None`, so it
   * is a leaf that is not an IRI.
   */
  const NoneCheck: Checked := Checked(PNone, [Exception(PathError, PathNotIri(None))])

  /** The path the check resolves is the one `getPropertyPath` resolves. */
  lemma {:induction false} PathCheckAgrees(g: Graph, t: Term, n: nat)
    requires PathBounded(g, t, n)
    ensures PathCheck(g, t, n).value == GetPropertyPath(g, t, n)
    decreases n
  {
    match Value(g, t, RdfFirst)
    case Some(head) =>
      PathCheckAgrees(g, head, n - 1);
      match Value(g, t, RdfRest) {
        case None =>
        case Some(next) =>
          if next != RdfNil {
            PathCheckAgrees(g, next, n - 1);
          }
      }
    case None =>
      match FirstCombinator(g, t)
      case Some((c, inner)) => PathCheckAgrees(g, inner, n - 1);
      case None =>
  }

  /** How the check of a list node is made of the checks of its member and its rest. */
  lemma PathCheckListNode(g: Graph, t: Term, n: nat)
    requires PathBounded(g, t, n) && Value(g, t, RdfFirst).Some?
    ensures PathBounded(g, Value(g, t, RdfFirst).value, n - 1)
    ensures var first := PathCheck(g, Value(g, t, RdfFirst).value, n - 1);
            Value(g, t, RdfRest).None? ==>
              PathCheck(g, t, n) ==
              Checked(Cons(first.value, PNone), first.errors + ShaclListErrors(g, t, None, None) + NoneCheck.errors)
    ensures var first := PathCheck(g, Value(g, t, RdfFirst).value, n - 1);
            Value(g, t, RdfRest) == Some(RdfNil) ==> PathCheck(g, t, n) == Checked(PList([first.value]), first.errors)
    ensures var first := PathCheck(g, Value(g, t, RdfFirst).value, n - 1);
            var next := Value(g, t, RdfRest);
            next.Some? && next.value != RdfNil ==>
              PathBounded(g, next.value, n - 1) &&
              PathCheck(g, t, n) ==
              Checked(Cons(first.value, PathCheck(g, next.value, n - 1).value),
                      first.errors + ShaclListErrors(g, t, None, None) + PathCheck(g, next.value, n - 1).errors)
  {
  }

  /** How the check of a combinator node is made of the check of the node it wraps. */
  lemma PathCheckCombinator(g: Graph, t: Term, n: nat, c: Combinator, inner: Term)
    requires PathBounded(g, t, n) && Value(g, t, RdfFirst).None? && FirstCombinator(g, t) == Some((c, inner))
    ensures PathBounded(g, inner, n - 1)
    ensures PathCheck(g, t, n) == Checked(PDict(c, PathCheck(g, inner, n - 1).value), PathCheck(g, inner, n - 1).errors)
  {
  }

  /** The path check records path errors and list-structure errors only. */
  lemma {:induction false} PathCheckClasses(g: Graph, t: Term, n: nat)
    requires PathBounded(g, t, n)
    ensures ClassesIn(PathCheck(g, t, n).errors, {PathError, ShaclListConstraintError})
    decreases n
  {
    if Value(g, t, RdfFirst).Some? {
      var head := Value(g, t, RdfFirst).value;
      PathCheckListNode(g, t, n);
      PathCheckClasses(g, head, n - 1);
      if Value(g, t, RdfRest).None? {
        PathClassesMissingRest(g, t, n);
      } else if Value(g, t, RdfRest).value != RdfNil {
        PathCheckClasses(g, Value(g, t, RdfRest).value, n - 1);
        PathClassesListStep(g, t, n);
      }
    } else if FirstCombinator(g, t).Some? {
      var (c, inner) := FirstCombinator(g, t).value;
      PathCheckCombinator(g, t, n, c, inner);
      PathCheckClasses(g, inner, n - 1);
    }
  }

  /**
   * A list node without `rdf:rest`: the list check reports the rest `None`
   * as a wrong list type, and the path check of `None` reports it as a leaf
   * that is not an IRI; the path ends in `None`.
   */
  lemma MissingRestReported(g: Graph, t: Term, n: nat)
    requires PathBounded(g, t, n) && !t.Literal?
    requires Value(g, t, RdfFirst).Some? && Value(g, t, RdfRest).None?
    ensures PathBounded(g, Value(g, t, RdfFirst).value, n - 1)
    ensures var first := PathCheck(g, Value(g, t, RdfFirst).value, n - 1);
            PathCheck(g, t, n) ==
            Checked(PList([first.value, PNone]),
                    first.errors + [Exception(ShaclListConstraintError, WrongListType(None)), Exception(PathError, PathNotIri(None))])
  {
    var first := PathCheck(g, Value(g, t, RdfFirst).value, n - 1);
    PathCheckListNode(g, t, n);
    WalkNode(g, t, t, []);
    assert [] + [t] == [t];
    assert AllMemberErrors(g, [t], None, None) == AllMemberErrors(g, [], None, None) + MemberErrors(g, t, None, None);
    assert ShaclListErrors(g, t, None, None) == [Exception(ShaclListConstraintError, WrongListType(None))];
    AppendAssoc(first.errors, [Exception(ShaclListConstraintError, WrongListType(None))], NoneCheck.errors);
  }

  lemma PathClassesMissingRest(g: Graph, t: Term, n: nat)
    requires PathBounded(g, t, n) && Value(g, t, RdfFirst).Some? && Value(g, t, RdfRest).None?
    requires PathBounded(g, Value(g, t, RdfFirst).value, n - 1)
    requires ClassesIn(PathCheck(g, Value(g, t, RdfFirst).value, n - 1).errors, {PathError, ShaclListConstraintError})
    ensures ClassesIn(PathCheck(g, t, n).errors, {PathError, ShaclListConstraintError})
  {
    var cs := {PathError, ShaclListConstraintError};
    var first := PathCheck(g, Value(g, t, RdfFirst).value, n - 1).errors;
    var listErrors := ShaclListErrors(g, t, None, None);
    PathCheckListNode(g, t, n);
    BareListCheck(g, t);
    ClassesInSubset(listErrors, {ShaclListConstraintError}, cs);
    ClassesInAppend(first, listErrors, cs);
    assert ClassesIn(NoneCheck.errors, cs);
    ClassesInAppend(first + listErrors, NoneCheck.errors, cs);
  }

  lemma PathClassesListStep(g: Graph, t: Term, n: nat)
    requires PathBounded(g, t, n) && Value(g, t, RdfFirst).Some? && Value(g, t, RdfRest).Some?
    requires Value(g, t, RdfRest).value != RdfNil
    requires PathBounded(g, Value(g, t, RdfFirst).value, n - 1) && PathBounded(g, Value(g, t, RdfRest).value, n - 1)
    requires ClassesIn(PathCheck(g, Value(g, t, RdfFirst).value, n - 1).errors, {PathError, ShaclListConstraintError})
    requires ClassesIn(PathCheck(g, Value(g, t, RdfRest).value, n - 1).errors, {PathError, ShaclListConstraintError})
    ensures ClassesIn(PathCheck(g, t, n).errors, {PathError, ShaclListConstraintError})
  {
    var cs := {PathError, ShaclListConstraintError};
    var first := PathCheck(g, Value(g, t, RdfFirst).value, n - 1).errors;
    var listErrors := ShaclListErrors(g, t, None, None);
    PathCheckListNode(g, t, n);
    BareListCheck(g, t);
    ClassesInSubset(listErrors, {ShaclListConstraintError}, cs);
    ClassesInAppend(first, listErrors, cs);
    ClassesInAppend(first + listErrors, PathCheck(g, Value(g, t, RdfRest).value, n - 1).errors, cs);
  }

  /** How many leaves of a resolved path are Python's `None`. */
  function NoneLeaves(v: PathValue): nat {
    match v
    case PStr(_) => 0
    case PNone => 1
    case PDict(_, inner) => NoneLeaves(inner)
    case PList(items) => NoneLeavesAll(items)
  }

  function NoneLeavesAll(items: seq<PathValue>): nat {
    if items == [] then 0 else NoneLeaves(items[0]) + NoneLeavesAll(items[1..])
  }

  function CountClass(errors: seq<Exception>, c: ErrorClass): nat {
    if errors == [] then 0 else (if errors[0].cls == c then 1 else 0) + CountClass(errors[1..], c)
  }

  lemma {:induction false} CountClassAppend(a: seq<Exception>, b: seq<Exception>, c: ErrorClass)
    ensures CountClass(a + b, c) == CountClass(a, c) + CountClass(b, c)
  {
    if a == [] {
      assert a + b == b;
    } else {
      CountClassAppend(a[1..], b, c);
      assert (a + b)[1..] == a[1..] + b;
    }
  }

  lemma {:induction false} CountClassAbsent(errors: seq<Exception>, cs: set<ErrorClass>, c: ErrorClass)
    requires ClassesIn(errors, cs) && c !in cs
    ensures CountClass(errors, c) == 0
  {
    if errors != [] {
      CountClassAbsent(errors[1..], cs, c);
    }
  }

  lemma {:induction false} NoneLeavesAllAppend(a: seq<PathValue>, b: seq<PathValue>)
    ensures NoneLeavesAll(a + b) == NoneLeavesAll(a) + NoneLeavesAll(b)
  {
    if a == [] {
      assert a + b == b;
      assert NoneLeavesAll(a) == 0;
    } else {
      NoneLeavesAllAppend(a[1..], b);
      assert (a + b)[1..] == a[1..] + b;
      assert (a + b)[0] == a[0];
    }
  }

  lemma NoneLeavesCons(first: PathValue, rest: PathValue)
    ensures NoneLeaves(Cons(first, rest)) == NoneLeaves(first) + NoneLeaves(rest)
  {
    assert NoneLeavesAll([first]) == NoneLeaves(first) + NoneLeavesAll([]);
    if rest.PList? {
      NoneLeavesAllAppend([first], rest.items);
    } else {
      assert NoneLeavesAll([rest]) == NoneLeaves(rest) + NoneLeavesAll([]);
      assert [first, rest][1..] == [rest];
    }
  }

  /** The path check records one `PathError` per `None` leaf of the resolved path, and no other. */
  lemma {:induction false} PathErrorsMatchNoneLeaves(g: Graph, t: Term, n: nat)
    requires PathBounded(g, t, n)
    ensures CountClass(PathCheck(g, t, n).errors, PathError) == NoneLeaves(PathCheck(g, t, n).value)
    decreases n
  {
    if Value(g, t, RdfFirst).Some? {
      PathCheckListNode(g, t, n);
      PathErrorsMatchNoneLeaves(g, Value(g, t, RdfFirst).value, n - 1);
      if Value(g, t, RdfRest).None? {
        NoneLeavesMissingRest(g, t, n);
      } else if Value(g, t, RdfRest).value == RdfNil {
        NoneLeavesLastNode(g, t, n);
      } else {
        PathErrorsMatchNoneLeaves(g, Value(g, t, RdfRest).value, n - 1);
        NoneLeavesListStep(g, t, n);
      }
    } else if FirstCombinator(g, t).Some? {
      var (c, inner) := FirstCombinator(g, t).value;
      PathCheckCombinator(g, t, n, c, inner);
      PathErrorsMatchNoneLeaves(g, inner, n - 1);
      NoneLeavesCombinator(g, t, n, c, inner);
    } else {
      NoneLeavesLeaf(g, t, n);
    }
  }

  lemma NoneLeavesLastNode(g: Graph, t: Term, n: nat)
    requires PathBounded(g, t, n) && Value(g, t, RdfFirst).Some? && Value(g, t, RdfRest) == Some(RdfNil)
    requires PathBounded(g, Value(g, t, RdfFirst).value, n - 1)
    requires var first := PathCheck(g, Value(g, t, RdfFirst).value, n - 1);
             CountClass(first.errors, PathError) == NoneLeaves(first.value)
    ensures CountClass(PathCheck(g, t, n).errors, PathError) == NoneLeaves(PathCheck(g, t, n).value)
  {
    var first := PathCheck(g, Value(g, t, RdfFirst).value, n - 1);
    PathCheckListNode(g, t, n);
    assert NoneLeavesAll([first.value]) == NoneLeaves(first.value) + NoneLeavesAll([]);
  }

  lemma NoneLeavesMissingRest(g: Graph, t: Term, n: nat)
    requires PathBounded(g, t, n) && Value(g, t, RdfFirst).Some? && Value(g, t, RdfRest).None?
    requires PathBounded(g, Value(g, t, RdfFirst).value, n - 1)
    requires var first := PathCheck(g, Value(g, t, RdfFirst).value, n - 1);
             CountClass(first.errors, PathError) == NoneLeaves(first.value)
    ensures CountClass(PathCheck(g, t, n).errors, PathError) == NoneLeaves(PathCheck(g, t, n).value)
  {
    var first := PathCheck(g, Value(g, t, RdfFirst).value, n - 1);
    var listErrors := ShaclListErrors(g, t, None, None);
    PathCheckListNode(g, t, n);
    BareListCheck(g, t);
    CountClassAbsent(listErrors, {ShaclListConstraintError}, PathError);
    CountClassAppend(first.errors, listErrors, PathError);
    CountClassAppend(first.errors + listErrors, NoneCheck.errors, PathError);
    assert CountClass(NoneCheck.errors, PathError) == 1 + CountClass([], PathError);
    NoneLeavesCons(first.value, PNone);
  }

  lemma NoneLeavesCombinator(g: Graph, t: Term, n: nat, c: Combinator, inner: Term)
    requires PathBounded(g, t, n) && Value(g, t, RdfFirst).None? && FirstCombinator(g, t) == Some((c, inner))
    requires PathBounded(g, inner, n - 1)
    requires CountClass(PathCheck(g, inner, n - 1).errors, PathError) == NoneLeaves(PathCheck(g, inner, n - 1).value)
    ensures CountClass(PathCheck(g, t, n).errors, PathError) == NoneLeaves(PathCheck(g, t, n).value)
  {
    PathCheckCombinator(g, t, n, c, inner);
  }

  lemma NoneLeavesLeaf(g: Graph, t: Term, n: nat)
    requires PathBounded(g, t, n) && IsLeaf(g, t)
    ensures CountClass(PathCheck(g, t, n).errors, PathError) == NoneLeaves(PathCheck(g, t, n).value)
  {
    if !t.IRI? {
      assert CountClass([Exception(PathError, PathNotIri(Some(t)))], PathError) == 1 + CountClass([], PathError);
    }
  }

  lemma NoneLeavesListStep(g: Graph, t: Term, n: nat)
    requires PathBounded(g, t, n) && Value(g, t, RdfFirst).Some? && Value(g, t, RdfRest).Some?
    requires Value(g, t, RdfRest).value != RdfNil
    requires PathBounded(g, Value(g, t, RdfFirst).value, n - 1) && PathBounded(g, Value(g, t, RdfRest).value, n - 1)
    requires var first := PathCheck(g, Value(g, t, RdfFirst).value, n - 1);
             CountClass(first.errors, PathError) == NoneLeaves(first.value)
    requires var rest := PathCheck(g, Value(g, t, RdfRest).value, n - 1);
             CountClass(rest.errors, PathError) == NoneLeaves(rest.value)
    ensures CountClass(PathCheck(g, t, n).errors, PathError) == NoneLeaves(PathCheck(g, t, n).value)
  {
    var first := PathCheck(g, Value(g, t, RdfFirst).value, n - 1);
    var rest := PathCheck(g, Value(g, t, RdfRest).value, n - 1);
    var listErrors := ShaclListErrors(g, t, None, None);
    PathCheckListNode(g, t, n);
    BareListCheck(g, t);
    CountClassAbsent(listErrors, {ShaclListConstraintError}, PathError);
    CountClassAppend(first.errors, listErrors, PathError);
    CountClassAppend(first.errors + listErrors, rest.errors, PathError);
    NoneLeavesCons(first.value, rest.value);
  }

  // ------------------------------------------------------ checkConstraints

  /** The six values `sh:nodeKind` may take. */
  const NodeKindValues: seq<Term> := [ShBlankNode, ShIRI, ShLiteral, ShBlankNodeOrIRI, ShBlankNodeOrLiteral, ShIRIOrLiteral]

  /** The list check of the value of `p`, when `p` has one. */
  function ListCheckAt(g: Graph, s: Term, p: Term, nk: Option<NodeKindType>, dt: Option<string>): seq<Exception> {
    match Value(g, s, p)
    case None => []
    case Some(v) => ShaclListErrors(g, v, nk, dt)
  }

  lemma ListCheckAtClasses(g: Graph, s: Term, p: Term, nk: Option<NodeKindType>, dt: Option<string>)
    ensures ClassesIn(ListCheckAt(g, s, p, nk, dt), ListClasses(nk, dt))
  {
    if Value(g, s, p).Some? {
      ListCheckClasses(g, Value(g, s, p).value, nk, dt);
    }
  }

  /** The node-kind check of every object, in graph order. */
  function KindErrorsAll(objs: seq<Term>, nk: NodeKindType): (r: seq<Exception>)
  {
    if objs == [] then []
    else KindErrorsAll(objs[..|objs| - 1], nk) + NodeKindErrors(Some(objs[|objs| - 1]), nk)
  }

  /** The objects pass exactly when each has a kind `nk` admits; every error is a node-kind error. */
  lemma {:induction false} KindErrorsAllExact(objs: seq<Term>, nk: NodeKindType)
    ensures KindErrorsAll(objs, nk) == [] <==> forall o :: o in objs ==> Admits(nk, o)
  {
    if objs != [] {
      var init := objs[..|objs| - 1];
      var last := objs[|objs| - 1];
      assert objs == init + [last];
      KindErrorsAllExact(init, nk);
      assert (forall o :: o in objs ==> Admits(nk, o)) <==> (forall o :: o in init ==> Admits(nk, o)) && Admits(nk, last);
    }
  }

  lemma {:induction false} KindErrorsAllClasses(objs: seq<Term>, nk: NodeKindType)
    ensures ClassesIn(KindErrorsAll(objs, nk), {NodeKindConstraintError})
  {
    if objs != [] {
      KindErrorsAllClasses(objs[..|objs| - 1], nk);
      ClassesInAppend(KindErrorsAll(objs[..|objs| - 1], nk), NodeKindErrors(Some(objs[|objs| - 1]), nk), {NodeKindConstraintError});
    }
  }

  /** The node-kind check of the value of `p`, when `p` has one. */
  function KindErrorsAt(g: Graph, s: Term, p: Term, nk: NodeKindType): seq<Exception> {
    match Value(g, s, p)
    case None => []
    case Some(v) => NodeKindErrors(Some(v), nk)
  }

  /** The datatype check of the value of `p`, when `p` has one. */
  function DatatypeErrorsAt(g: Graph, s: Term, p: Term, dt: string): seq<Exception> {
    match Value(g, s, p)
    case None => []
    case Some(v) => DatatypeErrors(Some(v), dt)
  }

  /**
   * One `sh:message` object: a term that is not a literal has no language
   * attribute, which is reported as a datatype error naming `sh:message`;
   * an untagged literal must be an `xsd:string`; a tagged one is skipped.
   */
  function MessageErrors(m: Term): (r: seq<Exception>)
    ensures |r| <= 1
  {
    if !m.Literal? then [Exception(DataTypeConstraintError, WrongDatatype(Some(ShMessage)))]
    else if m.language.None? then DatatypeErrors(Some(m), XsdString)
    else []
  }

  /** A message the check accepts: a language-tagged literal or an `xsd:string` literal. */
  predicate AcceptableMessage(m: Term) {
    m.Literal? && (m.language.Some? || m.datatypeIri == Some(XsdString))
  }

  /** The message checks over all `sh:message` objects, in graph order. */
  function AllMessageErrors(msgs: seq<Term>): (r: seq<Exception>)
  {
    if msgs == [] then []
    else AllMessageErrors(msgs[..|msgs| - 1]) + MessageErrors(msgs[|msgs| - 1])
  }

  /** A single message passes exactly when it is acceptable. */
  lemma MessageErrorsExact(m: Term)
    ensures MessageErrors(m) == [] <==> AcceptableMessage(m)
  {
  }

  /** The messages pass exactly when each is acceptable. */
  lemma {:induction false} AllMessageErrorsExact(msgs: seq<Term>)
    ensures AllMessageErrors(msgs) == [] <==> forall m :: m in msgs ==> AcceptableMessage(m)
  {
    if msgs != [] {
      var init := msgs[..|msgs| - 1];
      var last := msgs[|msgs| - 1];
      assert msgs == init + [last];
      AllMessageErrorsExact(init);
      MessageErrorsExact(last);
      assert (forall m :: m in msgs ==> AcceptableMessage(m)) <==>
             (forall m :: m in init ==> AcceptableMessage(m)) && AcceptableMessage(last);
    }
  }

  /** The message checks record datatype errors only. */
  lemma {:induction false} AllMessageErrorsClasses(msgs: seq<Term>)
    ensures ClassesIn(AllMessageErrors(msgs), {DataTypeConstraintError})
  {
    if msgs != [] {
      AllMessageErrorsClasses(msgs[..|msgs| - 1]);
      ClassesInAppend(AllMessageErrors(msgs[..|msgs| - 1]), MessageErrors(msgs[|msgs| - 1]), {DataTypeConstraintError});
    }
  }

  /** A message that is not a literal is always reported, naming `sh:message`. */
  lemma {:induction false} NonLiteralMessageReported(msgs: seq<Term>, i: nat)
    requires i < |msgs| && !msgs[i].Literal?
    ensures Exception(DataTypeConstraintError, WrongDatatype(Some(ShMessage))) in AllMessageErrors(msgs)
  {
    var init := msgs[..|msgs| - 1];
    if i < |msgs| - 1 {
      assert init[i] == msgs[i];
      NonLiteralMessageReported(init, i);
    }
  }

  /** The `sh:nodeKind` value, when present, must be one of the six node kinds. */
  function NodeKindInErrors(g: Graph, s: Term): (r: seq<Exception>)
    ensures r != [] <==> Value(g, s, ShNodeKind).Some? && Value(g, s, ShNodeKind).value !in NodeKindValues
    ensures r != [] ==> r == [Exception(ConstraintError, ConflictFor(ShNodeKind))]
  {
    match Value(g, s, ShNodeKind)
    case None => []
    case Some(v) => if v !in NodeKindValues then [Exception(ConstraintError, ConflictFor(ShNodeKind))] else []
  }

  /** The `sh:path` value, when present, resolves within the bound `n`. */
  ghost predicate PathResolvable(g: Graph, s: Term, n: nat) {
    match Value(g, s, ShPath)
    case None => true
    case Some(p) => PathBounded(g, p, n)
  }

  function PathErrors(g: Graph, s: Term, ghost n: nat): seq<Exception>
    requires PathResolvable(g, s, n)
  {
    match Value(g, s, ShPath)
    case None => []
    case Some(p) => PathCheck(g, p, n).errors
  }

  function ListPhase(g: Graph, s: Term): seq<Exception> {
    ListCheckAt(g, s, ShLanguageIn, None, Some(XsdString)) +
    ListCheckAt(g, s, ShIgnoredProperties, Some(IriOnly), None) +
    ListCheckAt(g, s, ShIn, None, None)
  }

  /** A node-kind rule: the predicate, the kinds admitted, and whether every value or only the first is checked. */
  datatype KindRule = KindRule(pred: Term, kind: NodeKindType, everyValue: bool)

  /** The node-kind rules, in the order they are checked. */
  const KindTable: seq<KindRule> := [
    KindRule(ShTargetNode, IriOrLiteral, true),
    KindRule(ShTargetClass, IriOnly, true),
    KindRule(ShTargetSubjectsOf, IriOnly, true),
    KindRule(ShTargetObjectsOf, IriOnly, true),
    KindRule(ShClass, IriOnly, true),
    KindRule(ShEquals, IriOnly, true),
    KindRule(ShDisjoint, IriOnly, true),
    KindRule(ShLessThan, IriOnly, true),
    KindRule(ShLessThanOrEquals, IriOnly, true),
    KindRule(ShDatatype, IriOnly, false),
    KindRule(ShMinExclusive, LiteralOnly, false),
    KindRule(ShMinInclusive, LiteralOnly, false),
    KindRule(ShMaxExclusive, LiteralOnly, false),
    KindRule(ShMaxInclusive, LiteralOnly, false),
    KindRule(ShClosed, LiteralOnly, false)
  ]

  function KindErrorsFor(g: Graph, s: Term, rule: KindRule): seq<Exception> {
    if rule.everyValue then KindErrorsAll(Objects(g, s, rule.pred), rule.kind)
    else KindErrorsAt(g, s, rule.pred, rule.kind)
  }

  /** The node-kind errors of the rules, in rule order. */
  function KindPhase(g: Graph, s: Term, rules: seq<KindRule>): seq<Exception> {
    if rules == [] then []
    else KindPhase(g, s, rules[..|rules| - 1]) + KindErrorsFor(g, s, rules[|rules| - 1])
  }

  /** A datatype rule: the predicate whose first value must have the datatype. */
  datatype DatatypeRule = DatatypeRule(pred: Term, datatypeIri: string)

  /** The datatype rules, in the order they are checked. */
  const DatatypeTable: seq<DatatypeRule> := [
    DatatypeRule(ShMinCount, XsdInteger),
    DatatypeRule(ShMaxCount, XsdInteger),
    DatatypeRule(ShMinLength, XsdInteger),
    DatatypeRule(ShMaxLength, XsdInteger),
    DatatypeRule(ShPattern, XsdString),
    DatatypeRule(ShFlags, XsdString),
    DatatypeRule(ShUniqueLang, XsdBoolean),
    DatatypeRule(ShQualifiedValueShapesDisjoint, XsdBoolean),
    DatatypeRule(ShQualifiedMinCount, XsdInteger),
    DatatypeRule(ShQualifiedMaxCount, XsdInteger),
    DatatypeRule(ShClosed, XsdBoolean)
  ]

  /** The datatype errors of the rules, in rule order. */
  function DatatypePhase(g: Graph, s: Term, rules: seq<DatatypeRule>): seq<Exception> {
    if rules == [] then []
    else
      var rule := rules[|rules| - 1];
      DatatypePhase(g, s, rules[..|rules| - 1]) + DatatypeErrorsAt(g, s, rule.pred, rule.datatypeIri)
  }

  /**
   * `checkConstraints()`: list checks, node-kind checks, the max-count
   * table, message and datatype checks, the `sh:nodeKind` value check and
   * the path check, in this order.
   */
  function CheckConstraintsErrors(g: Graph, s: Term, ghost n: nat): seq<Exception>
    requires PathResolvable(g, s, n)
  {
    ListPhase(g, s) + KindPhase(g, s, KindTable) + MaxErrors(g, s, MaxTable) + AllMessageErrors(Objects(g, s, ShMessage)) +
    DatatypePhase(g, s, DatatypeTable) + NodeKindInErrors(g, s) + PathErrors(g, s, n)
  }

  /** The classes every check but the `sh:nodeKind` value check records. */
  const SpecificClasses: set<ErrorClass> :=
    {PathError, MaxConstraintError, ShaclListConstraintError, NodeKindConstraintError, DataTypeConstraintError}

  lemma {:induction false} KindPhaseClasses(g: Graph, s: Term, rules: seq<KindRule>)
    ensures ClassesIn(KindPhase(g, s, rules), {NodeKindConstraintError})
  {
    if rules != [] {
      var rule := rules[|rules| - 1];
      KindPhaseClasses(g, s, rules[..|rules| - 1]);
      if rule.everyValue {
        KindErrorsAllClasses(Objects(g, s, rule.pred), rule.kind);
      }
      ClassesInAppend(KindPhase(g, s, rules[..|rules| - 1]), KindErrorsFor(g, s, rule), {NodeKindConstraintError});
    }
  }

  lemma {:induction false} DatatypePhaseClasses(g: Graph, s: Term, rules: seq<DatatypeRule>)
    ensures ClassesIn(DatatypePhase(g, s, rules), {DataTypeConstraintError})
  {
    if rules != [] {
      var rule := rules[|rules| - 1];
      DatatypePhaseClasses(g, s, rules[..|rules| - 1]);
      ClassesInAppend(DatatypePhase(g, s, rules[..|rules| - 1]), DatatypeErrorsAt(g, s, rule.pred, rule.datatypeIri),
                      {DataTypeConstraintError});
    }
  }

  lemma ListPhaseClasses(g: Graph, s: Term)
    ensures ClassesIn(ListPhase(g, s), SpecificClasses)
  {
    var a := ListCheckAt(g, s, ShLanguageIn, None, Some(XsdString));
    var b := ListCheckAt(g, s, ShIgnoredProperties, Some(IriOnly), None);
    var c := ListCheckAt(g, s, ShIn, None, None);
    ListCheckAtClasses(g, s, ShLanguageIn, None, Some(XsdString));
    ListCheckAtClasses(g, s, ShIgnoredProperties, Some(IriOnly), None);
    ListCheckAtClasses(g, s, ShIn, None, None);
    ClassesInSubset(a, ListClasses(None, Some(XsdString)), SpecificClasses);
    ClassesInSubset(b, ListClasses(Some(IriOnly), None), SpecificClasses);
    ClassesInSubset(c, ListClasses(None, None), SpecificClasses);
    ClassesInAppend(a, b, SpecificClasses);
    ClassesInAppend(a + b, c, SpecificClasses);
  }

  /** The five phases before the `sh:nodeKind` value check. */
  function SpecificPhases(g: Graph, s: Term): seq<Exception> {
    ListPhase(g, s) + KindPhase(g, s, KindTable) + MaxErrors(g, s, MaxTable) + AllMessageErrors(Objects(g, s, ShMessage)) +
    DatatypePhase(g, s, DatatypeTable)
  }

  lemma SpecificPhasesClasses(g: Graph, s: Term)
    ensures ClassesIn(SpecificPhases(g, s), SpecificClasses)
  {
    var p1 := ListPhase(g, s);
    var p2 := KindPhase(g, s, KindTable);
    var p3 := MaxErrors(g, s, MaxTable);
    var p4 := AllMessageErrors(Objects(g, s, ShMessage));
    var p5 := DatatypePhase(g, s, DatatypeTable);
    ListPhaseClasses(g, s);
    KindPhaseClasses(g, s, KindTable);
    ClassesInSubset(p2, {NodeKindConstraintError}, SpecificClasses);
    MaxErrorsClasses(g, s, MaxTable);
    ClassesInSubset(p3, {MaxConstraintError}, SpecificClasses);
    AllMessageErrorsClasses(Objects(g, s, ShMessage));
    ClassesInSubset(p4, {DataTypeConstraintError}, SpecificClasses);
    DatatypePhaseClasses(g, s, DatatypeTable);
    ClassesInSubset(p5, {DataTypeConstraintError}, SpecificClasses);
    ClassesInAppend(p1, p2, SpecificClasses);
    ClassesInAppend(p1 + p2, p3, SpecificClasses);
    ClassesInAppend(p1 + p2 + p3, p4, SpecificClasses);
    ClassesInAppend(p1 + p2 + p3 + p4, p5, SpecificClasses);
  }

  lemma PathErrorsClasses(g: Graph, s: Term, n: nat)
    requires PathResolvable(g, s, n)
    ensures ClassesIn(PathErrors(g, s, n), SpecificClasses)
  {
    if Value(g, s, ShPath).Some? {
      PathCheckClasses(g, Value(g, s, ShPath).value, n);
      ClassesInSubset(PathErrors(g, s, n), {PathError, ShaclListConstraintError}, SpecificClasses);
    }
  }

  /** Every recorded error has a specific class, or is the base ConstraintError. */
  lemma CheckConstraintsClasses(g: Graph, s: Term, n: nat)
    requires PathResolvable(g, s, n)
    ensures ClassesIn(CheckConstraintsErrors(g, s, n), SpecificClasses + {ConstraintError})
  {
    var all := SpecificClasses + {ConstraintError};
    SpecificPhasesClasses(g, s);
    PathErrorsClasses(g, s, n);
    ClassesInSubset(SpecificPhases(g, s), SpecificClasses, all);
    ClassesInSubset(PathErrors(g, s, n), SpecificClasses, all);
    ClassesInAppend(SpecificPhases(g, s), NodeKindInErrors(g, s), all);
    ClassesInAppend(SpecificPhases(g, s) + NodeKindInErrors(g, s), PathErrors(g, s, n), all);
    assert CheckConstraintsErrors(g, s, n) == SpecificPhases(g, s) + NodeKindInErrors(g, s) + PathErrors(g, s, n);
  }

  /** Errors of the specific classes or the base ConstraintError are all ParseErrors. */
  lemma ParseErrorsOnly(errs: seq<Exception>)
    requires ClassesIn(errs, SpecificClasses + {ConstraintError})
    ensures forall e :: e in errs ==> IsA(e.cls, ParseError)
  {
    forall e | e in errs ensures IsA(e.cls, ParseError) {
      ClassesInExcludes(errs, SpecificClasses + {ConstraintError}, Error);
      Hierarchy(e.cls);
    }
  }

  /** Every recorded error is a ParseError. */
  lemma CheckConstraintsParseErrors(g: Graph, s: Term, n: nat)
    requires PathResolvable(g, s, n)
    ensures forall e :: e in CheckConstraintsErrors(g, s, n) ==> IsA(e.cls, ParseError)
  {
    CheckConstraintsClasses(g, s, n);
    ParseErrorsOnly(CheckConstraintsErrors(g, s, n));
  }

  /**
   * The only recorded error whose class is the base ConstraintError is the
   * `sh:nodeKind` value error: it is present exactly when the shape's
   * `sh:nodeKind` is not one of the six node kinds.
   */
  lemma BaseConstraintErrorOnlyForNodeKind(g: Graph, s: Term, n: nat)
    requires PathResolvable(g, s, n)
    ensures (exists e :: e in CheckConstraintsErrors(g, s, n) && e.cls == ConstraintError) <==>
            Value(g, s, ShNodeKind).Some? && Value(g, s, ShNodeKind).value !in NodeKindValues
  {
    var errs := CheckConstraintsErrors(g, s, n);
    var nk := NodeKindInErrors(g, s);
    assert errs == SpecificPhases(g, s) + nk + PathErrors(g, s, n);
    SpecificPhasesClasses(g, s);
    PathErrorsClasses(g, s, n);
    ClassesInExcludes(SpecificPhases(g, s), SpecificClasses, ConstraintError);
    ClassesInExcludes(PathErrors(g, s, n), SpecificClasses, ConstraintError);
    if nk != [] {
      assert nk[0] in errs;
    }
  }

  // Loop steps: each fold above extends by its next element.

  lemma MaxStep(g: Graph, s: Term, table: seq<Term>, i: nat)
    requires i < |table|
    ensures MaxErrors(g, s, table[..i + 1]) ==
            MaxErrors(g, s, table[..i]) + (if Ambiguous(g, s, table[i]) then [Exception(MaxConstraintError, ConflictFor(table[i]))] else [])
  {
    assert table[..i + 1][..i] == table[..i];
  }

  lemma KindAllStep(objs: seq<Term>, nk: NodeKindType, i: nat)
    requires i < |objs|
    ensures KindErrorsAll(objs[..i + 1], nk) == KindErrorsAll(objs[..i], nk) + NodeKindErrors(Some(objs[i]), nk)
  {
    assert objs[..i + 1][..i] == objs[..i];
  }

  lemma MessageStep(msgs: seq<Term>, i: nat)
    requires i < |msgs|
    ensures AllMessageErrors(msgs[..i + 1]) == AllMessageErrors(msgs[..i]) + MessageErrors(msgs[i])
  {
    assert msgs[..i + 1][..i] == msgs[..i];
  }

  lemma KindStep(g: Graph, s: Term, rules: seq<KindRule>, i: nat)
    requires i < |rules|
    ensures KindPhase(g, s, rules[..i + 1]) == KindPhase(g, s, rules[..i]) + KindErrorsFor(g, s, rules[i])
  {
    assert rules[..i + 1][..i] == rules[..i];
  }

  lemma DatatypeStep(g: Graph, s: Term, rules: seq<DatatypeRule>, i: nat)
    requires i < |rules|
    ensures DatatypePhase(g, s, rules[..i + 1]) ==
            DatatypePhase(g, s, rules[..i]) + DatatypeErrorsAt(g, s, rules[i].pred, rules[i].datatypeIri)
  {
    assert rules[..i + 1][..i] == rules[..i];
  }

  // ------------------------------------------------------------- the class

  class WellFormedShapeConstraintCheck {
    const g: Graph
    const shapeUri: Term
    /** A bound on the depth of the shape's property path. */
    ghost const depth: nat
    var errors: seq<Exception>

    /** `__init__(graph, shapeUri)`: starts with no errors and runs all checks. */
    constructor (graph: Graph, shapeUri: Term, ghost depth: nat)
      requires PathResolvable(graph, shapeUri, depth)
      ensures this.g == graph && this.shapeUri == shapeUri && this.depth == depth
      ensures errors == CheckConstraintsErrors(graph, shapeUri, depth)
    {
      this.g := graph;
      this.shapeUri := shapeUri;
      this.depth := depth;
      errors := [];
      new;
      CheckConstraints();
      assert [] + ListPhase(graph, shapeUri) == ListPhase(graph, shapeUri);
    }

    method ShaclListConstraint(listUri: Term, nk: Option<NodeKindType>, dt: Option<string>) returns (ok: bool)
      modifies this`errors
      ensures errors == old(errors) + ShaclListErrors(g, listUri, nk, dt)
      ensures ok == ShaclListWalk(g, listUri).structural.None?
    {
      ghost var total := ShaclListWalk(g, listUri);
      var shaclList: seq<Term> := [];
      var uri: Option<Term> := Some(listUri);
      var lastListEntry := false;
      while !lastListEntry
        invariant uri.Some? ==> uri.value in Reachable(g, listUri)
        invariant Elems(shaclList) <= Reachable(g, listUri)
        invariant errors == old(errors) + AllMemberErrors(g, shaclList, nk, dt)
        invariant !lastListEntry ==> total == ListWalk(g, listUri, uri, shaclList)
        invariant lastListEntry ==> total == Walk(None, shaclList)
        decreases Reachable(g, listUri) - Elems(shaclList)
      {
        if uri.None? || uri.value.Literal? {
          errors := errors + [Exception(ShaclListConstraintError, WrongListType(uri))];
          AppendAssoc(old(errors), AllMemberErrors(g, shaclList, nk, dt), [Exception(ShaclListConstraintError, WrongListType(uri))]);
          return false;
        }
        if uri.value in shaclList {
          errors := errors + [Exception(ShaclListConstraintError, ListLoop(uri.value))];
          AppendAssoc(old(errors), AllMemberErrors(g, shaclList, nk, dt), [Exception(ShaclListConstraintError, ListLoop(uri.value))]);
          return false;
        }
        var u := uri.value;
        WalkNode(g, listUri, u, shaclList);
        ghost var before := AllMemberErrors(g, shaclList, nk, dt);
        MemberStep(g, shaclList, u, nk, dt);
        shaclList := shaclList + [u];
        CheckMember(u, nk, dt);
        AppendAssoc(old(errors), before, MemberErrors(g, u, nk, dt));
        if Value(g, u, RdfRest) == Some(RdfNil) {
          lastListEntry := true;
        }
        uri := Value(g, u, RdfRest);
      }
      assert AllMemberErrors(g, shaclList, nk, dt) + [] == AllMemberErrors(g, shaclList, nk, dt);
      return true;
    }

    /** The requested node-kind and datatype checks of one list node's member. */
    method CheckMember(u: Term, nk: Option<NodeKindType>, dt: Option<string>)
      modifies this`errors
      ensures errors == old(errors) + MemberErrors(g, u, nk, dt)
    {
      if nk.Some? {
        NodeKindConstraint(Value(g, u, RdfFirst), nk.value);
      }
      if dt.Some? {
        DatatypeConstraint(Value(g, u, RdfFirst), dt.value);
      }
    }

    method NodeKindConstraint(obj: Option<Term>, nk: NodeKindType)
      modifies this`errors
      ensures errors == old(errors) + NodeKindErrors(obj, nk)
    {
      var correctType := false;
      if nk.isUri && obj.Some? && obj.value.IRI? {
        correctType := true;
      }
      if nk.isBNode && obj.Some? && obj.value.BNode? {
        correctType := true;
      }
      if nk.isLiteral && obj.Some? && obj.value.Literal? {
        correctType := true;
      }
      if !correctType {
        errors := errors + [Exception(NodeKindConstraintError, WrongType(obj))];
      }
    }

    method DatatypeConstraint(obj: Option<Term>, dt: string)
      modifies this`errors
      ensures errors == old(errors) + DatatypeErrors(obj, dt)
    {
      if obj.Some? && obj.value.Literal? {
        if obj.value.datatypeIri != Some(dt) {
          errors := errors + [Exception(DataTypeConstraintError, WrongDatatype(obj))];
        }
      } else {
        errors := errors + [Exception(DataTypeConstraintError, WrongDatatype(obj))];
      }
    }

    /** `maxConstraint()` over the predicates of `table`, in order. */
    method MaxConstraint(table: seq<Term>)
      modifies this`errors
      ensures errors == old(errors) + MaxErrors(g, shapeUri, table)
    {
      for i := 0 to |table|
        invariant errors == old(errors) + MaxErrors(g, shapeUri, table[..i])
      {
        var p := table[i];
        MaxStep(g, shapeUri, table, i);
        if |Objects(g, shapeUri, p)| >= 2 {
          errors := errors + [Exception(MaxConstraintError, ConflictFor(p))];
        }
      }
      assert table[..|table|] == table;
    }

    method PropertyPathConstraints(pathUri: Term, ghost n: nat) returns (r: PathValue)
      requires PathBounded(g, pathUri, n)
      modifies this`errors
      ensures r == PathCheck(g, pathUri, n).value
      ensures errors == old(errors) + PathCheck(g, pathUri, n).errors
      decreases n
    {
      var newPathUri := Value(g, pathUri, RdfFirst);
      if newPathUri.Some? {
        r := ListPathConstraints(pathUri, n);
        return;
      }
      r := CombinatorPathConstraints(pathUri, n);
    }

    /** The list branch of `propertyPathConstraints`: the first member, then the rest of the list. */
    method ListPathConstraints(pathUri: Term, ghost n: nat) returns (r: PathValue)
      requires PathBounded(g, pathUri, n) && Value(g, pathUri, RdfFirst).Some?
      modifies this`errors
      ensures r == PathCheck(g, pathUri, n).value
      ensures errors == old(errors) + PathCheck(g, pathUri, n).errors
      decreases n, 1
    {
      var newPathUri := Value(g, pathUri, RdfFirst);
      PathCheckListNode(g, pathUri, n);
      var first := PropertyPathConstraints(newPathUri.value, n - 1);
      var rdfList := [first];
      if Value(g, pathUri, RdfRest) != Some(RdfNil) {
        ghost var firstErrors := PathCheck(g, newPathUri.value, n - 1).errors;
        ghost var listErrors := ShaclListErrors(g, pathUri, None, None);
        ghost var next := Value(g, pathUri, RdfRest);
        ghost var check := if next.None? then NoneCheck else PathCheck(g, next.value, n - 1);
        assert PathCheck(g, pathUri, n) == Checked(Cons(first, check.value), firstErrors + listErrors + check.errors);
        var rest := RestPathConstraints(pathUri, n);
        AppendAssoc(firstErrors, listErrors, check.errors);
        AppendAssoc(old(errors), firstErrors, listErrors + check.errors);
        if rest.PList? {
          rdfList := rdfList + rest.items;
        } else {
          rdfList := rdfList + [rest];
        }
      }
      r := PList(rdfList);
    }

    /** After the first member of a list node that does not end the list: the list check, then the rest. */
    method RestPathConstraints(pathUri: Term, ghost n: nat) returns (rest: PathValue)
      requires PathBounded(g, pathUri, n) && Value(g, pathUri, RdfFirst).Some?
      requires Value(g, pathUri, RdfRest) != Some(RdfNil)
      modifies this`errors
      ensures var next := Value(g, pathUri, RdfRest);
              next.Some? ==> PathBounded(g, next.value, n - 1)
      ensures var next := Value(g, pathUri, RdfRest);
              var check := if next.None? then NoneCheck else PathCheck(g, next.value, n - 1);
              rest == check.value && errors == old(errors) + (ShaclListErrors(g, pathUri, None, None) + check.errors)
      decreases n, 0
    {
      PathCheckListNode(g, pathUri, n);
      var _ := ShaclListConstraint(pathUri, None, None);
      var next := Value(g, pathUri, RdfRest);
      ghost var listErrors := ShaclListErrors(g, pathUri, None, None);
      ghost var restErrors;
      if next.None? {
        rest := NoneLeafConstraints();
        restErrors := NoneCheck.errors;
      } else {
        rest := PropertyPathConstraints(next.value, n - 1);
        restErrors := PathCheck(g, next.value, n - 1).errors;
      }
      AppendAssoc(old(errors), listErrors, restErrors);
    }

    /** The combinator and leaf branches of `propertyPathConstraints`, tried in source order. */
    method CombinatorPathConstraints(pathUri: Term, ghost n: nat) returns (r: PathValue)
      requires PathBounded(g, pathUri, n) && Value(g, pathUri, RdfFirst).None?
      modifies this`errors
      ensures r == PathCheck(g, pathUri, n).value
      ensures errors == old(errors) + PathCheck(g, pathUri, n).errors
      decreases n, 0
    {
      var altPath := Value(g, pathUri, ShAlternativePath);
      if altPath.Some? {
        PathCheckCombinator(g, pathUri, n, Alternative, altPath.value);
        var inner := PropertyPathConstraints(altPath.value, n - 1);
        return PDict(Alternative, inner);
      }
      var invPath := Value(g, pathUri, ShInversePath);
      if invPath.Some? {
        PathCheckCombinator(g, pathUri, n, Inverse, invPath.value);
        var inner := PropertyPathConstraints(invPath.value, n - 1);
        return PDict(Inverse, inner);
      }
      var zeroOrMorePath := Value(g, pathUri, ShZeroOrMorePath);
      if zeroOrMorePath.Some? {
        PathCheckCombinator(g, pathUri, n, ZeroOrMore, zeroOrMorePath.value);
        var inner := PropertyPathConstraints(zeroOrMorePath.value, n - 1);
        return PDict(ZeroOrMore, inner);
      }
      var oneOrMorePath := Value(g, pathUri, ShOneOrMorePath);
      if oneOrMorePath.Some? {
        PathCheckCombinator(g, pathUri, n, OneOrMore, oneOrMorePath.value);
        var inner := PropertyPathConstraints(oneOrMorePath.value, n - 1);
        return PDict(OneOrMore, inner);
      }
      var zeroOrOnePath := Value(g, pathUri, ShZeroOrOnePath);
      if zeroOrOnePath.Some? {
        PathCheckCombinator(g, pathUri, n, ZeroOrOne, zeroOrOnePath.value);
        var inner := PropertyPathConstraints(zeroOrOnePath.value, n - 1);
        return PDict(ZeroOrOne, inner);
      }
      if pathUri.IRI? {
        return PStr(pathUri.iri);
      }
      errors := errors + [Exception(PathError, PathNotIri(Some(pathUri)))];
      return PNone;
    }

    /**
     * `propertyPathConstraints(None)`: with the subject `None` rdflib's
     * `value` finds nothing, so every branch but the last is skipped.
     */
    method NoneLeafConstraints() returns (r: PathValue)
      modifies this`errors
      ensures r == NoneCheck.value
      ensures errors == old(errors) + NoneCheck.errors
    {
      errors := errors + [Exception(PathError, PathNotIri(None))];
      return PNone;
    }

    method CheckListAt(p: Term, nk: Option<NodeKindType>, dt: Option<string>)
      modifies this`errors
      ensures errors == old(errors) + ListCheckAt(g, shapeUri, p, nk, dt)
    {
      var val := Value(g, shapeUri, p);
      if val.Some? {
        var _ := ShaclListConstraint(val.value, nk, dt);
      }
    }

    method CheckKindsOf(p: Term, nk: NodeKindType)
      modifies this`errors
      ensures errors == old(errors) + KindErrorsAll(Objects(g, shapeUri, p), nk)
    {
      var objs := Objects(g, shapeUri, p);
      for i := 0 to |objs|
        invariant errors == old(errors) + KindErrorsAll(objs[..i], nk)
      {
        KindAllStep(objs, nk, i);
        NodeKindConstraint(Some(objs[i]), nk);
      }
      assert objs[..|objs|] == objs;
    }

    method CheckKindAt(p: Term, nk: NodeKindType)
      modifies this`errors
      ensures errors == old(errors) + KindErrorsAt(g, shapeUri, p, nk)
    {
      var val := Value(g, shapeUri, p);
      if val.Some? {
        NodeKindConstraint(val, nk);
      }
    }

    method CheckDatatypeAt(p: Term, dt: string)
      modifies this`errors
      ensures errors == old(errors) + DatatypeErrorsAt(g, shapeUri, p, dt)
    {
      var val := Value(g, shapeUri, p);
      if val.Some? {
        DatatypeConstraint(val, dt);
      }
    }

    method CheckMessages()
      modifies this`errors
      ensures errors == old(errors) + AllMessageErrors(Objects(g, shapeUri, ShMessage))
    {
      var msgs := Objects(g, shapeUri, ShMessage);
      for i := 0 to |msgs|
        invariant errors == old(errors) + AllMessageErrors(msgs[..i])
      {
        var stmt := msgs[i];
        MessageStep(msgs, i);
        if !stmt.Literal? {
          // reading the language tag of an IRI or blank node raises AttributeError
          errors := errors + [Exception(DataTypeConstraintError, WrongDatatype(Some(ShMessage)))];
        } else if stmt.language.None? {
          DatatypeConstraint(Some(stmt), XsdString);
        }
      }
      assert msgs[..|msgs|] == msgs;
    }

    method CheckNodeKindIn()
      modifies this`errors
      ensures errors == old(errors) + NodeKindInErrors(g, shapeUri)
    {
      var val := Value(g, shapeUri, ShNodeKind);
      if val.Some? {
        if val.value !in NodeKindValues {
          errors := errors + [Exception(ConstraintError, ConflictFor(ShNodeKind))];
        }
      }
    }

    method CheckPath()
      requires PathResolvable(g, shapeUri, depth)
      modifies this`errors
      ensures errors == old(errors) + PathErrors(g, shapeUri, depth)
    {
      var val := Value(g, shapeUri, ShPath);
      if val.Some? {
        var _ := PropertyPathConstraints(val.value, depth);
      }
    }

    method CheckLists()
      modifies this`errors
      ensures errors == old(errors) + ListPhase(g, shapeUri)
    {
      ghost var e0 := errors;
      ghost var a := ListCheckAt(g, shapeUri, ShLanguageIn, None, Some(XsdString));
      ghost var b := ListCheckAt(g, shapeUri, ShIgnoredProperties, Some(IriOnly), None);
      ghost var c := ListCheckAt(g, shapeUri, ShIn, None, None);
      CheckListAt(ShLanguageIn, None, Some(XsdString));
      CheckListAt(ShIgnoredProperties, Some(IriOnly), None);
      CheckListAt(ShIn, None, None);
      AppendAssoc(e0, a, b);
      AppendAssoc(e0, a + b, c);
    }

    /** One node-kind rule: every value of the predicate, or only its first. */
    method CheckKindRule(rule: KindRule)
      modifies this`errors
      ensures errors == old(errors) + KindErrorsFor(g, shapeUri, rule)
    {
      if rule.everyValue {
        CheckKindsOf(rule.pred, rule.kind);
      } else {
        CheckKindAt(rule.pred, rule.kind);
      }
    }

    method CheckKinds(rules: seq<KindRule>)
      modifies this`errors
      ensures errors == old(errors) + KindPhase(g, shapeUri, rules)
    {
      for i := 0 to |rules|
        invariant errors == old(errors) + KindPhase(g, shapeUri, rules[..i])
      {
        KindStep(g, shapeUri, rules, i);
        CheckKindRule(rules[i]);
        AppendAssoc(old(errors), KindPhase(g, shapeUri, rules[..i]), KindErrorsFor(g, shapeUri, rules[i]));
      }
      assert rules[..|rules|] == rules;
    }

    method CheckDatatypes(rules: seq<DatatypeRule>)
      modifies this`errors
      ensures errors == old(errors) + DatatypePhase(g, shapeUri, rules)
    {
      for i := 0 to |rules|
        invariant errors == old(errors) + DatatypePhase(g, shapeUri, rules[..i])
      {
        DatatypeStep(g, shapeUri, rules, i);
        CheckDatatypeAt(rules[i].pred, rules[i].datatypeIri);
      }
      assert rules[..|rules|] == rules;
    }

    /** `checkConstraints()`: only ever appends, phase after phase. */
    method CheckConstraints()
      requires PathResolvable(g, shapeUri, depth)
      modifies this`errors
      ensures errors == old(errors) + ListPhase(g, shapeUri) + KindPhase(g, shapeUri, KindTable) +
                        MaxErrors(g, shapeUri, MaxTable) + AllMessageErrors(Objects(g, shapeUri, ShMessage)) +
                        DatatypePhase(g, shapeUri, DatatypeTable) + NodeKindInErrors(g, shapeUri) +
                        PathErrors(g, shapeUri, depth)
    {
      CheckLists();
      CheckKinds(KindTable);
      MaxConstraint(MaxTable);
      CheckMessages();
      CheckDatatypes(DatatypeTable);
      CheckNodeKindIn();
      CheckPath();
    }
  }
}
