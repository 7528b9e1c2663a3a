/**
 * `ShapeParser`: reads every shape of a shapes graph into a WellFormedShape.
 * For one shape the builder first runs the well-formedness checks, then
 * walks the SHACL predicates in a fixed order: it copies values into
 * attributes, sets the matching `isSet` flags, walks RDF lists, collects the
 * messages by language and recurses into nested property, qualified-value
 * and group shapes, adding their errors to its own.
 *
 * The builder is specified by `BuildShape`, a chain of one step per source
 * block grouped in five phases; each step is a small function, and each
 * method of the `ShapeParser` class performs one step on a shape object.
 */
module ShapeParsing {
  import opened Rdf
  import Exceptions
  import opened PropertyPath
  import ConstraintCheck
  import opened Python
  import opened Shapes

  // What one block of the builder does to a shape

  /** What the builder appends for an object: its string, or the term itself. */
  function Item(t: Term, raw: bool): Attr {
    if raw then ATerm(t) else AStr(Str(t))
  }

  function Items(ts: seq<Term>, raw: bool): (r: seq<Attr>)
    ensures |r| == |ts|
  {
    if ts == [] then [] else Items(ts[..|ts| - 1], raw) + [Item(ts[|ts| - 1], raw)]
  }

  /** Lines 95-97: the shape's own name, unless it is a blank node. */
  function MarkUri(s: Shape, t: Term): Shape {
    if IsBlank(t) then s else Assign(Mark(s, Uri), Uri, AStr(Str(t)))
  }

  /** A `for stmt in objects(shape, p)` block: flag `k`, append each object to `f`. */
  function AppendEach(s: Shape, k: Field, f: Field, objs: seq<Term>, raw: bool): Shape
    decreases |objs|
  {
    if objs == [] then s
    else
      var s' := AppendEach(s, k, f, objs[..|objs| - 1], raw);
      Append(Mark(s', k), f, Item(objs[|objs| - 1], raw))
  }

  /** What a list walk appends for a list node: its `rdf:first`, as a string or as the term. */
  function FirstItem(g: Graph, node: Term, raw: bool): Attr {
    var first := Value(g, node, RdfFirst);
    if !raw then AStr(PyStr(first))
    else if first.Some? then ATerm(first.value)
    else ANone
  }

  function FirstItems(g: Graph, nodes: seq<Term>, raw: bool): (r: seq<Attr>)
    ensures |r| == |nodes|
  {
    if nodes == [] then [] else FirstItems(g, nodes[..|nodes| - 1], raw) + [FirstItem(g, nodes[|nodes| - 1], raw)]
  }

  /** The list value of `p`, when present, ends in `rdf:nil` within `n` steps. */
  ghost predicate ListHeadBounded(g: Graph, t: Term, p: Term, n: nat) {
    match Value(g, t, p)
    case None => true
    case Some(head) => ListBounded(g, head, n)
  }

  /** Appending `items` one at a time to the list attribute `f`. */
  function AppendItems(s: Shape, f: Field, items: seq<Attr>): Shape
    decreases |items|
  {
    if items == [] then s
    else
      var s' := AppendItems(s, f, items[..|items| - 1]);
      Append(s', f, items[|items| - 1])
  }

  /**
   * A list block (`ignoredProperties`, `languageIn`, `sh:in`): when the
   * list is present, flag `k` and append the `rdf:first` of every list node.
   */
  function ReadList(g: Graph, s: Shape, t: Term, p: Term, k: Field, f: Field, raw: bool, ghost n: nat): Shape
    requires ListHeadBounded(g, t, p, n)
  {
    match Value(g, t, p)
    case None => s
    case Some(h) => AppendItems(Mark(s, k), f, FirstItems(g, ListNodes(g, h, n), raw))
  }

  /** The messages collected so far (the attribute starts as `{}`). */
  function MessageMap(s: Shape): map<string, string> {
    if Message in s.attrs && s.attrs[Message].AMessages? then s.attrs[Message].messages else map[]
  }

  /** The key a message is stored under: its language, or `'default'`. */
  function MessageKey(t: Term): string
    requires t.Literal?
  {
    if t.language.None? then "default" else t.language.value
  }

  /**
   * Lines 130-135: each message is stored under its key, later ones
   * overwriting earlier ones; reading the language of a term that is not
   * a literal raises.
   */
  function AddMessages(s: Shape, objs: seq<Term>): Result<Shape>
    decreases |objs|
  {
    if objs == [] then Success(s)
    else
      var s' :- AddMessages(s, objs[..|objs| - 1]);
      AddMessage(s', objs[|objs| - 1])
  }

  /** One iteration of lines 131-135. */
  function AddMessage(s: Shape, t: Term): Result<Shape> {
    if !t.Literal? then Failure(NoLanguage(t))
    else Success(Assign(Mark(s, Message), Message, AMessages(MessageMap(s)[MessageKey(t) := Str(t)])))
  }

  /** A single-value block stored as a string. */
  function SetStr(s: Shape, k: Field, f: Field, v: Option<Term>): Shape {
    match v
    case None => s
    case Some(x) => Assign(Mark(s, k), f, AStr(Str(x)))
  }

  /** A single-value block stored through `int()`, which may raise. */
  function SetInt(s: Shape, k: Field, f: Field, v: Option<Term>): Result<Shape> {
    match v
    case None => Success(s)
    case Some(x) =>
      var i :- IntOf(x);
      Success(Assign(Mark(s, k), f, AInt(i)))
  }

  /** A boolean block: flag `k` whenever present, set `f` to True only for the text "true". */
  function SetFlag(s: Shape, k: Field, f: Field, v: Option<Term>): Shape {
    match v
    case None => s
    case Some(x) => if IsTrue(x) then Assign(Mark(s, k), f, ABool(true)) else Mark(s, k)
  }

  /** Lines 155-158: the resolved property path. */
  function SetPath(g: Graph, s: Shape, t: Term, ghost n: nat): Shape
    requires ConstraintCheck.PathResolvable(g, t, n)
  {
    match Value(g, t, ShPath)
    case None => s
    case Some(x) => Assign(Mark(s, Path), Path, APath(GetPropertyPath(g, x, n)))
  }

  /** A nested shape, when present, can be built within the bound `n`. */
  ghost predicate NestedBounded(g: Graph, t: Term, p: Term, n: nat)
    decreases n, 0
  {
    match Value(g, t, p)
    case None => true
    case Some(v) => n > 0 && ShapeBounded(g, v, n - 1)
  }

  /** Every `sh:property` shape of `t` can be built within `n - 1`. */
  ghost predicate PropertiesBounded(g: Graph, t: Term, n: nat)
    decreases n, 0
  {
    var objs := Objects(g, t, ShProperty);
    n > 0 && forall i :: 0 <= i < |objs| ==> ShapeBounded(g, objs[i], n - 1)
  }

  /**
   * The builder terminates on `t` within the bound `n`: the path resolves,
   * the lists end in `rdf:nil`, and the nested shapes are bounded by `n - 1`.
   * The source has no cycle guard; this is what it needs of the graph.
   */
  ghost predicate ShapeBounded(g: Graph, t: Term, n: nat)
    decreases n, 1
  {
    n > 0 &&
    ConstraintCheck.PathResolvable(g, t, n) &&
    ListHeadBounded(g, t, ShIgnoredProperties, n) &&
    ListHeadBounded(g, t, ShLanguageIn, n) &&
    ListHeadBounded(g, t, Rdf.ShIn, n) &&
    PropertiesBounded(g, t, n) &&
    NestedBounded(g, t, ShQualifiedValueShape, n) &&
    NestedBounded(g, t, ShGroup, n)
  }

  /** Lines 148-153: build each property shape, add its errors, append it. */
  function AddProperties(g: Graph, s: Shape, objs: seq<Term>, ghost n: nat): Result<Shape>
    requires n > 0 && forall i :: 0 <= i < |objs| ==> ShapeBounded(g, objs[i], n - 1)
    decreases n, 1, |objs|
  {
    if objs == [] then Success(s)
    else
      var s' :- AddProperties(g, s, objs[..|objs| - 1], n);
      var child :- BuildShape(g, objs[|objs| - 1], n - 1);
      Success(Append(AddErrors(Mark(s', Property), child.errors), Properties, AShape(child)))
  }

  /** Storing a nested shape under `k` and adding its errors, or passing on what building it raised. */
  function Nest(s: Shape, k: Field, child: Result<Shape>): Result<Shape> {
    var c :- child;
    Success(AddErrors(Assign(Mark(s, k), k, AShape(c)), c.errors))
  }

  /** Lines 294-298 and 317-321: build the nested shape, store it, add its errors. */
  function SetNested(g: Graph, s: Shape, t: Term, p: Term, k: Field, ghost n: nat): Result<Shape>
    requires NestedBounded(g, t, p, n)
    decreases n, 1, 0
  {
    match Value(g, t, p)
    case None => Success(s)
    case Some(x) => Nest(s, k, BuildShape(g, x, n - 1))
  }

  // The builder, phase by phase, in the order of the source

  /** Lines 87-90: a new WellFormedShape carrying the well-formedness errors. */
  function Start(g: Graph, t: Term, ghost n: nat): Shape
    requires ConstraintCheck.PathResolvable(g, t, n)
  {
    Shape(WellFormedDefaults, Unset(WellFormedDefaults.Keys), ConstraintCheck.CheckConstraintsErrors(g, t, n))
  }

  /** Lines 95-128. */
  function Targets(g: Graph, t: Term, s: Shape, ghost n: nat): Shape
    requires ListHeadBounded(g, t, ShIgnoredProperties, n)
  {
    var s1 := MarkUri(s, t);
    var s2 := AppendEach(s1, TargetClass, TargetClass, Objects(g, t, ShTargetClass), false);
    var s3 := AppendEach(s2, TargetNode, TargetNode, Objects(g, t, ShTargetNode), false);
    var s4 := AppendEach(s3, TargetObjectsOf, TargetObjectsOf, Objects(g, t, ShTargetObjectsOf), false);
    var s5 := AppendEach(s4, TargetSubjectsOf, TargetSubjectsOf, Objects(g, t, ShTargetSubjectsOf), false);
    ReadList(g, s5, t, ShIgnoredProperties, IgnoredProperties, IgnoredProperties, false, n)
  }

  /** Lines 130-158. */
  function Descriptive(g: Graph, t: Term, s: Shape, ghost n: nat): Result<Shape>
    requires n > 0 && ConstraintCheck.PathResolvable(g, t, n)
    requires PropertiesBounded(g, t, n)
    decreases n, 2
  {
    var s1 :- AddMessages(s, Objects(g, t, ShMessage));
    var s2 := SetStr(s1, NodeKind, NodeKind, Value(g, t, ShNodeKind));
    var s3 := SetFlag(s2, Closed, Closed, Value(g, t, ShClosed));
    var s4 :- AddProperties(g, s3, Objects(g, t, ShProperty), n);
    Success(SetPath(g, s4, t, n))
  }

  /** Lines 160-227; `sh:maxInclusive` goes to the attribute `maxInclusive`, not `MaxInclusive`. */
  function Values(g: Graph, t: Term, s: Shape): Result<Shape> {
    var s1 := AppendEach(s, Classes, Classes, Objects(g, t, ShClass), false);
    var s2 := SetStr(s1, Name, Name, Value(g, t, ShName));
    var s3 := SetStr(s2, Description, Description, Value(g, t, ShDescription));
    var s4 := SetStr(s3, Datatype, Datatype, Value(g, t, ShDatatype));
    var s5 :- SetInt(s4, MinCount, MinCount, Value(g, t, ShMinCount));
    var s6 :- SetInt(s5, MaxCount, MaxCount, Value(g, t, ShMaxCount));
    var s7 :- SetInt(s6, MinExclusive, MinExclusive, Value(g, t, ShMinExclusive));
    var s8 :- SetInt(s7, MinInclusive, MinInclusive, Value(g, t, ShMinInclusive));
    var s9 :- SetInt(s8, MaxExclusive, MaxExclusive, Value(g, t, ShMaxExclusive));
    var s10 :- SetInt(s9, maxInclusive, maxInclusive, Value(g, t, ShMaxInclusive));
    var s11 :- SetInt(s10, MinLength, MinLength, Value(g, t, ShMinLength));
    var s12 :- SetInt(s11, MaxLength, MaxLength, Value(g, t, ShMaxLength));
    var s13 := SetStr(s12, Pattern, Pattern, Value(g, t, ShPattern));
    Success(SetStr(s13, Flags, Flags, Value(g, t, ShFlags)))
  }

  /** Lines 229-291. */
  function Lists(g: Graph, t: Term, s: Shape, ghost n: nat): Result<Shape>
    requires ListHeadBounded(g, t, ShLanguageIn, n) && ListHeadBounded(g, t, Rdf.ShIn, n)
  {
    var s1 := ReadList(g, s, t, ShLanguageIn, LanguageIn, LanguageIn, false, n);
    var s2 := SetFlag(s1, UniqueLang, UniqueLang, Value(g, t, ShUniqueLang));
    var s3 := AppendEach(s2, Equals, Equals, Objects(g, t, ShEquals), false);
    var s4 := AppendEach(s3, Disjoint, Disjoint, Objects(g, t, ShDisjoint), false);
    var s5 := AppendEach(s4, LessThan, LessThan, Objects(g, t, ShLessThan), false);
    var s6 := AppendEach(s5, LessThanOrEquals, LessThanOrEquals, Objects(g, t, ShLessThanOrEquals), false);
    var s7 := AppendEach(s6, Nodes, Nodes, Objects(g, t, ShNode), false);
    var s8 := AppendEach(s7, HasValue, HasValue, Objects(g, t, ShHasValue), true);
    var s9 := ReadList(g, s8, t, Rdf.ShIn, ShIn, ShIn, true, n);
    SetInt(s9, Order, Order, Value(g, t, ShOrder))
  }

  /** Lines 294-321. */
  function Qualified(g: Graph, t: Term, s: Shape, ghost n: nat): Result<Shape>
    requires NestedBounded(g, t, ShQualifiedValueShape, n) && NestedBounded(g, t, ShGroup, n)
    decreases n, 2
  {
    var s1 :- SetNested(g, s, t, ShQualifiedValueShape, QualifiedValueShape, n);
    var s2 := SetFlag(s1, QualifiedValueShapesDisjoint, QualifiedValueShapesDisjoint, Value(g, t, ShQualifiedValueShapesDisjoint));
    var s3 :- SetInt(s2, QualifiedMinCount, QualifiedMinCount, Value(g, t, ShQualifiedMinCount));
    var s4 :- SetInt(s3, QualifiedMaxCount, QualifiedMaxCount, Value(g, t, ShQualifiedMaxCount));
    SetNested(g, s4, t, ShGroup, Group, n)
  }

  /** `parseWellFormedShape(t)`: the built shape, or the exception that escapes. */
  function BuildShape(g: Graph, t: Term, ghost n: nat): Result<Shape>
    requires ShapeBounded(g, t, n)
    decreases n, 4
  {
    Fill(g, t, Start(g, t, n), n)
  }

  /** Lines 95-321: every block in turn, on the shape `s` made at lines 87-90. */
  function Fill(g: Graph, t: Term, s: Shape, ghost n: nat): Result<Shape>
    requires ShapeBounded(g, t, n)
    decreases n, 3
  {
    var s1 := Targets(g, t, s, n);
    var s2 :- Descriptive(g, t, s1, n);
    var s3 :- Values(g, t, s2);
    var s4 :- Lists(g, t, s3, n);
    Qualified(g, t, s4, n)
  }


  /** Lines 32-34: every root's shape stored under `str(root)`, in order; an exception ends the loop. */
  function StoreAll(g: Graph, stored: map<string, Shape>, roots: seq<Term>, ghost n: nat): Result<map<string, Shape>>
    requires forall i :: 0 <= i < |roots| ==> ShapeBounded(g, roots[i], n)
    decreases |roots|
  {
    if roots == [] then Success(stored)
    else
      var m :- StoreAll(g, stored, roots[..|roots| - 1], n);
      var shape :- BuildShape(g, roots[|roots| - 1], n);
      Success(m[Str(roots[|roots| - 1]) := shape])
  }

  /**
   * What the query of lines 45-55 selects: a subject that is never an
   * object, or an object of `sh:node`.
   */
  ghost predicate IsRoot(g: Graph, t: Term) {
    ((exists tr :: tr in g && tr.s == t) && (forall tr :: tr in g ==> tr.o != t)) ||
    (exists tr :: tr in g && tr.p == ShNode && tr.o == t)
  }

  /** `roots` lists the query's answer, each root once (`SELECT DISTINCT`). */
  ghost predicate RootsOf(g: Graph, roots: seq<Term>) {
    (forall i, j :: 0 <= i < j < |roots| ==> roots[i] != roots[j]) &&
    (forall t :: t in roots <==> IsRoot(g, t))
  }

  /** Lines 72-76: nothing points at `t` through `sh:property`, `rdf:first` or `sh:not`. */
  ghost predicate Unreferenced(g: Graph, t: Term) {
    forall s :: Triple(s, ShProperty, t) !in g && Triple(s, RdfFirst, t) !in g && Triple(s, ShNot, t) !in g
  }

  /** One subject of the candidate loop: it is kept exactly when nothing references it. */
  lemma CandidateStep(g: Graph, r: set<Term>, visited: seq<Term>, t: Term)
    requires forall u :: u in r <==> u in visited && Unreferenced(g, u)
    ensures var keep := SubjectValue(g, ShProperty, t).None? && SubjectValue(g, RdfFirst, t).None? && SubjectValue(g, ShNot, t).None?;
      keep == Unreferenced(g, t) &&
      forall u :: u in (if keep then r + {t} else r) <==> u in visited + [t] && Unreferenced(g, u)
  {
  }

  // Unfolding one more step of the folds, for the loops below

  lemma AppendEachNext(s: Shape, k: Field, f: Field, objs: seq<Term>, i: nat, raw: bool)
    requires i < |objs|
    ensures AppendEach(s, k, f, objs[..i + 1], raw) == Append(Mark(AppendEach(s, k, f, objs[..i], raw), k), f, Item(objs[i], raw))
  {
    assert objs[..i + 1][..i] == objs[..i];
  }

  lemma AppendItemsNext(s: Shape, f: Field, items: seq<Attr>, x: Attr)
    ensures AppendItems(s, f, items + [x]) == Append(AppendItems(s, f, items), f, x)
  {
    assert (items + [x])[..|items|] == items;
  }

  lemma FirstItemsNext(g: Graph, nodes: seq<Term>, node: Term, raw: bool)
    ensures FirstItems(g, nodes + [node], raw) == FirstItems(g, nodes, raw) + [FirstItem(g, node, raw)]
  {
    assert (nodes + [node])[..|nodes|] == nodes;
  }

  lemma AddMessagesNext(s: Shape, objs: seq<Term>, i: nat)
    requires i < |objs| && AddMessages(s, objs[..i]).Success?
    ensures AddMessages(s, objs[..i + 1]) == AddMessage(AddMessages(s, objs[..i]).value, objs[i])
  {
    assert objs[..i + 1][..i] == objs[..i];
  }

  lemma {:induction false} AppendItemsFront(s: Shape, f: Field, x: Attr, items: seq<Attr>)
    ensures AppendItems(s, f, [x] + items) == AppendItems(Append(s, f, x), f, items)
    decreases |items|
  {
    if items != [] {
      var front := items[..|items| - 1];
      var y := items[|items| - 1];
      assert [x] + items == ([x] + front) + [y];
      assert items == front + [y];
      AppendItemsNext(s, f, [x] + front, y);
      AppendItemsFront(s, f, x, front);
      AppendItemsNext(Append(s, f, x), f, front, y);
    }
  }

  lemma {:induction false} FirstItemsFront(g: Graph, node: Term, nodes: seq<Term>, raw: bool)
    ensures FirstItems(g, [node] + nodes, raw) == [FirstItem(g, node, raw)] + FirstItems(g, nodes, raw)
    decreases |nodes|
  {
    if nodes == [] {
      FirstItemsNext(g, [], node, raw);
    } else {
      var front := nodes[..|nodes| - 1];
      var last := nodes[|nodes| - 1];
      assert [node] + nodes == ([node] + front) + [last];
      assert nodes == front + [last];
      ghost var x := FirstItem(g, node, raw);
      ghost var y := FirstItem(g, last, raw);
      FirstItemsNext(g, [node] + front, last, raw);
      FirstItemsFront(g, node, front, raw);
      FirstItemsNext(g, front, last, raw);
      AttrsAssoc([x], FirstItems(g, front, raw), [y]);
    }
  }

  lemma AttrsAssoc(a: seq<Attr>, b: seq<Attr>, c: seq<Attr>)
    ensures (a + b) + c == a + (b + c)
  {
  }

  /**
   * Walking a list from `node`: its item is appended first, then the walk
   * goes on from its `rdf:rest` unless that is `rdf:nil`.
   */
  lemma WalkListFrom(g: Graph, s: Shape, f: Field, node: Term, n: nat, raw: bool)
    requires ListBounded(g, node, n)
    ensures Value(g, node, RdfRest).Some?
    ensures var next := Value(g, node, RdfRest).value;
      var walked := AppendItems(s, f, FirstItems(g, ListNodes(g, node, n), raw));
      var s' := Append(s, f, FirstItem(g, node, raw));
      (next == RdfNil ==> walked == s') &&
      (next != RdfNil ==>
        n > 1 && ListBounded(g, next, n - 1) && walked == AppendItems(s', f, FirstItems(g, ListNodes(g, next, n - 1), raw)))
  {
    ListNodesNext(g, node, n);
    var next := Value(g, node, RdfRest).value;
    if next == RdfNil {
      FirstItemsFront(g, node, [], raw);
      AppendItemsFront(s, f, FirstItem(g, node, raw), []);
      assert [node] + [] == [node];
      assert [FirstItem(g, node, raw)] + [] == [FirstItem(g, node, raw)];
    } else {
      FirstItemsFront(g, node, ListNodes(g, next, n - 1), raw);
      AppendItemsFront(s, f, FirstItem(g, node, raw), FirstItems(g, ListNodes(g, next, n - 1), raw));
    }
  }

  /** Once a message raises, the rest of the block is never reached. */
  lemma {:induction false} AddMessagesFailed(s: Shape, objs: seq<Term>, i: nat)
    requires i <= |objs| && AddMessages(s, objs[..i]).Failure?
    ensures AddMessages(s, objs) == AddMessages(s, objs[..i])
    decreases |objs|
  {
    if i < |objs| {
      var front := objs[..|objs| - 1];
      assert front[..i] == objs[..i];
      AddMessagesFailed(s, front, i);
    } else {
      assert objs[..i] == objs;
    }
  }

  lemma AddPropertiesNext(g: Graph, s: Shape, objs: seq<Term>, i: nat, n: nat)
    requires n > 0 && forall j :: 0 <= j < |objs| ==> ShapeBounded(g, objs[j], n - 1)
    requires i < |objs| && AddProperties(g, s, objs[..i], n).Success?
    ensures AddProperties(g, s, objs[..i + 1], n) ==
      var prev := AddProperties(g, s, objs[..i], n).value;
      match BuildShape(g, objs[i], n - 1)
      case Failure(e) => Failure(e)
      case Success(child) => Success(Append(AddErrors(Mark(prev, Property), child.errors), Properties, AShape(child)))
  {
    assert objs[..i + 1][..i] == objs[..i];
  }

  /** Once a property shape raises, the rest of the block is never reached. */
  lemma {:induction false} AddPropertiesFailed(g: Graph, s: Shape, objs: seq<Term>, i: nat, n: nat)
    requires n > 0 && forall j :: 0 <= j < |objs| ==> ShapeBounded(g, objs[j], n - 1)
    requires i <= |objs| && AddProperties(g, s, objs[..i], n).Failure?
    ensures AddProperties(g, s, objs, n) == AddProperties(g, s, objs[..i], n)
    decreases |objs|
  {
    if i < |objs| {
      var front := objs[..|objs| - 1];
      assert front[..i] == objs[..i];
      AddPropertiesFailed(g, s, front, i, n);
      AddPropertiesFailedFront(g, s, objs, n);
    } else {
      assert objs[..i] == objs;
    }
  }

  lemma AddPropertiesFailedFront(g: Graph, s: Shape, objs: seq<Term>, n: nat)
    requires n > 0 && forall j :: 0 <= j < |objs| ==> ShapeBounded(g, objs[j], n - 1)
    requires objs != [] && AddProperties(g, s, objs[..|objs| - 1], n).Failure?
    ensures AddProperties(g, s, objs, n) == AddProperties(g, s, objs[..|objs| - 1], n)
  {
  }

  lemma StoreAllFailedFront(g: Graph, stored: map<string, Shape>, roots: seq<Term>, n: nat)
    requires forall j :: 0 <= j < |roots| ==> ShapeBounded(g, roots[j], n)
    requires roots != [] && StoreAll(g, stored, roots[..|roots| - 1], n).Failure?
    ensures StoreAll(g, stored, roots, n) == StoreAll(g, stored, roots[..|roots| - 1], n)
  {
  }

  /** Once a root raises, no later root is stored. */
  lemma {:induction false} StoreAllFailed(g: Graph, stored: map<string, Shape>, roots: seq<Term>, i: nat, n: nat)
    requires forall j :: 0 <= j < |roots| ==> ShapeBounded(g, roots[j], n)
    requires i <= |roots| && StoreAll(g, stored, roots[..i], n).Failure?
    ensures StoreAll(g, stored, roots, n) == StoreAll(g, stored, roots[..i], n)
    decreases |roots|
  {
    if i < |roots| {
      var front := roots[..|roots| - 1];
      assert front[..i] == roots[..i];
      StoreAllFailed(g, stored, front, i, n);
      StoreAllFailedFront(g, stored, roots, n);
    } else {
      assert roots[..i] == roots;
    }
  }

  /** One step along a bounded list: `rdf:nil` ends it, any other `rdf:rest` continues it. */
  lemma ListNodesNext(g: Graph, node: Term, n: nat)
    requires ListBounded(g, node, n)
    ensures Value(g, node, RdfRest).Some?
    ensures Value(g, node, RdfRest) == Some(RdfNil) ==> ListNodes(g, node, n) == [node]
    ensures Value(g, node, RdfRest) != Some(RdfNil) ==>
      n > 1 && ListBounded(g, Value(g, node, RdfRest).value, n - 1) &&
      ListNodes(g, node, n) == [node] + ListNodes(g, Value(g, node, RdfRest).value, n - 1)
  {
  }

  // The parser object

  /** The result of a step that may raise, paired with the shape it leaves. */
  function Outcome(r: Result<()>, s: Shape): Result<Shape> {
    if r.Success? then Success(s) else Failure(r.error)
  }

  class ShapeParser {
    const g: Graph
    /** `wellFormedShapes`, keyed by `str(uri)`; each shape is stored as it stands when built. */
    var wellFormedShapes: map<string, Shape>

    /** A parser over an already parsed graph. */
    constructor (graph: Graph)
      ensures g == graph && wellFormedShapes == map[]
    {
      g := graph;
      wellFormedShapes := map[];
    }

    /** Lines 95-97. */
    method MarkUriOn(shape: WellFormedShape, t: Term)
      modifies shape
      ensures shape.Snapshot() == MarkUri(old(shape.Snapshot()), t)
    {
      if !IsBlank(t) {
        shape.SetIsSet(Uri);
        shape.SetAttr(Uri, AStr(Str(t)));
      }
    }

    /** A `for stmt in objects(t, p)` block that appends every object to `f`. */
    method AppendEachOn(shape: WellFormedShape, t: Term, p: Term, k: Field, f: Field, raw: bool)
      modifies shape
      ensures shape.Snapshot() == AppendEach(old(shape.Snapshot()), k, f, Objects(g, t, p), raw)
    {
      var objs := Objects(g, t, p);
      ghost var s0 := shape.Snapshot();
      for i := 0 to |objs|
        invariant shape.Snapshot() == AppendEach(s0, k, f, objs[..i], raw)
      {
        AppendEachNext(s0, k, f, objs, i, raw);
        shape.SetIsSet(k);
        shape.AppendTo(f, Item(objs[i], raw));
      }
      assert objs[..|objs|] == objs;
    }

    /** The list walks of lines 115-128, 229-242 and 274-286. */
    method ReadListOn(shape: WellFormedShape, t: Term, p: Term, k: Field, f: Field, raw: bool, ghost n: nat)
      requires ListHeadBounded(g, t, p, n)
      modifies shape
      ensures shape.Snapshot() == ReadList(g, old(shape.Snapshot()), t, p, k, f, raw, n)
    {
      var val := Value(g, t, p);
      if val.None? {
        return;
      }
      shape.SetIsSet(k);
      WalkListOn(shape, val.value, f, raw, n);
    }

    /** The `while` loop of a list block: append the `rdf:first` of every node from `head` to `rdf:nil`. */
    method WalkListOn(shape: WellFormedShape, head: Term, f: Field, raw: bool, ghost n: nat)
      requires ListBounded(g, head, n)
      modifies shape
      ensures shape.Snapshot() == AppendItems(old(shape.Snapshot()), f, FirstItems(g, ListNodes(g, head, n), raw))
    {
      ghost var goal := AppendItems(shape.Snapshot(), f, FirstItems(g, ListNodes(g, head, n), raw));
      var node := head;
      var lastListEntry := false;
      ghost var m := n;
      while !lastListEntry
        invariant !lastListEntry ==> WalkRemains(shape.Snapshot(), node, f, raw, m, goal)
        invariant lastListEntry ==> shape.Snapshot() == goal
        decreases m
      {
        lastListEntry, node := WalkNodeOn(shape, node, f, raw, m, goal);
        m := m - 1;
      }
    }

    /** Walking the rest of the list from `node` on `s` would give `goal`. */
    ghost predicate WalkRemains(s: Shape, node: Term, f: Field, raw: bool, m: nat, goal: Shape) {
      ListBounded(g, node, m) && AppendItems(s, f, FirstItems(g, ListNodes(g, node, m), raw)) == goal
    }

    /** One iteration of that loop: append the `rdf:first` of `node` and move to its `rdf:rest`. */
    method WalkNodeOn(shape: WellFormedShape, node: Term, f: Field, raw: bool, ghost m: nat, ghost goal: Shape)
      returns (lastListEntry: bool, next: Term)
      requires WalkRemains(shape.Snapshot(), node, f, raw, m, goal)
      modifies shape
      ensures lastListEntry ==> shape.Snapshot() == goal
      ensures !lastListEntry ==> m > 1 && WalkRemains(shape.Snapshot(), next, f, raw, m - 1, goal)
    {
      ghost var s := shape.Snapshot();
      var rest := Value(g, node, RdfRest);
      WalkListFrom(g, s, f, node, m, raw);
      lastListEntry := rest == Some(RdfNil);
      next := rest.value;
      shape.AppendTo(f, FirstItem(g, node, raw));
    }

    /** Lines 130-135. */
    method AddMessagesOn(shape: WellFormedShape, t: Term) returns (r: Result<()>)
      modifies shape
      ensures Outcome(r, shape.Snapshot()) == AddMessages(old(shape.Snapshot()), Objects(g, t, ShMessage))
    {
      var objs := Objects(g, t, ShMessage);
      ghost var s0 := shape.Snapshot();
      for i := 0 to |objs|
        invariant AddMessages(s0, objs[..i]) == Success(shape.Snapshot())
      {
        r := AddMessageAt(shape, s0, objs, i);
        if r.Failure? {
          return;
        }
      }
      assert objs[..|objs|] == objs;
      return Success(());
    }

    /** One iteration of that loop, on the i-th message. */
    method AddMessageAt(shape: WellFormedShape, ghost s0: Shape, objs: seq<Term>, i: nat) returns (r: Result<()>)
      requires i < |objs| && AddMessages(s0, objs[..i]) == Success(shape.Snapshot())
      modifies shape
      ensures r.Success? ==> AddMessages(s0, objs[..i + 1]) == Success(shape.Snapshot())
      ensures r.Failure? ==> Outcome(r, shape.Snapshot()) == AddMessages(s0, objs)
    {
      AddMessagesNext(s0, objs, i);
      r := AddMessageOn(shape, objs[i]);
      if r.Failure? {
        AddMessagesFailed(s0, objs, i + 1);
      }
    }

    /** Lines 131-135 for one message. */
    method AddMessageOn(shape: WellFormedShape, stmt: Term) returns (r: Result<()>)
      modifies shape
      ensures Outcome(r, shape.Snapshot()) == AddMessage(old(shape.Snapshot()), stmt)
    {
      shape.SetIsSet(Message);
      if !stmt.Literal? {
        return Failure(NoLanguage(stmt));
      }
      shape.SetAttr(Message, AMessages(MessageMap(shape.Snapshot())[MessageKey(stmt) := Str(stmt)]));
      return Success(());
    }

    /** A single-value block stored through `str()`. */
    method SetStrOn(shape: WellFormedShape, t: Term, p: Term, k: Field, f: Field)
      modifies shape
      ensures shape.Snapshot() == SetStr(old(shape.Snapshot()), k, f, Value(g, t, p))
    {
      var val := Value(g, t, p);
      if val.Some? {
        shape.SetIsSet(k);
        shape.SetAttr(f, AStr(Str(val.value)));
      }
    }

    /** A single-value block stored through `int()`. */
    method SetIntOn(shape: WellFormedShape, t: Term, p: Term, k: Field, f: Field) returns (r: Result<()>)
      modifies shape
      ensures Outcome(r, shape.Snapshot()) == SetInt(old(shape.Snapshot()), k, f, Value(g, t, p))
    {
      var val := Value(g, t, p);
      ghost var s0 := shape.Snapshot();
      if val.Some? {
        shape.SetIsSet(k);
        var i := IntOf(val.value);
        if i.Failure? {
          assert SetInt(s0, k, f, val) == Failure(i.error);
          return Failure(i.error);
        }
        shape.SetAttr(f, AInt(i.value));
        assert SetInt(s0, k, f, val) == Success(Assign(Mark(s0, k), f, AInt(i.value)));
      } else {
        assert SetInt(s0, k, f, val) == Success(s0);
      }
      return Success(());
    }

    /** A boolean block: lines 142-146, 244-248 and 300-304. */
    method SetFlagOn(shape: WellFormedShape, t: Term, p: Term, k: Field, f: Field)
      modifies shape
      ensures shape.Snapshot() == SetFlag(old(shape.Snapshot()), k, f, Value(g, t, p))
    {
      var val := Value(g, t, p);
      ghost var s0 := shape.Snapshot();
      if val.Some? {
        shape.SetIsSet(k);
        if IsTrue(val.value) {
          shape.SetAttr(f, ABool(true));
          assert SetFlag(s0, k, f, val) == Assign(Mark(s0, k), f, ABool(true));
        } else {
          assert SetFlag(s0, k, f, val) == Mark(s0, k);
        }
      }
    }

    /** Lines 155-158. */
    method SetPathOn(shape: WellFormedShape, t: Term, ghost n: nat)
      requires ConstraintCheck.PathResolvable(g, t, n)
      modifies shape
      ensures shape.Snapshot() == SetPath(g, old(shape.Snapshot()), t, n)
    {
      var pathStart := Value(g, t, ShPath);
      if pathStart.Some? {
        shape.SetIsSet(Path);
        shape.SetAttr(Path, APath(GetPropertyPath(g, pathStart.value, n)));
      }
    }

    /** Lines 148-153. */
    method AddPropertiesOn(shape: WellFormedShape, t: Term, ghost n: nat) returns (r: Result<()>)
      requires PropertiesBounded(g, t, n)
      modifies shape
      decreases n, 1
      ensures Outcome(r, shape.Snapshot()) == AddProperties(g, old(shape.Snapshot()), Objects(g, t, ShProperty), n)
    {
      var objs := Objects(g, t, ShProperty);
      ghost var s0 := shape.Snapshot();
      for i := 0 to |objs|
        invariant AddProperties(g, s0, objs[..i], n) == Success(shape.Snapshot())
      {
        AddPropertiesNext(g, s0, objs, i, n);
        ghost var prev := shape.Snapshot();
        shape.SetIsSet(Property);
        var propertyShape := BuildChild(objs[i], n - 1);
        if propertyShape.Failure? {
          AddPropertiesFailed(g, s0, objs, i + 1, n);
          return Failure(propertyShape.error);
        }
        var child := propertyShape.value;
        shape.ExtendErrors(child.errors);
        shape.AppendTo(Properties, AShape(child));
        assert shape.Snapshot() == Append(AddErrors(Mark(prev, Property), child.errors), Properties, AShape(child));
      }
      assert objs[..|objs|] == objs;
      return Success(());
    }

    /** Lines 294-298 and 317-321. */
    method SetNestedOn(shape: WellFormedShape, t: Term, p: Term, k: Field, ghost n: nat) returns (r: Result<()>)
      requires NestedBounded(g, t, p, n)
      modifies shape
      decreases n, 1
      ensures Outcome(r, shape.Snapshot()) == SetNested(g, old(shape.Snapshot()), t, p, k, n)
    {
      var val := Value(g, t, p);
      if val.Some? {
        var child := BuildChild(val.value, n - 1);
        r := NestOn(shape, k, child);
      } else {
        r := Success(());
      }
    }

    /** Storing a nested shape under `k` and adding its errors; a child that raised is passed on. */
    method NestOn(shape: WellFormedShape, k: Field, child: Result<Shape>) returns (r: Result<()>)
      modifies shape
      ensures Outcome(r, shape.Snapshot()) == Nest(old(shape.Snapshot()), k, child)
    {
      shape.SetIsSet(k);
      if child.Failure? {
        return Failure(child.error);
      }
      shape.SetAttr(k, AShape(child.value));
      shape.ExtendErrors(child.value.errors);
      return Success(());
    }

    /** A nested shape, built and taken as it stands. */
    method BuildChild(x: Term, ghost n: nat) returns (r: Result<Shape>)
      requires ShapeBounded(g, x, n)
      decreases n, 5
      ensures r == BuildShape(g, x, n)
    {
      var nested := ParseWellFormedShape(x, n);
      if nested.Failure? {
        return Failure(nested.error);
      }
      return Success(nested.value.Snapshot());
    }

    /** Lines 95-128. */
    method TargetsPhase(shape: WellFormedShape, t: Term, ghost n: nat)
      requires ListHeadBounded(g, t, ShIgnoredProperties, n)
      modifies shape
      ensures shape.Snapshot() == Targets(g, t, old(shape.Snapshot()), n)
    {
      MarkUriOn(shape, t);
      AppendEachOn(shape, t, ShTargetClass, TargetClass, TargetClass, false);
      AppendEachOn(shape, t, ShTargetNode, TargetNode, TargetNode, false);
      AppendEachOn(shape, t, ShTargetObjectsOf, TargetObjectsOf, TargetObjectsOf, false);
      AppendEachOn(shape, t, ShTargetSubjectsOf, TargetSubjectsOf, TargetSubjectsOf, false);
      ReadListOn(shape, t, ShIgnoredProperties, IgnoredProperties, IgnoredProperties, false, n);
    }

    /** Lines 130-158. */
    method DescriptivePhase(shape: WellFormedShape, t: Term, ghost n: nat) returns (r: Result<()>)
      requires n > 0 && ConstraintCheck.PathResolvable(g, t, n) && PropertiesBounded(g, t, n)
      modifies shape
      decreases n, 2
      ensures Outcome(r, shape.Snapshot()) == Descriptive(g, t, old(shape.Snapshot()), n)
    {
      r := AddMessagesOn(shape, t);
      if r.Failure? {
        return;
      }
      SetStrOn(shape, t, ShNodeKind, NodeKind, NodeKind);
      SetFlagOn(shape, t, ShClosed, Closed, Closed);
      r := AddPropertiesOn(shape, t, n);
      if r.Failure? {
        return;
      }
      SetPathOn(shape, t, n);
    }

    /** Lines 160-227. */
    method ValuesPhase(shape: WellFormedShape, t: Term) returns (r: Result<()>)
      modifies shape
      ensures Outcome(r, shape.Snapshot()) == Values(g, t, old(shape.Snapshot()))
    {
      AppendEachOn(shape, t, ShClass, Classes, Classes, false);
      SetStrOn(shape, t, ShName, Name, Name);
      SetStrOn(shape, t, ShDescription, Description, Description);
      SetStrOn(shape, t, ShDatatype, Datatype, Datatype);
      r := SetIntOn(shape, t, ShMinCount, MinCount, MinCount);
      if r.Failure? { return; }
      r := SetIntOn(shape, t, ShMaxCount, MaxCount, MaxCount);
      if r.Failure? { return; }
      r := SetIntOn(shape, t, ShMinExclusive, MinExclusive, MinExclusive);
      if r.Failure? { return; }
      r := SetIntOn(shape, t, ShMinInclusive, MinInclusive, MinInclusive);
      if r.Failure? { return; }
      r := SetIntOn(shape, t, ShMaxExclusive, MaxExclusive, MaxExclusive);
      if r.Failure? { return; }
      r := SetIntOn(shape, t, ShMaxInclusive, maxInclusive, maxInclusive);
      if r.Failure? { return; }
      r := SetIntOn(shape, t, ShMinLength, MinLength, MinLength);
      if r.Failure? { return; }
      r := SetIntOn(shape, t, ShMaxLength, MaxLength, MaxLength);
      if r.Failure? { return; }
      SetStrOn(shape, t, ShPattern, Pattern, Pattern);
      SetStrOn(shape, t, ShFlags, Flags, Flags);
    }

    /** Lines 229-291. */
    method ListsPhase(shape: WellFormedShape, t: Term, ghost n: nat) returns (r: Result<()>)
      requires ListHeadBounded(g, t, ShLanguageIn, n) && ListHeadBounded(g, t, Rdf.ShIn, n)
      modifies shape
      ensures Outcome(r, shape.Snapshot()) == Lists(g, t, old(shape.Snapshot()), n)
    {
      ReadListOn(shape, t, ShLanguageIn, LanguageIn, LanguageIn, false, n);
      SetFlagOn(shape, t, ShUniqueLang, UniqueLang, UniqueLang);
      AppendEachOn(shape, t, ShEquals, Equals, Equals, false);
      AppendEachOn(shape, t, ShDisjoint, Disjoint, Disjoint, false);
      AppendEachOn(shape, t, ShLessThan, LessThan, LessThan, false);
      AppendEachOn(shape, t, ShLessThanOrEquals, LessThanOrEquals, LessThanOrEquals, false);
      AppendEachOn(shape, t, ShNode, Nodes, Nodes, false);
      AppendEachOn(shape, t, ShHasValue, HasValue, HasValue, true);
      ReadListOn(shape, t, Rdf.ShIn, ShIn, ShIn, true, n);
      r := SetIntOn(shape, t, ShOrder, Order, Order);
    }

    /** Lines 294-321. */
    method QualifiedPhase(shape: WellFormedShape, t: Term, ghost n: nat) returns (r: Result<()>)
      requires NestedBounded(g, t, ShQualifiedValueShape, n) && NestedBounded(g, t, ShGroup, n)
      modifies shape
      decreases n, 2
      ensures Outcome(r, shape.Snapshot()) == Qualified(g, t, old(shape.Snapshot()), n)
    {
      r := SetNestedOn(shape, t, ShQualifiedValueShape, QualifiedValueShape, n);
      if r.Failure? { return; }
      SetFlagOn(shape, t, ShQualifiedValueShapesDisjoint, QualifiedValueShapesDisjoint, QualifiedValueShapesDisjoint);
      r := SetIntOn(shape, t, ShQualifiedMinCount, QualifiedMinCount, QualifiedMinCount);
      if r.Failure? { return; }
      r := SetIntOn(shape, t, ShQualifiedMaxCount, QualifiedMaxCount, QualifiedMaxCount);
      if r.Failure? { return; }
      r := SetNestedOn(shape, t, ShGroup, Group, n);
    }

    /**
     * `parseWellFormedShape(shapeUri)` (lines 80-334): the shape built from
     * the graph, or the exception that escapes while building it.
     */
    method ParseWellFormedShape(t: Term, ghost n: nat) returns (r: Result<WellFormedShape>)
      requires ShapeBounded(g, t, n)
      decreases n, 4
      ensures r.Success? ==> fresh(r.value)
      ensures BuildShape(g, t, n) == if r.Success? then Success(r.value.Snapshot()) else Failure(r.error)
    {
      var shape := new WellFormedShape();
      var wfscc := new ConstraintCheck.WellFormedShapeConstraintCheck(g, t, n);
      shape.errors := wfscc.errors;
      assert shape.Snapshot() == Start(g, t, n);
      var filled := FillOn(shape, t, n);
      if filled.Failure? {
        return Failure(filled.error);
      }
      return Success(shape);
    }

    /** Lines 95-321 on the new shape. */
    method FillOn(shape: WellFormedShape, t: Term, ghost n: nat) returns (r: Result<()>)
      requires ShapeBounded(g, t, n)
      modifies shape
      decreases n, 3
      ensures Outcome(r, shape.Snapshot()) == Fill(g, t, old(shape.Snapshot()), n)
    {
      ghost var s0 := shape.Snapshot();
      TargetsPhase(shape, t, n);
      ghost var s1 := shape.Snapshot();
      r := DescriptivePhase(shape, t, n);
      ghost var s2 := Descriptive(g, t, s1, n);
      if r.Failure? {
        assert Fill(g, t, s0, n) == s2;
        return;
      }
      r := ValuesPhase(shape, t);
      ghost var s3 := Values(g, t, s2.value);
      if r.Failure? {
        assert Fill(g, t, s0, n) == s3;
        return;
      }
      r := ListsPhase(shape, t, n);
      ghost var s4 := Lists(g, t, s3.value, n);
      if r.Failure? {
        assert Fill(g, t, s0, n) == s4;
        return;
      }
      r := QualifiedPhase(shape, t, n);
      assert Fill(g, t, s0, n) == Qualified(g, t, s4.value, n);
    }

    /**
     * `parseShape` (lines 23-36) after the graph is loaded and its roots
     * are queried: each root's shape is stored under `str(root)`. When a
     * root raises, the roots before it stay stored.
     */
    method ParseShape(roots: seq<Term>, ghost n: nat) returns (r: Result<map<string, Shape>>)
      requires RootsOf(g, roots)
      requires forall i :: 0 <= i < |roots| ==> ShapeBounded(g, roots[i], n)
      modifies this
      ensures r == StoreAll(g, old(wellFormedShapes), roots, n)
      ensures r.Success? ==> wellFormedShapes == r.value
      ensures r.Failure? ==>
        exists i :: 0 <= i < |roots| && BuildShape(g, roots[i], n).Failure? &&
          StoreAll(g, old(wellFormedShapes), roots[..i], n) == Success(wellFormedShapes)
    {
      ghost var m0 := wellFormedShapes;
      for i := 0 to |roots|
        invariant StoreAll(g, m0, roots[..i], n) == Success(wellFormedShapes)
      {
        assert roots[..i + 1][..i] == roots[..i];
        var wellFormedShape := BuildChild(roots[i], n);
        if wellFormedShape.Failure? {
          StoreAllFailed(g, m0, roots, i + 1, n);
          return Failure(wellFormedShape.error);
        }
        wellFormedShapes := wellFormedShapes[Str(roots[i]) := wellFormedShape.value];
      }
      assert roots[..|roots|] == roots;
      return Success(wellFormedShapes);
    }

    /** `getPropertyShapeCandidates` (lines 62-78). */
    method GetPropertyShapeCandidates() returns (r: set<Term>)
      ensures forall t :: t in r <==> (exists tr :: tr in g && tr.s == t && tr.p == ShPath) && Unreferenced(g, t)
    {
      var subjects := Subjects(g, ShPath, None);
      r := {};
      for i := 0 to |subjects|
        invariant forall t :: t in r <==> t in subjects[..i] && Unreferenced(g, t)
      {
        var stmt := subjects[i];
        var keep := SubjectValue(g, ShProperty, stmt).None? && SubjectValue(g, RdfFirst, stmt).None? && SubjectValue(g, ShNot, stmt).None?;
        CandidateStep(g, r, subjects[..i], stmt);
        assert subjects[..i + 1] == subjects[..i] + [stmt];
        if keep {
          r := r + {stmt};
        }
      }
      assert subjects[..|subjects|] == subjects;
    }
  }
}
