/**
 * The experimental reader of `rdflibtest.py`: it collects the node-shape
 * candidates of a graph by a fixed sequence of rules, each adding the
 * subjects it matches that are not yet listed, and reads the targets,
 * node kind, messages and property shapes of one node shape.
 */
module RdflibTest {
  import opened Rdf
  import opened Python

  /** A Python attribute that starts as the string `''` and may be assigned a term. */
  datatype PyValue = Text(text: string) | Node(term: Term)

  /** The property shape record of this reader: it is never filled in. */
  datatype PropertyShape = PropertyShape(uri: string, path: string)

  /** What `parsePropertyShape` returns for every term. */
  const EmptyPropertyShape: PropertyShape := PropertyShape("", "")

  /** The node shape record of this reader, with the fields its constructor assigns. */
  datatype NodeShape = NodeShape(
    uri: PyValue, targetClass: seq<Term>, targetNode: seq<Term>, targetObjectsOf: seq<Term>,
    targetSubjectsOf: seq<Term>, nodeKind: PyValue, properties: seq<PropertyShape>, closed: bool,
    ignoredProperties: seq<Term>, sOr: seq<Term>, sNot: seq<Term>, sAnd: seq<Term>, sXone: seq<Term>,
    message: map<string, Term>, severity: int)

  /** The record `NodeShape()` creates. */
  const NewNodeShape: NodeShape :=
    NodeShape(Text(""), [], [], [], [], Text(""), [], false, [], [], [], [], [], map[], -1)

  // Node-shape candidates

  /**
   * One rule of the candidate search: the subjects of `(_, p, o)` triples,
   * `o == None` meaning any object, skipping blank nodes when `namedOnly`.
   */
  datatype Rule = Rule(p: Term, o: Option<Term>, namedOnly: bool)

  /**
   * The rules in the order the source applies them: `sh:NodeShape`
   * instances, named subjects of `sh:property`, the subjects of the four
   * target predicates (`sh:targetSubjectsOf` twice, as written), and
   * `sh:PropertyGroup` instances.
   */
  const Rules: seq<Rule> := [
    ByNodeShape, ByProperty, ByTargetClass, ByTargetNode, ByTargetObjectsOf,
    ByTargetSubjectsOf, ByTargetSubjectsOf, ByPropertyGroup]

  const ByNodeShape: Rule := Rule(RdfType, Some(ShNodeShape), false)
  const ByProperty: Rule := Rule(ShProperty, None, true)
  const ByTargetClass: Rule := Rule(ShTargetClass, None, false)
  const ByTargetNode: Rule := Rule(ShTargetNode, None, false)
  const ByTargetObjectsOf: Rule := Rule(ShTargetObjectsOf, None, false)
  const ByTargetSubjectsOf: Rule := Rule(ShTargetSubjectsOf, None, false)
  const ByPropertyGroup: Rule := Rule(RdfType, Some(ShPropertyGroup), false)

  /** A candidate a rule may add: not listed yet, and not a blank node when the rule wants names. */
  predicate Admits(uris: seq<Term>, c: Term, namedOnly: bool) {
    c !in uris && !(namedOnly && IsBlank(c))
  }

  /** One rule's loop: each candidate in turn is appended when admitted. */
  function Admit(uris: seq<Term>, cands: seq<Term>, namedOnly: bool): seq<Term>
    decreases |cands|
  {
    if cands == [] then uris
    else
      var u := Admit(uris, cands[..|cands| - 1], namedOnly);
      if Admits(u, cands[|cands| - 1], namedOnly) then u + [cands[|cands| - 1]] else u
  }

  /** The candidates after the given rules, applied in order to an empty list. */
  function UrisBy(g: Graph, rules: seq<Rule>): seq<Term>
    decreases |rules|
  {
    if rules == [] then []
    else
      var r := rules[|rules| - 1];
      Admit(UrisBy(g, rules[..|rules| - 1]), Subjects(g, r.p, r.o), r.namedOnly)
  }

  /** `getNodeShapeUris`. */
  function NodeShapeUris(g: Graph): seq<Term> {
    UrisBy(g, Rules)
  }

  predicate Distinct(s: seq<Term>) {
    forall i, j :: 0 <= i < j < |s| ==> s[i] != s[j]
  }

  /** A rule's loop keeps the list it started from as a prefix: the order is first seen, first listed. */
  lemma {:induction false} AdmitExtends(uris: seq<Term>, cands: seq<Term>, namedOnly: bool)
    ensures |uris| <= |Admit(uris, cands, namedOnly)| && Admit(uris, cands, namedOnly)[..|uris|] == uris
    decreases |cands|
  {
    if cands != [] {
      AdmitExtends(uris, cands[..|cands| - 1], namedOnly);
    }
  }

  /** A rule's loop lists exactly the old entries and the admissible candidates. */
  lemma {:induction false} AdmitMembers(uris: seq<Term>, cands: seq<Term>, namedOnly: bool)
    ensures forall x :: x in Admit(uris, cands, namedOnly) <==> x in uris || (x in cands && !(namedOnly && IsBlank(x)))
    decreases |cands|
  {
    if cands != [] {
      var front := cands[..|cands| - 1];
      AdmitMembers(uris, front, namedOnly);
      assert cands == front + [cands[|cands| - 1]];
    }
  }

  /** The membership test keeps the list free of repetitions. */
  lemma {:induction false} AdmitDistinct(uris: seq<Term>, cands: seq<Term>, namedOnly: bool)
    requires Distinct(uris)
    ensures Distinct(Admit(uris, cands, namedOnly))
    decreases |cands|
  {
    if cands != [] {
      AdmitDistinct(uris, cands[..|cands| - 1], namedOnly);
    }
  }

  /** A rule whose every candidate is already listed or refused adds nothing. */
  lemma {:induction false} AdmitNothingNew(uris: seq<Term>, cands: seq<Term>, namedOnly: bool)
    requires forall x :: x in cands ==> x in uris || (namedOnly && IsBlank(x))
    ensures Admit(uris, cands, namedOnly) == uris
    decreases |cands|
  {
    if cands != [] {
      var front := cands[..|cands| - 1];
      assert forall x :: x in front ==> x in cands;
      AdmitNothingNew(uris, front, namedOnly);
    }
  }

  /** Running a rule's loop twice, as lines 52-58 do, adds nothing the first run did not. */
  lemma AdmitTwice(uris: seq<Term>, cands: seq<Term>, namedOnly: bool)
    ensures Admit(Admit(uris, cands, namedOnly), cands, namedOnly) == Admit(uris, cands, namedOnly)
  {
    AdmitMembers(uris, cands, namedOnly);
    AdmitNothingNew(Admit(uris, cands, namedOnly), cands, namedOnly);
  }

  /** The candidates never repeat. */
  lemma {:induction false} UrisByDistinct(g: Graph, rules: seq<Rule>)
    ensures Distinct(UrisBy(g, rules))
    decreases |rules|
  {
    if rules != [] {
      var r := rules[|rules| - 1];
      UrisByDistinct(g, rules[..|rules| - 1]);
      AdmitDistinct(UrisBy(g, rules[..|rules| - 1]), Subjects(g, r.p, r.o), r.namedOnly);
    }
  }

  /** Rule `r` matches `x`: `x` is one of its subjects, and not blank when the rule wants names. */
  predicate Matches(g: Graph, r: Rule, x: Term) {
    x in Subjects(g, r.p, r.o) && !(r.namedOnly && IsBlank(x))
  }

  /** One rule's loop admits `x` exactly when the rule matches it. */
  lemma AdmitMember(g: Graph, uris: seq<Term>, r: Rule, x: Term)
    ensures x in Admit(uris, Subjects(g, r.p, r.o), r.namedOnly) <==> x in uris || Matches(g, r, x)
  {
    AdmitMembers(uris, Subjects(g, r.p, r.o), r.namedOnly);
  }

  /** A term is a candidate exactly when some rule matches it. */
  lemma {:induction false} UrisByMembers(g: Graph, rules: seq<Rule>, x: Term)
    ensures x in UrisBy(g, rules) <==> exists r :: r in rules && Matches(g, r, x)
    decreases |rules|
  {
    if rules != [] {
      var front := rules[..|rules| - 1];
      var r := rules[|rules| - 1];
      UrisByMembers(g, front, x);
      AdmitMember(g, UrisBy(g, front), r, x);
      assert rules == front + [r];
    }
  }

  /** Lines 26-66 list each candidate once. */
  lemma NodeShapeUrisDistinct(g: Graph)
    ensures Distinct(NodeShapeUris(g))
  {
    UrisByDistinct(g, Rules);
  }

  /** A candidate is one some rule of the table matches. */
  lemma NodeShapeUrisByRule(g: Graph, x: Term)
    ensures x in NodeShapeUris(g) <==>
      Matches(g, ByNodeShape, x) || Matches(g, ByProperty, x) || Matches(g, ByTargetClass, x) ||
      Matches(g, ByTargetNode, x) || Matches(g, ByTargetObjectsOf, x) || Matches(g, ByTargetSubjectsOf, x) ||
      Matches(g, ByPropertyGroup, x)
  {
    UrisByMembers(g, Rules, x);
  }

  /**
   * Lines 26-66 list every `sh:NodeShape` and `sh:PropertyGroup` instance,
   * every subject of a target predicate, and every subject of `sh:property`
   * that is not a blank node, and nothing else.
   */
  lemma NodeShapeUrisMembers(g: Graph, x: Term)
    ensures x in NodeShapeUris(g) <==>
      x in Subjects(g, RdfType, Some(ShNodeShape)) || x in Subjects(g, RdfType, Some(ShPropertyGroup)) ||
      (!IsBlank(x) && x in Subjects(g, ShProperty, None)) ||
      x in Subjects(g, ShTargetClass, None) || x in Subjects(g, ShTargetNode, None) ||
      x in Subjects(g, ShTargetObjectsOf, None) || x in Subjects(g, ShTargetSubjectsOf, None)
  {
    NodeShapeUrisByRule(g, x);
  }

  /** The repeated `sh:targetSubjectsOf` loop of lines 56-58 changes nothing: the list is the same without it. */
  lemma RepeatedRuleAddsNothing(g: Graph)
    ensures NodeShapeUris(g) == UrisBy(g, Rules[..6] + [ByPropertyGroup])
  {
    var five := UrisBy(g, Rules[..5]);
    var six := UrisBy(g, Rules[..6]);
    var subjects := Subjects(g, ShTargetSubjectsOf, None);
    assert six == Admit(five, subjects, false) by {
      assert Rules[..6][..5] == Rules[..5];
    }
    AdmitTwice(five, subjects, false);
    assert UrisBy(g, Rules[..7]) == six by {
      assert Rules[..7][..6] == Rules[..6];
    }
    assert Rules[..8][..7] == Rules[..7] && Rules[..8] == Rules;
    assert (Rules[..6] + [ByPropertyGroup])[..6] == Rules[..6];
  }

  /** One rule's loop of lines 31-64. */
  method AdmitEach(uris: seq<Term>, cands: seq<Term>, namedOnly: bool) returns (r: seq<Term>)
    ensures r == Admit(uris, cands, namedOnly)
  {
    r := uris;
    for i := 0 to |cands|
      invariant r == Admit(uris, cands[..i], namedOnly)
    {
      assert cands[..i + 1][..i] == cands[..i];
      if !(cands[i] in r) && !(namedOnly && IsBlank(cands[i])) {
        r := r + [cands[i]];
      }
    }
    assert cands[..|cands|] == cands;
  }

  /** The rules' loops of lines 31-64, one after the other, starting from an empty list. */
  method ApplyRules(g: Graph, rules: seq<Rule>) returns (r: seq<Term>)
    ensures r == UrisBy(g, rules)
  {
    r := [];
    for k := 0 to |rules|
      invariant r == UrisBy(g, rules[..k])
    {
      assert rules[..k + 1][..k] == rules[..k];
      r := AdmitEach(r, Subjects(g, rules[k].p, rules[k].o), rules[k].namedOnly);
    }
    assert rules[..|rules|] == rules;
  }

  /** `getNodeShapeUris`: the rules of the table applied in order. */
  method GetNodeShapeUris(g: Graph) returns (r: seq<Term>)
    ensures r == NodeShapeUris(g) && Distinct(r)
  {
    r := ApplyRules(g, Rules);
    NodeShapeUrisDistinct(g);
  }

  /** `getPropertyShapeUris`: always empty. */
  method GetPropertyShapeUris(g: Graph) returns (r: seq<Term>)
    ensures r == []
  {
    r := [];
  }

  // One node shape

  /** The key of a message: its language tag, or `'general'` when it has none. */
  function LangKey(t: Term): string
    requires t.Literal?
  {
    if t.language.None? then "general" else t.language.value
  }

  /** Lines 90-94: each message under its key, later ones overwriting; a term that is not a literal has no language and raises. */
  function MessagesOf(m: map<string, Term>, objs: seq<Term>): Result<map<string, Term>>
    decreases |objs|
  {
    if objs == [] then Success(m)
    else
      var m' :- MessagesOf(m, objs[..|objs| - 1]);
      var t := objs[|objs| - 1];
      if !t.Literal? then Failure(NoLanguage(t)) else Success(m'[LangKey(t) := t])
  }

  /** The record lines 71-100 fill from the graph, given the messages read. */
  function Filled(g: Graph, t: Term, messages: map<string, Term>): NodeShape {
    NewNodeShape.(
      uri := Node(t),
      targetClass := Objects(g, t, ShTargetClass),
      targetNode := Objects(g, t, ShTargetNode),
      targetObjectsOf := Objects(g, t, ShTargetObjectsOf),
      targetSubjectsOf := Objects(g, t, ShTargetSubjectsOf),
      nodeKind := if Value(g, t, ShNodeKind).Some? then Node(Value(g, t, ShNodeKind).value) else Text(""),
      message := messages,
      properties := seq(|Objects(g, t, ShProperty)|, _ => EmptyPropertyShape))
  }

  /** `parseNodeShape(g, t)`: the record filled from the graph, or the exception raised. */
  function NodeShapeOf(g: Graph, t: Term): Result<NodeShape> {
    var messages :- MessagesOf(map[], Objects(g, t, ShMessage));
    Success(Filled(g, t, messages))
  }

  // Lines 90-94 as written

  /**
   * Lines 90-94 as written: rdflib's terms have a `language` attribute but
   * no `lang`, so `stmt.lang` raises `AttributeError` on the first message,
   * literal or not.
   */
  function MessagesAsWritten(m: map<string, Term>, objs: seq<Term>): Result<map<string, Term>>
    decreases |objs|
  {
    if objs == [] then Success(m)
    else
      var _ :- MessagesAsWritten(m, objs[..|objs| - 1]);
      Failure(NoLanguage(objs[|objs| - 1]))
  }

  /** `parseNodeShape(g, t)` as written, reading `stmt.lang`. */
  function NodeShapeAsWritten(g: Graph, t: Term): Result<NodeShape> {
    var messages :- MessagesAsWritten(map[], Objects(g, t, ShMessage));
    Success(Filled(g, t, messages))
  }

  /** As written, the message loop returns only when there is no message, and otherwise raises on the first. */
  lemma {:induction false} MessagesAsWrittenRaises(m: map<string, Term>, objs: seq<Term>)
    ensures MessagesAsWritten(m, objs).Success? <==> objs == []
    ensures objs != [] ==> MessagesAsWritten(m, objs) == Failure(NoLanguage(objs[0]))
    decreases |objs|
  {
    if |objs| > 1 {
      var front := objs[..|objs| - 1];
      MessagesAsWrittenRaises(m, front);
      assert front[0] == objs[0];
    }
  }

  /** As written, `parseNodeShape` raises exactly when the shape has an `sh:message`. */
  lemma NodeShapeAsWrittenRaises(g: Graph, t: Term)
    ensures NodeShapeAsWritten(g, t).Failure? <==> exists o :: Triple(t, ShMessage, o) in g
  {
    var objs := Objects(g, t, ShMessage);
    MessagesAsWrittenRaises(map[], objs);
    ObjectsMembership(g, t, ShMessage);
    if objs != [] {
      assert Triple(t, ShMessage, objs[0]) in g;
    }
  }

  /**
   * A shape whose messages are all literals, one at least: read as
   * `.language`, its messages are stored; as written, the read raises.
   */
  lemma LangDiscrepancy(g: Graph, t: Term, o: Term)
    requires Triple(t, ShMessage, o) in g
    requires forall x :: Triple(t, ShMessage, x) in g ==> x.Literal?
    ensures NodeShapeOf(g, t).Success? && o.Literal? && LangKey(o) in NodeShapeOf(g, t).value.message
    ensures NodeShapeAsWritten(g, t).Failure?
  {
    NodeShapeOfRaises(g, t);
    NodeShapeOfMessages(g, t, LangKey(o));
    NodeShapeAsWrittenRaises(g, t);
  }

  /** Reading the messages succeeds exactly when every one is a literal. */
  lemma {:induction false} MessagesSucceed(m: map<string, Term>, objs: seq<Term>)
    ensures MessagesOf(m, objs).Success? <==> forall i :: 0 <= i < |objs| ==> objs[i].Literal?
    decreases |objs|
  {
    if objs != [] {
      var front := objs[..|objs| - 1];
      MessagesSucceed(m, front);
      assert forall i :: 0 <= i < |front| ==> front[i] == objs[i];
    }
  }

  /** The keys are the old ones and the key of every message. */
  lemma {:induction false} MessagesKeys(m: map<string, Term>, objs: seq<Term>)
    requires MessagesOf(m, objs).Success?
    ensures forall key :: key in MessagesOf(m, objs).value <==>
      key in m || exists i :: 0 <= i < |objs| && objs[i].Literal? && LangKey(objs[i]) == key
    decreases |objs|
  {
    if objs != [] {
      var front := objs[..|objs| - 1];
      MessagesKeys(m, front);
      assert forall i :: 0 <= i < |front| ==> front[i] == objs[i];
    }
  }

  /** A message is kept under its key unless a later message has the same key. */
  lemma {:induction false} MessagesLastWins(m: map<string, Term>, objs: seq<Term>, i: nat)
    requires MessagesOf(m, objs).Success? && i < |objs| && objs[i].Literal?
    requires forall j :: i < j < |objs| && objs[j].Literal? ==> LangKey(objs[j]) != LangKey(objs[i])
    ensures LangKey(objs[i]) in MessagesOf(m, objs).value && MessagesOf(m, objs).value[LangKey(objs[i])] == objs[i]
    decreases |objs|
  {
    if i < |objs| - 1 {
      MessagesLastWins(m, objs[..|objs| - 1], i);
    }
  }

  /** Lines 71-100 raise exactly when some `sh:message` of the shape is not a literal. */
  lemma NodeShapeOfRaises(g: Graph, t: Term)
    ensures NodeShapeOf(g, t).Failure? <==> exists o :: Triple(t, ShMessage, o) in g && !o.Literal?
  {
    var objs := Objects(g, t, ShMessage);
    MessagesSucceed(map[], objs);
    ObjectsMembership(g, t, ShMessage);
    if exists o :: Triple(t, ShMessage, o) in g && !o.Literal? {
      var o :| Triple(t, ShMessage, o) in g && !o.Literal?;
      var i :| 0 <= i < |objs| && objs[i] == o;
    }
  }

  /** Each target list holds exactly the objects of its predicate. */
  lemma NodeShapeOfTargets(g: Graph, t: Term, x: Term)
    requires NodeShapeOf(g, t).Success?
    ensures var r := NodeShapeOf(g, t).value;
      (x in r.targetClass <==> Triple(t, ShTargetClass, x) in g) &&
      (x in r.targetNode <==> Triple(t, ShTargetNode, x) in g) &&
      (x in r.targetObjectsOf <==> Triple(t, ShTargetObjectsOf, x) in g) &&
      (x in r.targetSubjectsOf <==> Triple(t, ShTargetSubjectsOf, x) in g)
  {
    ObjectsMembership(g, t, ShTargetClass);
    ObjectsMembership(g, t, ShTargetNode);
    ObjectsMembership(g, t, ShTargetObjectsOf);
    ObjectsMembership(g, t, ShTargetSubjectsOf);
  }

  /** Every message of the shape is stored under a key, and every key holds one of its messages. */
  lemma NodeShapeOfMessages(g: Graph, t: Term, key: string)
    requires NodeShapeOf(g, t).Success?
    ensures key in NodeShapeOf(g, t).value.message <==>
      exists o :: Triple(t, ShMessage, o) in g && o.Literal? && LangKey(o) == key
  {
    var objs := Objects(g, t, ShMessage);
    MessagesKeys(map[], objs);
    ObjectsMembership(g, t, ShMessage);
    if exists o :: Triple(t, ShMessage, o) in g && o.Literal? && LangKey(o) == key {
      var o :| Triple(t, ShMessage, o) in g && o.Literal? && LangKey(o) == key;
      var i :| 0 <= i < |objs| && objs[i] == o;
    }
  }

  /** A `for` loop appending every object to a list. */
  method AppendAll(xs: seq<Term>, objs: seq<Term>) returns (r: seq<Term>)
    ensures r == xs + objs
  {
    r := xs;
    for i := 0 to |objs|
      invariant r == xs + objs[..i]
    {
      assert objs[..i + 1] == objs[..i] + [objs[i]];
      r := r + [objs[i]];
    }
    assert objs[..|objs|] == objs;
  }

  /** Lines 90-94, raising on the first message that is not a literal. */
  method ReadMessages(objs: seq<Term>) returns (r: Result<map<string, Term>>)
    ensures r == MessagesOf(map[], objs)
  {
    var m: map<string, Term> := map[];
    for i := 0 to |objs|
      invariant MessagesOf(map[], objs[..i]) == Success(m)
    {
      assert objs[..i + 1][..i] == objs[..i];
      var t := objs[i];
      if !t.Literal? {
        MessagesFailed(objs, i + 1);
        return Failure(NoLanguage(t));
      }
      if t.language.None? {
        m := m["general" := t];
      } else {
        m := m[t.language.value := t];
      }
    }
    assert objs[..|objs|] == objs;
    r := Success(m);
  }

  /** Once a message raises, the rest of the loop is never reached. */
  lemma {:induction false} MessagesFailed(objs: seq<Term>, i: nat)
    requires i <= |objs| && MessagesOf(map[], objs[..i]).Failure?
    ensures MessagesOf(map[], objs) == MessagesOf(map[], objs[..i])
    decreases |objs|
  {
    if i < |objs| {
      var front := objs[..|objs| - 1];
      assert front[..i] == objs[..i];
      MessagesFailed(front, i);
    } else {
      assert objs[..i] == objs;
    }
  }

  /** `parsePropertyShape`: a new record, whatever the term. */
  method ParsePropertyShape(g: Graph, t: Term) returns (r: PropertyShape)
    ensures r == EmptyPropertyShape
  {
    r := PropertyShape("", "");
  }

  /** `parseNodeShape`. */
  method ParseNodeShape(g: Graph, shapeUri: Term) returns (r: Result<NodeShape>)
    ensures r == NodeShapeOf(g, shapeUri)
  {
    var shape := NewNodeShape.(uri := Node(shapeUri));
    assert forall objs: seq<Term> :: [] + objs == objs;
    var targets := AppendAll(shape.targetClass, Objects(g, shapeUri, ShTargetClass));
    shape := shape.(targetClass := targets);
    targets := AppendAll(shape.targetNode, Objects(g, shapeUri, ShTargetNode));
    shape := shape.(targetNode := targets);
    targets := AppendAll(shape.targetObjectsOf, Objects(g, shapeUri, ShTargetObjectsOf));
    shape := shape.(targetObjectsOf := targets);
    targets := AppendAll(shape.targetSubjectsOf, Objects(g, shapeUri, ShTargetSubjectsOf));
    shape := shape.(targetSubjectsOf := targets);
    var nodeKind := Value(g, shapeUri, ShNodeKind);
    if nodeKind.Some? {
      shape := shape.(nodeKind := Node(nodeKind.value));
    }
    var messages := ReadMessages(Objects(g, shapeUri, ShMessage));
    if messages.Failure? {
      return Failure(messages.error);
    }
    shape := shape.(message := messages.value);
    var bns := Objects(g, shapeUri, ShProperty);
    var properties: seq<PropertyShape> := [];
    for i := 0 to |bns|
      invariant properties == seq(i, _ => EmptyPropertyShape)
    {
      var p := ParsePropertyShape(g, bns[i]);
      properties := properties + [p];
    }
    shape := shape.(properties := properties);
    r := Success(shape);
  }
}
