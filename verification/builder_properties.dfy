/**
 * What the blocks of the shape builder in `ShapeParsing` guarantee.  Each
 * block writes its own attribute and flag: the lemmas below state, block by
 * block, what it writes, what it leaves alone and when it raises.  The
 * blocks that build nested shapes are stated over the list of what each
 * nested build returned, so that their facts are proved apart from the
 * builder's own recursion.
 */
module BuilderProperties {
  import opened Rdf
  import Exceptions
  import ConstraintCheck
  import opened Python
  import opened Shapes
  import opened ShapeParsing

  /** What a shape holds under one name: the attribute and its presence flag, each possibly absent. */
  function At(s: Shape, x: Field): (Option<Attr>, Option<bool>) {
    (if x in s.attrs then Some(s.attrs[x]) else None, if x in s.isSet then Some(s.isSet[x]) else None)
  }

  // Single blocks

  /** The i-th item a `for` block appends is made from the i-th object. */
  lemma {:induction false} ItemsAt(ts: seq<Term>, raw: bool, i: nat)
    requires i < |ts|
    ensures Items(ts, raw)[i] == Item(ts[i], raw)
    decreases |ts|
  {
    if i < |ts| - 1 {
      ItemsAt(ts[..|ts| - 1], raw, i);
    }
  }

  /** The i-th item a list walk appends is made from the `rdf:first` of the i-th list node. */
  lemma {:induction false} FirstItemsAt(g: Graph, nodes: seq<Term>, raw: bool, i: nat)
    requires i < |nodes|
    ensures FirstItems(g, nodes, raw)[i] == FirstItem(g, nodes[i], raw)
    decreases |nodes|
  {
    if i < |nodes| - 1 {
      FirstItemsAt(g, nodes[..|nodes| - 1], raw, i);
    }
  }

  /** A `for` block appends every object to `f`, in graph order, after what the list held. */
  lemma {:induction false} AppendEachList(s: Shape, k: Field, f: Field, objs: seq<Term>, raw: bool)
    ensures ListAttr(AppendEach(s, k, f, objs, raw), f) == ListAttr(s, f) + Items(objs, raw)
    decreases |objs|
  {
    if objs != [] {
      var front := objs[..|objs| - 1];
      AppendEachList(s, k, f, front, raw);
      AttrsAssoc(ListAttr(s, f), Items(front, raw), [Item(objs[|objs| - 1], raw)]);
    }
  }

  /** It writes no attribute but `f`. */
  lemma {:induction false} AppendEachKeeps(s: Shape, k: Field, f: Field, objs: seq<Term>, raw: bool, x: Field)
    requires x != f
    ensures At(AppendEach(s, k, f, objs, raw), x).0 == At(s, x).0
    decreases |objs|
  {
    if objs != [] {
      AppendEachKeeps(s, k, f, objs[..|objs| - 1], raw, x);
    }
  }

  /** It records no error. */
  lemma {:induction false} AppendEachErrors(s: Shape, k: Field, f: Field, objs: seq<Term>, raw: bool)
    ensures AppendEach(s, k, f, objs, raw).errors == s.errors
    decreases |objs|
  {
    if objs != [] {
      AppendEachErrors(s, k, f, objs[..|objs| - 1], raw);
    }
  }

  /** It sets the flag `k` exactly when there is an object, and no other flag. */
  lemma {:induction false} AppendEachFlag(s: Shape, k: Field, f: Field, objs: seq<Term>, raw: bool)
    ensures AppendEach(s, k, f, objs, raw).isSet == if objs == [] then s.isSet else s.isSet[k := true]
    decreases |objs|
  {
    if objs != [] {
      var front := objs[..|objs| - 1];
      AppendEachFlag(s, k, f, front, raw);
      assert AppendEach(s, k, f, objs, raw).isSet == AppendEach(s, k, f, front, raw).isSet[k := true];
      assert s.isSet[k := true][k := true] == s.isSet[k := true];
    }
  }

  /** A `for` block is one write of the whole list and one of the flag, when there is an object. */
  lemma AppendEachClosed(s: Shape, k: Field, f: Field, objs: seq<Term>, raw: bool)
    ensures AppendEach(s, k, f, objs, raw) ==
      if objs == [] then s else Assign(Mark(s, k), f, AList(ListAttr(s, f) + Items(objs, raw)))
  {
    AppendEachFlag(s, k, f, objs, raw);
    AppendEachErrors(s, k, f, objs, raw);
    if objs != [] {
      var r := AppendEach(s, k, f, objs, raw);
      AppendEachList(s, k, f, objs, raw);
      assert f in r.attrs && r.attrs[f] == AList(ListAttr(r, f));
      forall x | x != f
        ensures At(r, x).0 == At(s, x).0
      {
        AppendEachKeeps(s, k, f, objs, raw, x);
      }
    }
  }

  /** Appending items one at a time appends them all, in order. */
  lemma {:induction false} AppendItemsList(s: Shape, f: Field, items: seq<Attr>)
    ensures ListAttr(AppendItems(s, f, items), f) == ListAttr(s, f) + items
    decreases |items|
  {
    if items != [] {
      var front := items[..|items| - 1];
      AppendItemsList(s, f, front);
      AttrsAssoc(ListAttr(s, f), front, [items[|items| - 1]]);
      assert front + [items[|items| - 1]] == items;
    }
  }

  /** It writes no attribute but `f`. */
  lemma {:induction false} AppendItemsKeeps(s: Shape, f: Field, items: seq<Attr>, x: Field)
    requires x != f
    ensures At(AppendItems(s, f, items), x).0 == At(s, x).0
    decreases |items|
  {
    if items != [] {
      AppendItemsKeeps(s, f, items[..|items| - 1], x);
    }
  }

  /** It sets no flag and records no error. */
  lemma {:induction false} AppendItemsErrors(s: Shape, f: Field, items: seq<Attr>)
    ensures AppendItems(s, f, items).errors == s.errors && AppendItems(s, f, items).isSet == s.isSet
    decreases |items|
  {
    if items != [] {
      AppendItemsErrors(s, f, items[..|items| - 1]);
    }
  }

  /** Appending items one at a time is one write of the whole list. */
  lemma AppendItemsClosed(s: Shape, f: Field, items: seq<Attr>)
    requires items != []
    ensures AppendItems(s, f, items) == Assign(s, f, AList(ListAttr(s, f) + items))
  {
    var r := AppendItems(s, f, items);
    AppendItemsErrors(s, f, items);
    AppendItemsList(s, f, items);
    assert f in r.attrs && r.attrs[f] == AList(ListAttr(r, f));
    forall x | x != f
      ensures At(r, x).0 == At(s, x).0
    {
      AppendItemsKeeps(s, f, items, x);
    }
  }

  /** The members a list block reads: one per list node, in list order. */
  function ListMembers(g: Graph, t: Term, p: Term, raw: bool, ghost n: nat): seq<Attr>
    requires ListHeadBounded(g, t, p, n)
  {
    match Value(g, t, p)
    case None => []
    case Some(h) => FirstItems(g, ListNodes(g, h, n), raw)
  }

  /**
   * A list block, when the list is present, flags `k` and appends the list
   * members to `f`; when the list is absent it changes nothing.
   */
  lemma ReadListClosed(g: Graph, s: Shape, t: Term, p: Term, k: Field, f: Field, raw: bool, n: nat)
    requires ListHeadBounded(g, t, p, n)
    ensures ReadList(g, s, t, p, k, f, raw, n) ==
      if Value(g, t, p).None? then s else Assign(Mark(s, k), f, AList(ListAttr(s, f) + ListMembers(g, t, p, raw, n)))
  {
    if Value(g, t, p).Some? {
      AppendItemsClosed(Mark(s, k), f, FirstItems(g, ListNodes(g, Value(g, t, p).value, n), raw));
    }
  }

  /**
   * The members of a list read by a list block: the `rdf:first` of each node
   * along the `rdf:rest` chain from the head up to `rdf:nil`, as strings
   * (`str(None)` for a node with no `rdf:first`) or as the terms themselves.
   */
  lemma ListMembersInOrder(g: Graph, t: Term, p: Term, raw: bool, n: nat)
    requires ListHeadBounded(g, t, p, n) && Value(g, t, p).Some?
    ensures var nodes := ListNodes(g, Value(g, t, p).value, n);
      var r := ListMembers(g, t, p, raw, n);
      |r| == |nodes| && nodes[0] == Value(g, t, p).value &&
      (forall i :: 0 <= i < |nodes| - 1 ==> Value(g, nodes[i], RdfRest) == Some(nodes[i + 1])) &&
      Value(g, nodes[|nodes| - 1], RdfRest) == Some(RdfNil) &&
      (forall i :: 0 <= i < |r| ==>
        r[i] == if !raw then AStr(PyStr(Value(g, nodes[i], RdfFirst)))
                else if Value(g, nodes[i], RdfFirst).Some? then ATerm(Value(g, nodes[i], RdfFirst).value)
                else ANone)
  {
    var nodes := ListNodes(g, Value(g, t, p).value, n);
    ListNodesFollowRest(g, Value(g, t, p).value, n);
    forall i | 0 <= i < |nodes| {
      FirstItemsAt(g, nodes, raw, i);
    }
  }

  /** `AddMessages` succeeds exactly when every message is a literal. */
  lemma {:induction false} AddMessagesSucceeds(s: Shape, objs: seq<Term>)
    ensures AddMessages(s, objs).Success? <==> forall i :: 0 <= i < |objs| ==> objs[i].Literal?
    decreases |objs|
  {
    if objs != [] {
      AddMessagesSucceeds(s, objs[..|objs| - 1]);
    }
  }

  /** When it fails, it names the first message that is not a literal. */
  lemma {:induction false} AddMessagesRaisesFirst(s: Shape, objs: seq<Term>)
    requires AddMessages(s, objs).Failure?
    ensures exists i :: 0 <= i < |objs| && !objs[i].Literal? && AddMessages(s, objs).error == NoLanguage(objs[i]) &&
                        forall j :: 0 <= j < i ==> objs[j].Literal?
    decreases |objs|
  {
    var front := objs[..|objs| - 1];
    if AddMessages(s, front).Failure? {
      AddMessagesRaisesFirst(s, front);
      var i :| 0 <= i < |front| && !front[i].Literal? && AddMessages(s, front).error == NoLanguage(front[i]) &&
        forall j :: 0 <= j < i ==> front[j].Literal?;
      assert AddMessages(s, objs) == AddMessages(s, front);
      assert forall j :: 0 <= j <= i ==> objs[j] == front[j];
    } else {
      var k := |objs| - 1;
      AddMessagesSucceeds(s, front);
      assert forall j :: 0 <= j < k ==> objs[j] == front[j];
      assert AddMessages(s, objs) == AddMessage(AddMessages(s, front).value, objs[k]);
      assert !objs[k].Literal? && AddMessages(s, objs).error == NoLanguage(objs[k]);
    }
  }

  /** The message block changes only `message` and its flag, which it sets exactly when there is a message. */
  lemma {:induction false} AddMessagesKeeps(s: Shape, objs: seq<Term>, x: Field)
    requires AddMessages(s, objs).Success?
    ensures var r := AddMessages(s, objs).value;
      r.errors == s.errors &&
      (x != Message ==> At(r, x) == At(s, x)) &&
      At(r, Message).1 == if objs == [] then At(s, Message).1 else Some(true)
    decreases |objs|
  {
    if objs != [] {
      AddMessagesKeeps(s, objs[..|objs| - 1], x);
    }
  }

  /**
   * After the message block, the keys are the old keys and the keys of the
   * messages read: the language tag, or `'default'` for an untagged one.
   */
  lemma {:induction false} AddMessagesKeys(s: Shape, objs: seq<Term>)
    requires AddMessages(s, objs).Success?
    ensures var r := AddMessages(s, objs).value;
      (objs != [] ==> Message in r.attrs && r.attrs[Message] == AMessages(MessageMap(r))) &&
      forall key :: key in MessageMap(r) <==>
        key in MessageMap(s) || exists i :: 0 <= i < |objs| && objs[i].Literal? && MessageKey(objs[i]) == key
    decreases |objs|
  {
    if objs != [] {
      var front := objs[..|objs| - 1];
      AddMessagesKeys(s, front);
      assert forall i :: 0 <= i < |front| ==> objs[i] == front[i];
    }
  }

  /** A message is kept under its key unless a later message has the same key. */
  lemma {:induction false} AddMessagesLastWins(s: Shape, objs: seq<Term>, i: nat)
    requires AddMessages(s, objs).Success?
    requires i < |objs| && objs[i].Literal?
    requires forall j :: i < j < |objs| && objs[j].Literal? ==> MessageKey(objs[j]) != MessageKey(objs[i])
    ensures var m := MessageMap(AddMessages(s, objs).value);
      MessageKey(objs[i]) in m && m[MessageKey(objs[i])] == Str(objs[i])
    decreases |objs|
  {
    var front := objs[..|objs| - 1];
    if i < |objs| - 1 {
      AddMessagesLastWins(s, front, i);
    }
  }

  /** On a new shape, `uri` is flagged exactly when the shape is not a blank node, and then holds its name. */
  lemma MarkUriWhenNamed(s: Shape, t: Term)
    requires s.isSet == Unset(WellFormedDefaults.Keys) && s.attrs == WellFormedDefaults
    ensures var r := MarkUri(s, t);
      Uri in r.isSet && (r.isSet[Uri] <==> !IsBlank(t)) &&
      Uri in r.attrs && r.attrs[Uri] == if IsBlank(t) then AStr("") else AStr(Str(t))
  {
  }

  /** A boolean block flags `k` whenever the predicate is present, whatever its value. */
  lemma SetFlagFlags(s: Shape, k: Field, f: Field, v: Option<Term>)
    ensures SetFlag(s, k, f, v).isSet == if v.Some? then s.isSet[k := true] else s.isSet
  {
  }

  /**
   * A boolean block sets `f` to True only when the value reads "true" (in
   * any mix of cases, by `Python.IsTrueCases`); from a value that is not
   * True, `f` ends True exactly then.
   */
  lemma SetFlagReadsTrue(s: Shape, k: Field, f: Field, v: Option<Term>)
    requires !(f in s.attrs && s.attrs[f] == ABool(true))
    ensures var r := SetFlag(s, k, f, v);
      (f in r.attrs && r.attrs[f] == ABool(true)) <==> v.Some? && IsTrue(v.value)
  {
  }

  /** An integer block raises exactly when the value present is not an integer's text. */
  lemma SetIntRaises(s: Shape, k: Field, f: Field, v: Option<Term>)
    ensures SetInt(s, k, f, v).Failure? <==> v.Some? && PyInt(Str(v.value)).None?
    ensures SetInt(s, k, f, v).Failure? ==> SetInt(s, k, f, v).error == NotAnInteger(v.value)
  {
  }

  /** A value written as `str(i)` is stored as the integer `i`, with `k` flagged. */
  lemma SetIntReadsBack(s: Shape, k: Field, f: Field, v: Option<Term>, i: int)
    requires v.Some? && Str(v.value) == Decimal(i)
    ensures SetInt(s, k, f, v).Success? && f in SetInt(s, k, f, v).value.attrs &&
      SetInt(s, k, f, v).value.attrs[f] == AInt(i) && SetInt(s, k, f, v).value.isSet == s.isSet[k := true]
  {
    IntRoundTrip(i);
  }

  /** A nested block stores the shape built under `k`, flags it, and adds its errors after the parent's. */
  lemma NestStores(s: Shape, k: Field, child: Result<Shape>)
    ensures Nest(s, k, child).Success? <==> child.Success?
    ensures child.Success? ==> var r := Nest(s, k, child).value;
      k in r.attrs && r.attrs[k] == AShape(child.value) && r.isSet == s.isSet[k := true] &&
      r.errors == s.errors + child.value.errors
  {
  }

  // Nested shapes: the builder calls itself for every `sh:property` shape and
  // every root.  The facts below are stated over the list of what each call
  // returned, `BuildAll`, so that they are proved apart from the builder.

  /** What building each term returns, in order: a shape or the exception raised. */
  function BuildAll(g: Graph, ts: seq<Term>, ghost m: nat): (r: seq<Result<Shape>>)
    requires forall i :: 0 <= i < |ts| ==> ShapeBounded(g, ts[i], m)
    ensures |r| == |ts|
  {
    if ts == [] then [] else BuildAll(g, ts[..|ts| - 1], m) + [BuildShape(g, ts[|ts| - 1], m)]
  }

  lemma Snoc<T>(a: seq<T>, x: T)
    ensures (a + [x])[..|a|] == a && (a + [x])[|a|] == x
  {
  }

  /** The i-th entry is what building the i-th term returns. */
  lemma {:induction false} BuildAllAt(g: Graph, ts: seq<Term>, m: nat, i: nat)
    requires forall j :: 0 <= j < |ts| ==> ShapeBounded(g, ts[j], m)
    requires i < |ts|
    ensures BuildAll(g, ts, m)[i] == BuildShape(g, ts[i], m)
    decreases |ts|
  {
    var front := ts[..|ts| - 1];
    Snoc(BuildAll(g, front, m), BuildShape(g, ts[|ts| - 1], m));
    if i < |ts| - 1 {
      BuildAllAt(g, front, m, i);
    }
  }

  /** The property block given what each nested build returned. */
  function Attach(s: Shape, built: seq<Result<Shape>>): Result<Shape> {
    if built == [] then Success(s)
    else
      var s' :- Attach(s, built[..|built| - 1]);
      var child :- built[|built| - 1];
      Success(Append(AddErrors(Mark(s', Property), child.errors), Properties, AShape(child)))
  }

  /** Lines 148-153 build the property shapes one after the other and attach each. */
  lemma {:induction false} AddPropertiesAttach(g: Graph, s: Shape, objs: seq<Term>, n: nat)
    requires n > 0 && forall i :: 0 <= i < |objs| ==> ShapeBounded(g, objs[i], n - 1)
    ensures AddProperties(g, s, objs, n) == Attach(s, BuildAll(g, objs, n - 1))
    decreases |objs|
  {
    if objs != [] {
      var front := objs[..|objs| - 1];
      AddPropertiesAttach(g, s, front, n);
      Snoc(BuildAll(g, front, n - 1), BuildShape(g, objs[|objs| - 1], n - 1));
    }
  }

  /** The property block succeeds exactly when every property shape can be built. */
  lemma {:induction false} AttachSucceeds(s: Shape, built: seq<Result<Shape>>)
    ensures Attach(s, built).Success? <==> forall i :: 0 <= i < |built| ==> built[i].Success?
    decreases |built|
  {
    if built != [] {
      var front := built[..|built| - 1];
      AttachSucceeds(s, front);
      assert forall i :: 0 <= i < |front| ==> front[i] == built[i];
    }
  }

  lemma AttachFailedFront(s: Shape, built: seq<Result<Shape>>)
    requires built != [] && Attach(s, built[..|built| - 1]).Failure?
    ensures Attach(s, built) == Attach(s, built[..|built| - 1])
  {
  }

  /** When it fails, it raises what the first failing property shape raised. */
  lemma {:induction false} AttachRaisesFirst(s: Shape, built: seq<Result<Shape>>)
    requires Attach(s, built).Failure?
    ensures exists i :: 0 <= i < |built| && built[i].Failure? && Attach(s, built).error == built[i].error &&
              forall j :: 0 <= j < i ==> built[j].Success?
    decreases |built|
  {
    var front := built[..|built| - 1];
    if Attach(s, front).Failure? {
      AttachRaisesFirst(s, front);
      var i :| 0 <= i < |front| && front[i].Failure? && Attach(s, front).error == front[i].error &&
              forall j :: 0 <= j < i ==> front[j].Success?;
      AttachFailedFront(s, built);
      assert forall j :: 0 <= j <= i ==> built[j] == front[j];
    } else {
      var k := |built| - 1;
      AttachSucceeds(s, front);
      assert forall j :: 0 <= j < k ==> built[j] == front[j];
      assert built[k].Failure? && Attach(s, built).error == built[k].error;
    }
  }

  /** On success `properties` grows by one entry per property shape and keeps what it held. */
  lemma {:induction false} AttachLength(s: Shape, built: seq<Result<Shape>>)
    requires Attach(s, built).Success?
    ensures var before := ListAttr(s, Properties);
      var after := ListAttr(Attach(s, built).value, Properties);
      |after| == |before| + |built| && after[..|before|] == before
    decreases |built|
  {
    if built != [] {
      var front := built[..|built| - 1];
      AttachLength(s, front);
      var prev := Attach(s, front).value;
      assert ListAttr(Attach(s, built).value, Properties) == ListAttr(prev, Properties) + [AShape(built[|built| - 1].value)];
    }
  }

  /** On success the entry after the old ones at offset i is the i-th property shape. */
  lemma {:induction false} AttachListAt(s: Shape, built: seq<Result<Shape>>, i: nat)
    requires Attach(s, built).Success? && i < |built|
    ensures built[i].Success? && |ListAttr(s, Properties)| + i < |ListAttr(Attach(s, built).value, Properties)| &&
      ListAttr(Attach(s, built).value, Properties)[|ListAttr(s, Properties)| + i] == AShape(built[i].value)
    decreases |built|
  {
    AttachLength(s, built);
    var front := built[..|built| - 1];
    var prev := Attach(s, front).value;
    AttachLength(s, front);
    assert ListAttr(Attach(s, built).value, Properties) == ListAttr(prev, Properties) + [AShape(built[|built| - 1].value)];
    if i < |built| - 1 {
      AttachListAt(s, front, i);
    }
  }

  /** The errors of the shapes built, in order. */
  function ChildErrors(built: seq<Result<Shape>>): seq<Exceptions.Exception>
    requires forall i :: 0 <= i < |built| ==> built[i].Success?
  {
    if built == [] then [] else ChildErrors(built[..|built| - 1]) + built[|built| - 1].value.errors
  }

  lemma ErrorsAssoc(a: seq<Exceptions.Exception>, b: seq<Exceptions.Exception>, c: seq<Exceptions.Exception>)
    ensures a + b + c == a + (b + c)
  {
  }

  /** Line 151: the shape's errors are followed by those of every property shape, in order. */
  lemma {:induction false} AttachErrors(s: Shape, built: seq<Result<Shape>>)
    requires Attach(s, built).Success?
    ensures (forall i :: 0 <= i < |built| ==> built[i].Success?) &&
      Attach(s, built).value.errors == s.errors + ChildErrors(built)
    decreases |built|
  {
    AttachSucceeds(s, built);
    if built != [] {
      var front := built[..|built| - 1];
      AttachErrors(s, front);
      assert forall i :: 0 <= i < |front| ==> front[i] == built[i];
      ErrorsAssoc(s.errors, ChildErrors(front), built[|built| - 1].value.errors);
    }
  }

  /** `property` is flagged exactly when there is a property shape; no other flag changes. */
  lemma {:induction false} AttachFlag(s: Shape, built: seq<Result<Shape>>)
    requires Attach(s, built).Success?
    ensures Attach(s, built).value.isSet == if built == [] then s.isSet else s.isSet[Property := true]
    decreases |built|
  {
    if built != [] {
      var front := built[..|built| - 1];
      AttachFlag(s, front);
      assert s.isSet[Property := true][Property := true] == s.isSet[Property := true];
    }
  }

  /** No attribute but `properties` changes. */
  lemma {:induction false} AttachKeeps(s: Shape, built: seq<Result<Shape>>, x: Field)
    requires Attach(s, built).Success? && x != Properties
    ensures At(Attach(s, built).value, x).0 == At(s, x).0
    decreases |built|
  {
    if built != [] {
      AttachKeeps(s, built[..|built| - 1], x);
    }
  }

  /** The roots' loop given what each build returned. */
  function Store(stored: map<string, Shape>, roots: seq<Term>, built: seq<Result<Shape>>): Result<map<string, Shape>>
    requires |built| == |roots|
  {
    if roots == [] then Success(stored)
    else
      var m :- Store(stored, roots[..|roots| - 1], built[..|built| - 1]);
      var shape :- built[|built| - 1];
      Success(m[Str(roots[|roots| - 1]) := shape])
  }

  /** Lines 32-34 build the roots' shapes one after the other and store each. */
  lemma {:induction false} StoreAllStore(g: Graph, stored: map<string, Shape>, roots: seq<Term>, n: nat)
    requires forall i :: 0 <= i < |roots| ==> ShapeBounded(g, roots[i], n)
    ensures StoreAll(g, stored, roots, n) == Store(stored, roots, BuildAll(g, roots, n))
    decreases |roots|
  {
    if roots != [] {
      var front := roots[..|roots| - 1];
      StoreAllStore(g, stored, front, n);
      Snoc(BuildAll(g, front, n), BuildShape(g, roots[|roots| - 1], n));
    }
  }

  /** Storing succeeds exactly when every root's shape can be built. */
  lemma {:induction false} StoreSucceeds(stored: map<string, Shape>, roots: seq<Term>, built: seq<Result<Shape>>)
    requires |built| == |roots|
    ensures Store(stored, roots, built).Success? <==> forall i :: 0 <= i < |built| ==> built[i].Success?
    decreases |roots|
  {
    if roots != [] {
      var front := built[..|built| - 1];
      StoreSucceeds(stored, roots[..|roots| - 1], front);
      assert forall i :: 0 <= i < |front| ==> front[i] == built[i];
    }
  }

  /** The stored keys are the old ones and the string of every root. */
  lemma {:induction false} StoreKeys(stored: map<string, Shape>, roots: seq<Term>, built: seq<Result<Shape>>)
    requires |built| == |roots| && Store(stored, roots, built).Success?
    ensures forall key :: key in Store(stored, roots, built).value <==>
      key in stored || exists i :: 0 <= i < |roots| && Str(roots[i]) == key
    decreases |roots|
  {
    if roots != [] {
      var front := roots[..|roots| - 1];
      StoreKeys(stored, front, built[..|built| - 1]);
      assert forall i :: 0 <= i < |front| ==> roots[i] == front[i];
    }
  }

  /** A root's shape is stored under its string unless a later root has the same string. */
  lemma {:induction false} StoreLastWins(stored: map<string, Shape>, roots: seq<Term>, built: seq<Result<Shape>>, i: nat)
    requires |built| == |roots| && Store(stored, roots, built).Success?
    requires i < |roots| && forall j :: i < j < |roots| ==> Str(roots[j]) != Str(roots[i])
    ensures built[i].Success? && Str(roots[i]) in Store(stored, roots, built).value &&
      Store(stored, roots, built).value[Str(roots[i])] == built[i].value
    decreases |roots|
  {
    if i < |roots| - 1 {
      StoreLastWins(stored, roots[..|roots| - 1], built[..|built| - 1], i);
    }
  }
}
