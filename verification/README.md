# ShacShifter shapes reader in Dafny

ShacShifter reads a SHACL shapes graph and turns every shape it finds into
a `WellFormedShape`. A serializer later renders these shapes as forms. This
project models the reading half. That half has four parts.

- **`WellFormedShapeConstraintCheck`** walks the shape's triples and
  collects well-formedness errors:
  - SHACL lists that are cut short or loop;
  - objects of the wrong node kind or datatype;
  - predicates with more than one value where the table allows one;
  - a malformed `sh:message`;
  - an `sh:nodeKind` that is not one of the six kinds;
  - property-path leaves that are not IRIs.
- **`ShapeParser`** does the following:
  - it finds the root shapes and builds a `WellFormedShape` for each one,
    block by block (targets, lists, messages, nested property shapes,
    values, qualified shapes);
  - it resolves `sh:path` into nested lists and dictionaries;
  - it stores each shape under the string of its name;
  - it also finds the candidate property shapes.
- **`WellFormedShape`, `PropertyShape`, `NodeShape` and `NodeKindType`** are
  the records with their defaults and their `isSet` presence map.
- **`rdflibtest`** is an older, simpler reader. It finds node-shape
  candidates with a table of rules and fills a `NodeShape` record.

## How the model is built

The graph is a sequence of triples, so graph order is explicit. rdflib's
`objects`, `subjects` and `value` become functions over that sequence. They
live in module `Rdf`.

Each Python class whose fields the source updates in place becomes a Dafny
class:
- `WellFormedShapeConstraintCheck` appends to `errors`;
- `WellFormedShape` updates its attributes and `isSet` map;
- `ShapeParser` updates `wellFormedShapes`.

Every method is proved against a specification function over the old
state. The constraint check's methods ensure
`errors == old(errors) + <spec>`. The builder's methods ensure
`Snapshot() == <spec>(old(Snapshot()), …)`, or the same for the
`Result` they may raise.

The lemmas then state what the specification functions promise. They sit in
four places:
- `ConstraintCheck`, `PropertyPath` and `Python`;
- `BuilderProperties`, for the builder's blocks;
- `WholeShape`, for the whole builder: the flags and the errors of a
  returned shape;
- `RdflibTest`, for the older reader.

Python exceptions that escape a call (`int()` of a non-number, `.language`
of a term that is not a literal) are modelled as `Python.Result` failures.

The source has no cycle guard in the list walks, the path resolver or the
nested shape builder. These recursions are given ghost bounds:
- `PathBounded` for the path resolver;
- `ListBounded` for list walks;
- `ShapeBounded` for the shape builder.

These predicates state what the graph must satisfy for the Python code to
terminate. The constraint check's own list walk does have a loop guard, so
it is modelled without a bound.

## Model

| member | source | states |
|---|---|---|
| Exceptions.Hierarchy | ShacShifter/modules/Exceptions.py:3-54 | every class derives from `Error`; every class but `Error` is a `ParseError`; exactly `ConstraintError` and its five subclasses are `ConstraintError`s; `PathError` is not one |
| Rdf.ObjectsMembership | ShacShifter/ShapeParser.py:99-100 | the objects a `for stmt in objects(s, p)` loop visits are exactly those of the graph's `(s, p, _)` triples |
| Rdf.Subjects | ShacShifter/rdflibtest.py:31-34 | `subjects(p, o)` yields exactly the subjects of matching triples, with `None` as a wildcard |
| Rdf.Value | ShacShifter/ShapeParser.py:137-140 | `value(s, p)` is absent exactly when there is no `(s, p, _)` triple, and otherwise is the first object |
| Rdf.SubjectValue | ShacShifter/ShapeParser.py:73-75 | `value(predicate=p, object=o)` is absent exactly when no triple `(_, p, o)` exists, and otherwise names one |
| Rdf.ListNodes | ShacShifter/modules/WellFormedShapeConstraintCheck.py:87-108 | a bounded list has between 1 and `n` nodes, starting at its head |
| Rdf.ListNodesFollowRest | ShacShifter/ShapeParser.py:115-128 | each list node's `rdf:rest` is the next node, and the last node's is `rdf:nil` |
| ConstraintCheck.NodeKindErrors | ShacShifter/modules/WellFormedShapeConstraintCheck.py:110-129 | no error exactly when the object is present and its kind is enabled; otherwise exactly one `NodeKindConstraintError` naming the object |
| ConstraintCheck.DatatypeErrors | ShacShifter/modules/WellFormedShapeConstraintCheck.py:131-148 | no error exactly when the object is a literal of that datatype; otherwise exactly one `DataTypeConstraintError` |
| ConstraintCheck.AllMemberErrorsClasses | ShacShifter/modules/WellFormedShapeConstraintCheck.py:99-104 | each list node yields at most a node-kind and a datatype error, only for the checks requested; a bare list check yields none |
| ConstraintCheck.MemberErrorsClasses | ShacShifter/modules/WellFormedShapeConstraintCheck.py:99-104 | one list node yields at most one node-kind and one datatype error, each only when that check is requested |
| ConstraintCheck.ListWalkExtends | ShacShifter/modules/WellFormedShapeConstraintCheck.py:87-98 | the walk only extends the list of nodes already visited |
| ConstraintCheck.ListWalkNoDuplicates | ShacShifter/modules/WellFormedShapeConstraintCheck.py:93-98 | the walk never visits a node twice |
| ConstraintCheck.ListWalkStructural | ShacShifter/modules/WellFormedShapeConstraintCheck.py:88-97 | a walk that stops early stops with a `ShaclListConstraintError` |
| ConstraintCheck.ListWalkEndsAtNil | ShacShifter/modules/WellFormedShapeConstraintCheck.py:105-108 | a walk that succeeds visited at least one node, and the last one's `rdf:rest` is `rdf:nil` |
| ConstraintCheck.ListCheckClasses | ShacShifter/modules/WellFormedShapeConstraintCheck.py:77-108 | a list check records only list-structure errors and the classes of the member checks it was asked for |
| ConstraintCheck.ListCheckFailsLast | ShacShifter/modules/WellFormedShapeConstraintCheck.py:88-97 | a failing list check records its structure error last, because the method returns right after it |
| ConstraintCheck.BareListCheck | ShacShifter/modules/WellFormedShapeConstraintCheck.py:401-403 | the `sh:in` list check records at most one error, a list-structure error |
| ConstraintCheck.ProperListWalk | ShacShifter/modules/WellFormedShapeConstraintCheck.py:87-108 | on a proper list (named nodes, no repeats, ends in `rdf:nil`) the walk succeeds and visits exactly the list nodes |
| ConstraintCheck.ProperListOnlyMemberErrors | ShacShifter/modules/WellFormedShapeConstraintCheck.py:77-108 | a proper list yields only its members' errors, in list order |
| ConstraintCheck.SelfLoopReported | ShacShifter/modules/WellFormedShapeConstraintCheck.py:93-97 | a node whose `rdf:rest` is itself has its member checked, then the loop is reported |
| ConstraintCheck.MaxErrorsExact | ShacShifter/modules/WellFormedShapeConstraintCheck.py:150-320 | a predicate's `MaxConstraintError` is recorded exactly when the table lists it and it has two or more values |
| ConstraintCheck.MaxErrorsClasses | ShacShifter/modules/WellFormedShapeConstraintCheck.py:150-320 | the max-count table records only `MaxConstraintError`s |
| ConstraintCheck.NodeKindNotInMaxTable | ShacShifter/modules/WellFormedShapeConstraintCheck.py:164-169 | the table spells `sh:nodekind` in lower case, so `sh:nodeKind` is not in it |
| ConstraintCheck.NodeKindDuplicatesNeverReported | ShacShifter/modules/WellFormedShapeConstraintCheck.py:164-169 | so several `sh:nodeKind` values are never reported by the max check |
| ConstraintCheck.PathCheck | ShacShifter/modules/WellFormedShapeConstraintCheck.py:371-375 | an IRI leaf records no error, and any other leaf records one `PathError` naming it |
| ConstraintCheck.PathCheckAgrees | ShacShifter/modules/WellFormedShapeConstraintCheck.py:322-375 | the path the check resolves is the one `getPropertyPath` resolves |
| ConstraintCheck.PathCheckClasses | ShacShifter/modules/WellFormedShapeConstraintCheck.py:322-375 | the path check records only path errors and list-structure errors |
| ConstraintCheck.PathErrorsMatchNoneLeaves | ShacShifter/modules/WellFormedShapeConstraintCheck.py:371-375 | it records exactly one `PathError` per `None` leaf of the resolved path |
| ConstraintCheck.MissingRestReported | ShacShifter/modules/WellFormedShapeConstraintCheck.py:330-337 | a list node with no `rdf:rest` records its first member's errors, then one `ShaclListConstraintError` for the rest `None`, then one `PathError` for the leaf `None`, and the path ends in `None` |
| ConstraintCheck.KindErrorsAllExact | ShacShifter/modules/WellFormedShapeConstraintCheck.py:405-431 | a multi-valued node-kind check passes exactly when every object has an admitted kind |
| ConstraintCheck.MessageErrors | ShacShifter/modules/WellFormedShapeConstraintCheck.py:461-470 | one message records at most one error |
| ConstraintCheck.MessageErrorsExact | ShacShifter/modules/WellFormedShapeConstraintCheck.py:461-470 | a message passes exactly when it is a language-tagged literal or an `xsd:string` literal |
| ConstraintCheck.AllMessageErrorsExact | ShacShifter/modules/WellFormedShapeConstraintCheck.py:461-470 | the messages pass exactly when every one is acceptable |
| ConstraintCheck.AllMessageErrorsClasses | ShacShifter/modules/WellFormedShapeConstraintCheck.py:461-470 | the message checks record only `DataTypeConstraintError`s |
| ConstraintCheck.NonLiteralMessageReported | ShacShifter/modules/WellFormedShapeConstraintCheck.py:467-470 | a message that is not a literal is always reported, naming `sh:message` |
| ConstraintCheck.NodeKindInErrors | ShacShifter/modules/WellFormedShapeConstraintCheck.py:518-531 | an error is recorded exactly when `sh:nodeKind` is present and not one of the six kinds, and it is the base `ConstraintError` |
| ConstraintCheck.CheckConstraintsClasses | ShacShifter/modules/WellFormedShapeConstraintCheck.py:377-535 | every recorded error has a specific constraint class or is the base `ConstraintError` |
| ConstraintCheck.CheckConstraintsParseErrors | ShacShifter/modules/WellFormedShapeConstraintCheck.py:377-535 | every recorded error is a `ParseError` |
| ConstraintCheck.BaseConstraintErrorOnlyForNodeKind | ShacShifter/modules/WellFormedShapeConstraintCheck.py:518-531 | a base `ConstraintError` is recorded exactly when `sh:nodeKind` has a value outside the six kinds |
| ConstraintCheck.WellFormedShapeConstraintCheck.constructor | ShacShifter/modules/WellFormedShapeConstraintCheck.py:68-75 | a new check starts with no errors and ends with exactly the errors of `checkConstraints` |
| ConstraintCheck.WellFormedShapeConstraintCheck.ShaclListConstraint | ShacShifter/modules/WellFormedShapeConstraintCheck.py:77-108 | appends the list check's errors; returns False exactly when the walk stopped on a structural error |
| ConstraintCheck.WellFormedShapeConstraintCheck.CheckMember | ShacShifter/modules/WellFormedShapeConstraintCheck.py:99-104 | appends the requested checks of one node's `rdf:first` |
| ConstraintCheck.WellFormedShapeConstraintCheck.NodeKindConstraint | ShacShifter/modules/WellFormedShapeConstraintCheck.py:110-129 | appends exactly `NodeKindErrors` |
| ConstraintCheck.WellFormedShapeConstraintCheck.DatatypeConstraint | ShacShifter/modules/WellFormedShapeConstraintCheck.py:131-148 | appends exactly `DatatypeErrors` |
| ConstraintCheck.WellFormedShapeConstraintCheck.MaxConstraint | ShacShifter/modules/WellFormedShapeConstraintCheck.py:150-320 | appends one conflict per ambiguous table predicate, in table order |
| ConstraintCheck.WellFormedShapeConstraintCheck.PropertyPathConstraints | ShacShifter/modules/WellFormedShapeConstraintCheck.py:322-343 | returns the resolved path and appends the path check's errors |
| ConstraintCheck.WellFormedShapeConstraintCheck.ListPathConstraints | ShacShifter/modules/WellFormedShapeConstraintCheck.py:329-343 | the list branch: the first member, then (unless `rdf:rest` is `rdf:nil`) the rest, flattened into one list, with the same result and errors as the path check |
| ConstraintCheck.WellFormedShapeConstraintCheck.RestPathConstraints | ShacShifter/modules/WellFormedShapeConstraintCheck.py:334-341 | after the first member: the list check of the node, then the check of the rest, or of `None` when there is no `rdf:rest` |
| ConstraintCheck.WellFormedShapeConstraintCheck.NoneLeafConstraints | ShacShifter/modules/WellFormedShapeConstraintCheck.py:371-375 | `propertyPathConstraints(None)` returns `None` and appends one `PathError` naming `None` |
| ConstraintCheck.WellFormedShapeConstraintCheck.CombinatorPathConstraints | ShacShifter/modules/WellFormedShapeConstraintCheck.py:345-376 | the combinator and leaf branches, with the same result and errors as the path check |
| ConstraintCheck.WellFormedShapeConstraintCheck.CheckListAt | ShacShifter/modules/WellFormedShapeConstraintCheck.py:393-403 | appends the list check of a predicate's value when it has one |
| ConstraintCheck.WellFormedShapeConstraintCheck.CheckKindsOf | ShacShifter/modules/WellFormedShapeConstraintCheck.py:405-431 | appends the node-kind check of every object, in graph order |
| ConstraintCheck.WellFormedShapeConstraintCheck.CheckKindAt | ShacShifter/modules/WellFormedShapeConstraintCheck.py:434-456 | appends the node-kind check of a predicate's value when it has one |
| ConstraintCheck.WellFormedShapeConstraintCheck.CheckDatatypeAt | ShacShifter/modules/WellFormedShapeConstraintCheck.py:472-515 | appends the datatype check of a predicate's value when it has one |
| ConstraintCheck.WellFormedShapeConstraintCheck.CheckMessages | ShacShifter/modules/WellFormedShapeConstraintCheck.py:461-470 | appends the message checks, in graph order |
| ConstraintCheck.WellFormedShapeConstraintCheck.CheckNodeKindIn | ShacShifter/modules/WellFormedShapeConstraintCheck.py:518-531 | appends the `sh:nodeKind` value check |
| ConstraintCheck.WellFormedShapeConstraintCheck.CheckPath | ShacShifter/modules/WellFormedShapeConstraintCheck.py:533-535 | appends the path check when `sh:path` is present |
| ConstraintCheck.WellFormedShapeConstraintCheck.CheckLists | ShacShifter/modules/WellFormedShapeConstraintCheck.py:392-403 | appends the three list checks, in source order |
| ConstraintCheck.WellFormedShapeConstraintCheck.CheckKindRule | ShacShifter/modules/WellFormedShapeConstraintCheck.py:405-456 | appends one node-kind rule's errors, for every value or for the first only |
| ConstraintCheck.WellFormedShapeConstraintCheck.CheckKinds | ShacShifter/modules/WellFormedShapeConstraintCheck.py:405-456 | appends every node-kind rule's errors, in rule order |
| ConstraintCheck.WellFormedShapeConstraintCheck.CheckDatatypes | ShacShifter/modules/WellFormedShapeConstraintCheck.py:472-515 | appends every datatype rule's errors, in rule order |
| ConstraintCheck.WellFormedShapeConstraintCheck.CheckConstraints | ShacShifter/modules/WellFormedShapeConstraintCheck.py:377-535 | only appends, in this order: list checks, node kinds, max counts, messages, datatypes, the `sh:nodeKind` value, the path |
| PropertyPath.CombinatorPredicate | ShacShifter/ShapeParser.py:358-382 | every combinator is introduced by an IRI predicate |
| PropertyPath.FirstCombinator | ShacShifter/ShapeParser.py:358-382 | the combinator found is present on the term, with the object found |
| PropertyPath.CombinatorPriority | ShacShifter/ShapeParser.py:358-382 | a combinator is found exactly when one is present, and no present combinator comes before it in the resolver's order |
| PropertyPath.GetPropertyPath | ShacShifter/ShapeParser.py:336-386 | the result is a list exactly when there is an `rdf:first`, a dictionary exactly when there is a combinator and no `rdf:first`, the IRI's string for an IRI leaf and `None` for any other leaf |
| PropertyPath.Members | ShacShifter/ShapeParser.py:343-356 | a path list has between 1 and `n` members, starting with the head's `rdf:first` |
| PropertyPath.PathListBounded | ShacShifter/ShapeParser.py:343-356 | a path list is a resolvable path |
| PropertyPath.PathBoundedMonotone | ShacShifter/ShapeParser.py:336-386 | a larger bound is also a bound |
| PropertyPath.MembersBounded | ShacShifter/ShapeParser.py:343-356 | every member of a path list resolves |
| PropertyPath.GetPropertyPathBoundIrrelevant | ShacShifter/ShapeParser.py:336-386 | the resolved path does not depend on the bound chosen |
| PropertyPath.ResolveAll | ShacShifter/ShapeParser.py:343-356 | members are resolved one for one, keeping their order |
| PropertyPath.ListResolvesToMembers | ShacShifter/ShapeParser.py:343-356 | an RDF list ending in `rdf:nil` resolves to the flat list of its resolved members, in list order |
| PropertyPath.ListStep | ShacShifter/ShapeParser.py:343-356 | one list node puts its member's resolution in front of the rest's list |
| PropertyPath.ResolveAllRaise | ShacShifter/ShapeParser.py:343-356 | resolving under a larger bound changes nothing |
| PropertyPath.SingletonListNotCollapsed | ShacShifter/ShapeParser.py:343-356 | a one-member list resolves to a one-element list, never to the member alone |
| PropertyPath.MissingRestStep | ShacShifter/ShapeParser.py:343-356 | a list node with no `rdf:rest` resolves to its member's resolution followed by `None` |
| PropertyPath.CombinatorStep | ShacShifter/ShapeParser.py:358-382 | a combinator node resolves to the one-key dictionary holding the resolution of the node it wraps |
| Python.Digits | ShacShifter/ShapeParser.py:179-217 | `str(n)` of a natural number is a non-empty string of digits |
| Python.DigitsRoundTrip | ShacShifter/ShapeParser.py:179-217 | reading those digits back gives the number |
| Python.IntRoundTrip | ShacShifter/ShapeParser.py:179-217 | `int(str(i)) == i` for every integer |
| Python.Lower | ShacShifter/ShapeParser.py:145 | `lower()` keeps the length |
| Python.LowerPointwise | ShacShifter/ShapeParser.py:145 | `lower()` folds each character on its own |
| Python.IsTrueCases | ShacShifter/ShapeParser.py:142-146 | a flag reads true exactly when its text is "true" in any mix of cases |
| Shapes.Unset | ShacShifter/modules/WellFormedShape.py:55-59 | the presence map has a key for every attribute, and every key is False |
| Shapes.DeriveIsSet | ShacShifter/modules/WellFormedShape.py:55-59 | the constructor's loop over `vars(self)` yields exactly that map |
| Shapes.WellFormedShape.constructor | ShacShifter/modules/WellFormedShape.py:4-59 | a new shape has the default attributes, every one unset, and no errors |
| Shapes.WellFormedShape.SetIsSet | ShacShifter/ShapeParser.py:96 | flags one attribute and changes nothing else |
| Shapes.WellFormedShape.AppendTo | ShacShifter/ShapeParser.py:99-101 | appends to one list attribute and changes nothing else |
| Shapes.WellFormedShape.SetAttr | ShacShifter/ShapeParser.py:97 | assigns one attribute and changes nothing else |
| Shapes.WellFormedShape.ExtendErrors | ShacShifter/ShapeParser.py:151 | appends to the errors and changes nothing else |
| Shapes.PropertyShape.constructor | ShacShifter/modules/PropertyShape.py:4-44 | a new property shape has the default attributes, every one unset |
| Shapes.WellFormedNumericDefault | ShacShifter/modules/WellFormedShape.py:13-54 | the numeric bounds, `order` and `severity` start at -1 |
| Shapes.WellFormedListDefault | ShacShifter/modules/WellFormedShape.py:9-48 | the list attributes start empty |
| Shapes.WellFormedFlagDefault | ShacShifter/modules/WellFormedShape.py:13-39 | `closed` and `uniqueLang` start False |
| Shapes.WellFormedMessageDefault | ShacShifter/modules/WellFormedShape.py:13-39 | `message` starts as an empty dictionary |
| Shapes.WellFormedIsSetDeclared | ShacShifter/modules/WellFormedShape.py:13-59 | `isSet` has keys for `uri`, `MaxInclusive` and `properties`, names the constructor assigns |
| Shapes.WellFormedIsSetUndeclared | ShacShifter/modules/WellFormedShape.py:13-59 | it has no key for `maxInclusive` or `property`, the names the builder flags, nor for `isSet` |
| Shapes.PropertyNumericDefault | ShacShifter/modules/PropertyShape.py:4-35 | the numeric attributes of a property shape start at -1 |
| Shapes.PropertyStringDefault | ShacShifter/modules/PropertyShape.py:4-35 | its string attributes start as '' |
| Shapes.PropertyListDefault | ShacShifter/modules/PropertyShape.py:4-35 | its list attributes start empty |
| Shapes.PropertyFlagDefault | ShacShifter/modules/PropertyShape.py:4-35 | `uniqueLang` and `qualifiedValueShapesDisjoint` start False |
| Shapes.PropertyMessageDefault | ShacShifter/modules/PropertyShape.py:4-44 | `message` starts empty, and `isSet` has no key for itself |
| ShapeParsing.Items | ShacShifter/ShapeParser.py:99-113 | one appended item per object |
| ShapeParsing.FirstItems | ShacShifter/ShapeParser.py:115-128 | one appended item per list node |
| ShapeParsing.AddMessagesFailed | ShacShifter/ShapeParser.py:130-135 | once a message raises, the rest of the block is never reached |
| ShapeParsing.AddPropertiesFailed | ShacShifter/ShapeParser.py:148-153 | once a property shape raises, the rest of the block is never reached |
| ShapeParsing.StoreAllFailed | ShacShifter/ShapeParser.py:32-34 | once a root raises, no later root is stored |
| ShapeParsing.ListNodesNext | ShacShifter/ShapeParser.py:123-128 | `rdf:nil` ends a list walk and any other `rdf:rest` continues it |
| ShapeParsing.ShapeParser.constructor | ShacShifter/ShapeParser.py:16-21 | a parser over a graph starts with no stored shapes |
| ShapeParsing.ShapeParser.MarkUriOn | ShacShifter/ShapeParser.py:95-97 | the shape's name block, as `MarkUri` |
| ShapeParsing.ShapeParser.AppendEachOn | ShacShifter/ShapeParser.py:99-113 | a `for` block over the objects, as `AppendEach` |
| ShapeParsing.ShapeParser.ReadListOn | ShacShifter/ShapeParser.py:115-128 | a list block, as `ReadList` |
| ShapeParsing.ShapeParser.AddMessagesOn | ShacShifter/ShapeParser.py:130-135 | the message block, raising like `AddMessages` |
| ShapeParsing.ShapeParser.AddMessageAt | ShacShifter/ShapeParser.py:130-135 | the i-th message either carries the block's fold one message further or raises the exception that ends the whole block |
| ShapeParsing.ShapeParser.AddMessageOn | ShacShifter/ShapeParser.py:131-135 | one message: `message` is flagged first, then a term that is not a literal raises and a literal is stored under its language tag, as `AddMessage` |
| ShapeParsing.ShapeParser.WalkListOn | ShacShifter/ShapeParser.py:120-128 | the `while` loop appends the `rdf:first` of every list node, in list order, and nothing else |
| ShapeParsing.ShapeParser.WalkNodeOn | ShacShifter/ShapeParser.py:121-128 | one iteration appends the node's item and stops exactly when its `rdf:rest` is `rdf:nil`; otherwise what is left of the walk starts at that `rdf:rest` |
| ShapeParsing.WalkListFrom | ShacShifter/ShapeParser.py:120-128 | walking from a node appends that node's item first and then goes on from its `rdf:rest`, unless that is `rdf:nil` |
| ShapeParsing.ShapeParser.SetStrOn | ShacShifter/ShapeParser.py:164-172 | a single-value string block, as `SetStr` |
| ShapeParsing.ShapeParser.SetIntOn | ShacShifter/ShapeParser.py:179-217 | a single-value integer block, raising like `SetInt` |
| ShapeParsing.ShapeParser.SetFlagOn | ShacShifter/ShapeParser.py:142-146 | a boolean block, as `SetFlag` |
| ShapeParsing.ShapeParser.SetPathOn | ShacShifter/ShapeParser.py:155-158 | the path block, as `SetPath` |
| ShapeParsing.ShapeParser.AddPropertiesOn | ShacShifter/ShapeParser.py:148-153 | the property block, raising like `AddProperties` |
| ShapeParsing.ShapeParser.SetNestedOn | ShacShifter/ShapeParser.py:294-298 | a nested-shape block, as `SetNested` |
| ShapeParsing.ShapeParser.NestOn | ShacShifter/ShapeParser.py:317-321 | stores a built nested shape and adds its errors, as `Nest` |
| ShapeParsing.ShapeParser.BuildChild | ShacShifter/ShapeParser.py:150 | a nested shape's build is `BuildShape` of its term |
| ShapeParsing.ShapeParser.TargetsPhase | ShacShifter/ShapeParser.py:95-128 | the name, target and ignored-properties blocks, as `Targets` |
| ShapeParsing.ShapeParser.DescriptivePhase | ShacShifter/ShapeParser.py:130-158 | the message, node-kind, closed, property and path blocks, as `Descriptive` |
| ShapeParsing.ShapeParser.ValuesPhase | ShacShifter/ShapeParser.py:160-227 | the class, string and integer blocks, as `Values` |
| ShapeParsing.ShapeParser.ListsPhase | ShacShifter/ShapeParser.py:229-291 | the language, unique-language, comparison, `sh:in` and order blocks, as `Lists` |
| ShapeParsing.ShapeParser.QualifiedPhase | ShacShifter/ShapeParser.py:294-321 | the qualified-shape and group blocks, as `Qualified` |
| ShapeParsing.ShapeParser.ParseWellFormedShape | ShacShifter/ShapeParser.py:80-334 | a new shape holding `BuildShape`'s result, or the exception that escaped |
| ShapeParsing.ShapeParser.FillOn | ShacShifter/ShapeParser.py:95-321 | every block in turn on the new shape, as `Fill` |
| ShapeParsing.ShapeParser.ParseShape | ShacShifter/ShapeParser.py:23-36 | the stored shapes are `StoreAll` over the roots the query of lines 45-55 selects; when a root raises, the shapes of the roots before it stay stored |
| ShapeParsing.ShapeParser.GetPropertyShapeCandidates | ShacShifter/ShapeParser.py:62-78 | a term is a candidate exactly when it has an `sh:path` and is not the object of `sh:property`, `rdf:first` or `sh:not` |
| BuilderProperties.ItemsAt | ShacShifter/ShapeParser.py:99-113 | the i-th appended item is made from the i-th object |
| BuilderProperties.FirstItemsAt | ShacShifter/ShapeParser.py:115-128 | the i-th item a list walk appends is made from the i-th node's `rdf:first` |
| BuilderProperties.AppendEachList | ShacShifter/ShapeParser.py:99-113 | a `for` block appends every object in graph order after what the list already held |
| BuilderProperties.AppendEachKeeps | ShacShifter/ShapeParser.py:99-113 | it writes no attribute but its own list |
| BuilderProperties.AppendEachErrors | ShacShifter/ShapeParser.py:99-113 | it records no error |
| BuilderProperties.AppendEachFlag | ShacShifter/ShapeParser.py:99-113 | it flags its attribute exactly when there is an object, and flags nothing else |
| BuilderProperties.AppendEachClosed | ShacShifter/ShapeParser.py:99-113 | the block is one write of the whole list, plus the flag when there is an object |
| BuilderProperties.AppendItemsList | ShacShifter/ShapeParser.py:115-128 | appending items one at a time appends them all, in order |
| BuilderProperties.AppendItemsKeeps | ShacShifter/ShapeParser.py:115-128 | it writes no attribute but its own list |
| BuilderProperties.AppendItemsErrors | ShacShifter/ShapeParser.py:115-128 | it sets no flag and records no error |
| BuilderProperties.AppendItemsClosed | ShacShifter/ShapeParser.py:115-128 | appending one at a time is one write of the whole list |
| BuilderProperties.ReadListClosed | ShacShifter/ShapeParser.py:115-128 | an absent list changes nothing; a present one flags its attribute and appends all list members |
| BuilderProperties.ListMembersInOrder | ShacShifter/ShapeParser.py:229-242 | the members read are the `rdf:first` of each node along the `rdf:rest` chain up to `rdf:nil`, in order (`str(None)` for a missing one) |
| BuilderProperties.AddMessagesSucceeds | ShacShifter/ShapeParser.py:130-135 | the message block succeeds exactly when every message is a literal |
| BuilderProperties.AddMessagesRaisesFirst | ShacShifter/ShapeParser.py:130-135 | when it fails, it names the first message that is not a literal |
| BuilderProperties.AddMessagesKeeps | ShacShifter/ShapeParser.py:130-135 | it changes only `message` and its flag, which it sets exactly when there is a message |
| BuilderProperties.AddMessagesKeys | ShacShifter/ShapeParser.py:130-135 | the keys are the old ones plus each message's language, or 'default' |
| BuilderProperties.AddMessagesLastWins | ShacShifter/ShapeParser.py:130-135 | a message is kept under its key unless a later message has the same key |
| BuilderProperties.MarkUriWhenNamed | ShacShifter/ShapeParser.py:95-97 | on a new shape, `uri` is flagged exactly when the term is not a blank node, and then holds its string |
| BuilderProperties.SetFlagFlags | ShacShifter/ShapeParser.py:142-144 | a boolean block flags its attribute whenever the predicate is present, whatever the value |
| BuilderProperties.SetFlagReadsTrue | ShacShifter/ShapeParser.py:142-146 | the attribute ends True exactly when the value reads "true" in any case |
| BuilderProperties.SetIntRaises | ShacShifter/ShapeParser.py:179-217 | an integer block raises exactly when the value present is not an integer's text, naming that value |
| BuilderProperties.SetIntReadsBack | ShacShifter/ShapeParser.py:179-217 | a value written as `str(i)` is stored as the integer `i`, flagged |
| BuilderProperties.NestStores | ShacShifter/ShapeParser.py:294-298 | a nested block stores the built shape, flags it, and adds its errors after the parent's |
| BuilderProperties.BuildAllAt | ShacShifter/ShapeParser.py:148-153 | the i-th build result is what building the i-th term returns |
| BuilderProperties.AddPropertiesAttach | ShacShifter/ShapeParser.py:148-153 | the property block is the nested builds attached one after the other |
| BuilderProperties.AttachSucceeds | ShacShifter/ShapeParser.py:148-153 | the property block succeeds exactly when every property shape can be built |
| BuilderProperties.AttachRaisesFirst | ShacShifter/ShapeParser.py:148-153 | when it fails, it raises what the first failing property shape raised |
| BuilderProperties.AttachLength | ShacShifter/ShapeParser.py:148-153 | on success `properties` grows by one entry per property shape and keeps what it held |
| BuilderProperties.AttachListAt | ShacShifter/ShapeParser.py:150-153 | the i-th new entry is the i-th property shape |
| BuilderProperties.AttachErrors | ShacShifter/ShapeParser.py:151 | the shape's errors are followed by those of every property shape, in order |
| BuilderProperties.AttachFlag | ShacShifter/ShapeParser.py:149 | `property` is flagged exactly when there is a property shape, and no other flag changes |
| BuilderProperties.AttachKeeps | ShacShifter/ShapeParser.py:148-153 | no attribute but `properties` changes |
| BuilderProperties.StoreAllStore | ShacShifter/ShapeParser.py:32-34 | the roots' loop is the builds of the roots stored one after the other |
| BuilderProperties.StoreSucceeds | ShacShifter/ShapeParser.py:32-34 | storing succeeds exactly when every root's shape can be built |
| BuilderProperties.StoreKeys | ShacShifter/ShapeParser.py:32-34 | the stored keys are the old ones plus the string of every root |
| BuilderProperties.StoreLastWins | ShacShifter/ShapeParser.py:32-34 | a root's shape stays under its string unless a later root has the same string |
| WholeShape.TargetKeeps | ShacShifter/ShapeParser.py:95-128 | the target block leaves every attribute it does not read as it was, present or not, True or not |
| WholeShape.DescriptiveKeeps | ShacShifter/ShapeParser.py:130-158 | the descriptive block leaves every attribute it does not read as it was |
| WholeShape.ValueKeeps | ShacShifter/ShapeParser.py:160-227 | the value block leaves every attribute it does not read as it was |
| WholeShape.ListKeeps | ShacShifter/ShapeParser.py:229-291 | the list block leaves every attribute it does not read as it was |
| WholeShape.NestedKeeps | ShacShifter/ShapeParser.py:294-321 | the nested block leaves every attribute it does not read as it was |
| WholeShape.TargetSetsUri | ShacShifter/ShapeParser.py:95-97 | `uri` is present after the target block when it was before or the node is named, and True exactly then |
| WholeShape.DescriptiveSetsProperty | ShacShifter/ShapeParser.py:148-149 | `property` is present after the descriptive block when it was before or there is an `sh:property`, and True exactly then |
| WholeShape.ValueSetsLowerMaxInclusive | ShacShifter/ShapeParser.py:204-207 | `maxInclusive` is present after the value block when it was before or there is an `sh:maxInclusive`, and True exactly then |
| WholeShape.FlagsForMaxInclusive | ShacShifter/ShapeParser.py:95-321 | for every combination of predicates present, the declared `MaxInclusive` stays False |
| WholeShape.FlagsForProperties | ShacShifter/ShapeParser.py:95-321 | for every combination of predicates present, `properties` stays False |
| WholeShape.FlagsForUri | ShacShifter/ShapeParser.py:95-321 | `uri` is present, and True exactly for a named node |
| WholeShape.FlagsForProperty | ShacShifter/ShapeParser.py:95-321 | the undeclared `property` is present exactly when there is an `sh:property`, and then True |
| WholeShape.FlagsForLowerMaxInclusive | ShacShifter/ShapeParser.py:95-321 | the undeclared `maxInclusive` is present exactly when there is an `sh:maxInclusive`, and then True |
| WholeShape.FillBuilds | ShacShifter/ShapeParser.py:95-321 | the builder is its five blocks run on what its property shapes, qualified-value shape and group were built to |
| WholeShape.DescriptiveBuilds | ShacShifter/ShapeParser.py:130-158 | the descriptive block is its steps run on what each property shape was built to |
| WholeShape.QualifiedBuilds | ShacShifter/ShapeParser.py:294-321 | the nested block is its steps run on what the qualified-value shape and the group were built to |
| WholeShape.AppendEachRaises | ShacShifter/ShapeParser.py:99-113 | a `for` over the objects raises the flag exactly when there is an object and records no error |
| WholeShape.ReadListRaises | ShacShifter/ShapeParser.py:115-128 | a list read raises the flag exactly when the predicate has a value and records no error |
| WholeShape.SetIntRaises | ShacShifter/ShapeParser.py:179-217 | an `int()` read that succeeds raises the flag exactly when the predicate has a value and records no error |
| WholeShape.SetStrRaises | ShacShifter/ShapeParser.py:164-172 | a string read raises the flag exactly when the predicate has a value and records no error |
| WholeShape.SetFlagRaises | ShacShifter/ShapeParser.py:142-146 | a boolean read raises the flag exactly when the predicate has a value and records no error |
| WholeShape.SetPathRaises | ShacShifter/ShapeParser.py:155-158 | the path read raises `path` exactly when there is an `sh:path` and records no error |
| WholeShape.AddMessagesRaises | ShacShifter/ShapeParser.py:130-135 | a message block that succeeds raises `message` exactly when there is a message and records no error |
| WholeShape.TargetsRaise | ShacShifter/ShapeParser.py:95-128 | the target block's flags are those of its table and it records no error |
| WholeShape.DescriptiveRaise | ShacShifter/ShapeParser.py:130-158 | the descriptive block's flags are those of its table, every property shape was built, and their errors follow the shape's own, in order |
| WholeShape.ValuesRaise | ShacShifter/ShapeParser.py:160-227 | the value block's flags are those of its table and it records no error |
| WholeShape.ListsRaise | ShacShifter/ShapeParser.py:229-291 | the list block's flags are those of its table and it records no error |
| WholeShape.NestGivenRaises | ShacShifter/ShapeParser.py:294-298 | a nested read raises its flag exactly when the predicate has a value, and adds the nested shape's errors |
| WholeShape.QualifiedRaise | ShacShifter/ShapeParser.py:294-321 | the nested block's flags are those of its table, and it adds the qualified-value shape's errors, then the group's |
| WholeShape.FillRaise | ShacShifter/ShapeParser.py:95-321 | the five blocks raise their tables in turn; the errors are the shape's own, then each property shape's, the qualified-value shape's and the group's |
| WholeShape.BuildShapeFlags | ShacShifter/ShapeParser.py:80-321 | a shape that is returned has exactly the flags `BuiltFlags`: each attribute raised exactly when the node carries its predicate, `uri` exactly when named |
| WholeShape.BuildShapeErrors | ShacShifter/ShapeParser.py:87-321 | a shape that is returned carries the node's well-formedness errors, then each property shape's, then the qualified-value shape's, then the group's |
| RdflibTest.AdmitExtends | ShacShifter/rdflibtest.py:31-34 | a rule's loop keeps the list it started from as a prefix, so candidates are listed in first-seen order |
| RdflibTest.AdmitMembers | ShacShifter/rdflibtest.py:36-38 | a rule's loop lists exactly the old entries and the admissible candidates |
| RdflibTest.AdmitDistinct | ShacShifter/rdflibtest.py:31-34 | the membership test keeps the list free of repetitions |
| RdflibTest.AdmitNothingNew | ShacShifter/rdflibtest.py:52-58 | a rule whose every candidate is listed or refused adds nothing |
| RdflibTest.AdmitTwice | ShacShifter/rdflibtest.py:52-58 | running a rule's loop twice adds nothing the first run did not |
| RdflibTest.UrisByDistinct | ShacShifter/rdflibtest.py:26-66 | after any rules, the candidates never repeat |
| RdflibTest.AdmitMember | ShacShifter/rdflibtest.py:36-38 | a rule's loop admits a term exactly when the rule matches it or it was already listed |
| RdflibTest.UrisByMembers | ShacShifter/rdflibtest.py:26-66 | a term is a candidate exactly when some rule matches it |
| RdflibTest.NodeShapeUrisDistinct | ShacShifter/rdflibtest.py:26-66 | `getNodeShapeUris` lists each candidate once |
| RdflibTest.NodeShapeUrisByRule | ShacShifter/rdflibtest.py:26-66 | every candidate is matched by a rule of the table |
| RdflibTest.NodeShapeUrisMembers | ShacShifter/rdflibtest.py:26-66 | a term is a candidate exactly when it is an `sh:NodeShape`, or a named subject of `sh:property`, or a subject of a target predicate, or an `sh:PropertyGroup` |
| RdflibTest.RepeatedRuleAddsNothing | ShacShifter/rdflibtest.py:52-58 | the repeated `sh:targetSubjectsOf` loop changes nothing: the list is the same without it |
| RdflibTest.AdmitEach | ShacShifter/rdflibtest.py:31-34 | one rule's loop computes `Admit` |
| RdflibTest.ApplyRules | ShacShifter/rdflibtest.py:31-64 | the loops of the rules, applied in order from an empty list, compute `UrisBy` |
| RdflibTest.GetNodeShapeUris | ShacShifter/rdflibtest.py:26-66 | returns the candidate list, with no repetitions |
| RdflibTest.GetPropertyShapeUris | ShacShifter/rdflibtest.py:68-69 | always returns the empty list |
| RdflibTest.MessagesSucceed | ShacShifter/rdflibtest.py:90-94 | reading the messages succeeds exactly when every one is a literal |
| RdflibTest.MessagesKeys | ShacShifter/rdflibtest.py:90-94 | the keys are the old ones plus each message's language, or 'general' |
| RdflibTest.MessagesLastWins | ShacShifter/rdflibtest.py:90-94 | a message is kept under its key unless a later message has the same key |
| RdflibTest.MessagesFailed | ShacShifter/rdflibtest.py:90-94 | once a message raises, the rest of the loop is never reached |
| RdflibTest.NodeShapeOfRaises | ShacShifter/rdflibtest.py:71-100 | `parseNodeShape` raises exactly when some `sh:message` of the shape is not a literal |
| RdflibTest.NodeShapeOfTargets | ShacShifter/rdflibtest.py:74-84 | each target list holds exactly the objects of its predicate |
| RdflibTest.NodeShapeOfMessages | ShacShifter/rdflibtest.py:90-94 | a key is stored exactly when a literal message carries that key |
| RdflibTest.AppendAll | ShacShifter/rdflibtest.py:74-75 | a `for` loop appends every object, in order |
| RdflibTest.ReadMessages | ShacShifter/rdflibtest.py:90-94 | the loop computes `MessagesOf` from an empty dictionary |
| RdflibTest.ParsePropertyShape | ShacShifter/rdflibtest.py:102-104 | always a new empty property-shape record |
| RdflibTest.ParseNodeShape | ShacShifter/rdflibtest.py:71-100 | the record filled from the graph, as `NodeShapeOf`, or the exception raised |
| RdflibTest.MessagesAsWrittenRaises | ShacShifter/rdflibtest.py:90-94 | as written, the message loop returns only when there are no messages, and otherwise raises on the first one |
| RdflibTest.NodeShapeAsWrittenRaises | ShacShifter/rdflibtest.py:71-100 | as written, `parseNodeShape` raises exactly when the shape has an `sh:message` |
| RdflibTest.LangDiscrepancy | ShacShifter/rdflibtest.py:90-94 | for a shape whose messages are all literals, the `.language` reading stores each message under its key, while the code as written raises |

## Left out

- Loading the Turtle file (`ShapeParser.py:29`) and rdflib itself are left out. The graph is a given sequence of triples.
- The SPARQL roots query of `ShapeParser.py:45-55` is not evaluated. `ShapeParser.ParseShape` takes the roots as a parameter, and `RootsOf`/`IsRoot` state what the query selects.
- ShapeParsing.ShapeParser.ParseShape: the roots query's row order is unspecified, so the model takes it as given.
- The cache `self.propertyShapes[stmt] = propertyShape` at `ShapeParser.py:152` is not modelled. Nothing in the reader reads it.
- Nested shapes are stored as value snapshots, not shared objects. Object identity, and aliasing between a shape, the cache and its parent, are not captured.
- The source has no cycle guard when it resolves paths, walks lists or builds nested shapes. On a cyclic graph it recurses until Python's stack overflows. The model requires a ghost bound instead (`PathBounded`, `ListBounded`, `ShapeBounded`), so cyclic input is outside the model.
- A list whose head is `rdf:nil`, or one of whose nodes lacks `rdf:rest`, makes the builder's list walks never terminate: the walk moves on to `None`, which has no `rdf:rest` either. `ShapeParser.py:121-128` and `:235-242` append `str(None)` at each step and `:279-286` appends `None`. Such lists are excluded by `ListBounded`.
- The state a shape is left in after an exception escapes part-way is not specified: the builder returns only the exception. The parser's `wellFormedShapes` is specified in that case: it holds the roots stored before the failing one (`ShapeParsing.ShapeParser.ParseShape`).
- WholeShape.BuildShapeFlags: the flags of a returned shape are tied to the table `BuiltFlags`, and `FlagsFor*` read five of its entries (`uri`, `property`, `maxInclusive`, `MaxInclusive`, `properties`) for every combination of predicates. For the other attributes the reading is given block by block (`*Keeps`, `*Raise`) rather than as one lemma per attribute, because composing the five blocks over a symbolic attribute is beyond the solver's budget.
- The attribute values a returned shape holds are stated block by block, not as one whole-builder lemma: `AppendEachClosed`, `ReadListClosed`, `ListMembersInOrder`, `AddMessagesKeys`, `AddMessagesLastWins`, `SetIntReadsBack`, `SetFlagReadsTrue`, `NestStores` and `AttachListAt` in `BuilderProperties`.
- The graph is a sequence of triples and may repeat one. rdflib's graph is a set, so on a sequence with a repeated triple, `objects` visits the object twice and `MaxConstraint` may count a conflict where rdflib has one value. Results are rdflib's only on sequences without repeats.
- `ShapeParser.py:322-332` calls `fill` on a new `PropertyShape` and then on a `NodeShape`, but neither class defines `fill`. In Python this raises `AttributeError`, which the `except TypeError` clauses do not catch, so `parseWellFormedShape` would never return a shape. The model returns the `WellFormedShape` built so far, as the fallback at line 332 does.
- `NodeKindType.py:3-5` assigns `self.isUri`, `self.isBNode` and `self.isLiteral` in the class body, where `self` is not defined, so importing the module raises `NameError`. The model takes the record the constructor at lines 7-10 intends: three independent flags.
- `WellFormedShape.py:45-46` sets `qualifiedMinCount` and `qualifiedMaxCount` to `-[]`, which raises `TypeError` in Python. These defaults are taken as -1, the value `PropertyShape` gives.
- Python.PyInt: only an optional sign followed by decimal digits is accepted. Surrounding whitespace, underscores and non-ASCII decimal digits (such as Arabic-Indic digits), which Python's `int()` also accepts, are not modelled.
- Python.Lower: only ASCII letters are folded. Python's full Unicode case mapping is not modelled.
- `.language` in `ShapeParser.py:131-135` is the literal's language tag, and on a term that is not a literal it raises `AttributeError`.
- rdflibtest reads `.lang`, which rdflib's `Literal` does not have (it has `language`). As written, `rdflibtest.py:91` and `:94` raise `AttributeError` on every `sh:message` object, literal or not, and so does the printing at `:23`. The model's `NodeShapeOf` reads `.lang` as `.language`. The code as written is modelled by `NodeShapeAsWritten` and listed under "## Findings".
- `MinMaxConstraintError` is declared but never raised by the source. It appears only in the class hierarchy.
- The serializers, writers, `StringSupplier`, the command-line entry point, and rdflibtest's `parseShape` printing and argument parsing are not part of this model.
- Three behaviours of the code are followed as written:
  - a one-element `rdf:` list path stays a one-element list (`PropertyPath.SingletonListNotCollapsed`);
  - the message key is `'default'` in `ShapeParser` and `'general'` in rdflibtest;
  - rdflibtest's `parseNodeShape` and `parsePropertyShape` keep no cache and read single values without the strict mode; `parsePropertyShape` ignores the graph.

## Findings

| source | as written | input that shows it | evidently intended | confidence | as-written member | corrected member |
|---|---|---|---|---|---|---|
| ShacShifter/rdflibtest.py:90-94 | `stmt.lang`, an attribute rdflib terms do not have, so `AttributeError` is raised on the first message | a node shape with one `sh:message "hello"` | `stmt.language`: the message is stored under `'general'`, or under its language tag | not executed; rests on rdflib's `Literal` API | RdflibTest.LangDiscrepancy | RdflibTest.NodeShapeOfMessages |
