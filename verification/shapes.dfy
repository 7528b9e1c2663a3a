/**
 * The shape records the reader fills in.  A Python shape object is a bag of
 * named attributes: its constructor assigns defaults, derives an `isSet`
 * dictionary with one False entry per attribute it assigned, and the builder
 * later writes attributes and flags by name, sometimes under a name the
 * constructor never declared.  So a shape's state is a map from attribute
 * name to its Python value, plus the `isSet` map and the error list.
 */
module Shapes {
  import opened Rdf
  import Exceptions
  import opened PropertyPath

  /**
   * Attribute names, spelled as in the source with a leading capital.  Two
   * of them exist only because the builder writes names the constructors do
   * not declare: `Property` (the flag `isSet['property']`, whereas the
   * attribute is `properties`) and `maxInclusive` (lower case, whereas the
   * constructor declares `MaxInclusive`).  `IsSet` is the `isSet` attribute
   * itself.
   */
  datatype Field =
    | ClassUri | Uri | Name | Description | TargetClass | TargetNode | TargetObjectsOf | TargetSubjectsOf
    | NodeKind | Properties | DefaultValue | Path | Closed | IgnoredProperties | SOr | SNot | SAnd | SXone
    | Message | Classes | Datatype | DataType | MinCount | MaxCount | MinExclusive | MinInclusive | MaxExclusive
    | MaxInclusive | MinLength | MaxLength | Pattern | Flags | LanguageIn | UniqueLang | Equals | Disjoint
    | LessThan | LessThanOrEquals | Nodes | QualifiedValueShape | QualifiedValueShapesDisjoint
    | QualifiedMinCount | QualifiedMaxCount | HasValue | ShIn | Order | Group | Severity
    | Property | maxInclusive | IsSet

  /** Every attribute name. */
  const AllFields: set<Field> := {
    ClassUri, Uri, Name, Description, TargetClass, TargetNode, TargetObjectsOf, TargetSubjectsOf,
    NodeKind, Properties, DefaultValue, Path, Closed, IgnoredProperties, SOr, SNot, SAnd, SXone,
    Message, Classes, Datatype, DataType, MinCount, MaxCount, MinExclusive, MinInclusive, MaxExclusive,
    MaxInclusive, MinLength, MaxLength, Pattern, Flags, LanguageIn, UniqueLang, Equals, Disjoint,
    LessThan, LessThanOrEquals, Nodes, QualifiedValueShape, QualifiedValueShapesDisjoint,
    QualifiedMinCount, QualifiedMaxCount, HasValue, ShIn, Order, Group, Severity,
    Property, maxInclusive, IsSet}

  /** A Python value as the reader stores it in an attribute. */
  datatype Attr =
    | AStr(s: string)
    | AInt(i: int)
    | ABool(b: bool)
    | ATerm(t: Term)
    | ANone
    | AList(items: seq<Attr>)
    | AMessages(messages: map<string, string>)
    | APath(path: PathValue)
    | AShape(shape: Shape)

  /** A shape's state: its attributes, its presence flags and the errors recorded for it. */
  datatype Shape = Shape(attrs: map<Field, Attr>, isSet: map<Field, bool>, errors: seq<Exceptions.Exception>)

  /**
   * The default `WellFormedShape.__init__` assigns to an attribute, if it
   * assigns one.  `qualifiedMinCount` and `qualifiedMaxCount` are written
   * `-[]` in the source, which Python cannot evaluate; they are taken as -1,
   * the default `PropertyShape` gives them.
   */
  function WellFormedDefault(f: Field): Option<Attr> {
    match f
    case ClassUri => Some(AStr(""))
    case Uri => Some(AStr(""))
    case Name => Some(AStr(""))
    case Description => Some(AStr(""))
    case TargetClass => Some(AList([]))
    case TargetNode => Some(AList([]))
    case TargetObjectsOf => Some(AList([]))
    case TargetSubjectsOf => Some(AList([]))
    case NodeKind => Some(AStr(""))
    case Properties => Some(AList([]))
    case DefaultValue => Some(AStr(""))
    case Path => Some(AStr(""))
    case Closed => Some(ABool(false))
    case IgnoredProperties => Some(AList([]))
    case SOr => Some(AList([]))
    case SNot => Some(AList([]))
    case SAnd => Some(AList([]))
    case SXone => Some(AList([]))
    case Message => Some(AMessages(map[]))
    case Classes => Some(AList([]))
    case Datatype => Some(AStr(""))
    case MinCount => Some(AInt(-1))
    case MaxCount => Some(AInt(-1))
    case MinExclusive => Some(AInt(-1))
    case MinInclusive => Some(AInt(-1))
    case MaxExclusive => Some(AInt(-1))
    case MaxInclusive => Some(AInt(-1))
    case MinLength => Some(AInt(-1))
    case MaxLength => Some(AInt(-1))
    case Pattern => Some(AStr(""))
    case Flags => Some(AStr(""))
    case LanguageIn => Some(AList([]))
    case UniqueLang => Some(ABool(false))
    case Equals => Some(AList([]))
    case Disjoint => Some(AList([]))
    case LessThan => Some(AList([]))
    case LessThanOrEquals => Some(AList([]))
    case Nodes => Some(AList([]))
    case QualifiedValueShape => Some(AList([]))
    case QualifiedValueShapesDisjoint => Some(AList([]))
    case QualifiedMinCount => Some(AInt(-1))
    case QualifiedMaxCount => Some(AInt(-1))
    case HasValue => Some(AList([]))
    case ShIn => Some(AList([]))
    case Order => Some(AInt(-1))
    case Group => Some(AStr(""))
    case Severity => Some(AInt(-1))
    case _ => None
  }

  /** The default `PropertyShape.__init__` assigns to an attribute, if it assigns one. */
  function PropertyDefault(f: Field): Option<Attr> {
    match f
    case Uri => Some(AStr(""))
    case Path => Some(AStr(""))
    case Classes => Some(AList([]))
    case DataType => Some(AStr(""))
    case Name => Some(AStr(""))
    case Description => Some(AStr(""))
    case MinCount => Some(AInt(-1))
    case MaxCount => Some(AInt(-1))
    case MinExclusive => Some(AInt(-1))
    case MinInclusive => Some(AInt(-1))
    case MaxExclusive => Some(AInt(-1))
    case MaxInclusive => Some(AInt(-1))
    case MinLength => Some(AInt(-1))
    case MaxLength => Some(AInt(-1))
    case Pattern => Some(AStr(""))
    case Flags => Some(AStr(""))
    case LanguageIn => Some(AList([]))
    case UniqueLang => Some(ABool(false))
    case Equals => Some(AList([]))
    case Disjoint => Some(AList([]))
    case LessThan => Some(AList([]))
    case LessThanOrEquals => Some(AList([]))
    case Nodes => Some(AList([]))
    case QualifiedValueShape => Some(AStr(""))
    case QualifiedValueShapesDisjoint => Some(ABool(false))
    case QualifiedMinCount => Some(AInt(-1))
    case QualifiedMaxCount => Some(AInt(-1))
    case HasValue => Some(AList([]))
    case ShIn => Some(AList([]))
    case Order => Some(AInt(-1))
    case Message => Some(AMessages(map[]))
    case _ => None
  }

  /** The attributes `WellFormedShape()` assigns, with their defaults. */
  const WellFormedDefaults: map<Field, Attr> :=
    map f | f in AllFields && WellFormedDefault(f).Some? :: WellFormedDefault(f).value

  /** The attributes `PropertyShape()` assigns, with their defaults. */
  const PropertyDefaults: map<Field, Attr> :=
    map f | f in AllFields && PropertyDefault(f).Some? :: PropertyDefault(f).value

  /** A presence map with every given attribute unset. */
  function Unset(keys: set<Field>): (r: map<Field, bool>)
    ensures r.Keys == keys
    ensures forall f :: f in r ==> !r[f]
  {
    map f | f in keys :: false
  }

  /**
   * The constructors' closing loop over `vars(self)`: one False entry per
   * attribute assigned so far (none of them starts with `__`, so the
   * source's filter on that prefix drops nothing).  The order of the
   * attributes does not matter to the resulting map.
   */
  method DeriveIsSet(attrs: map<Field, Attr>) returns (isSet: map<Field, bool>)
    ensures isSet == Unset(attrs.Keys)
  {
    isSet := map[];
    var remaining := attrs.Keys;
    while remaining != {}
      invariant remaining <= attrs.Keys
      invariant isSet == Unset(attrs.Keys - remaining)
      decreases remaining
    {
      var f :| f in remaining;
      isSet := isSet[f := false];
      remaining := remaining - {f};
    }
  }

  // The writes the builder makes to a shape, as values

  /** `isSet[k] = True`. */
  function Mark(s: Shape, k: Field): Shape {
    s.(isSet := s.isSet[k := true])
  }

  /** The items already in a list attribute (every list attribute starts as `[]`). */
  function ListAttr(s: Shape, f: Field): seq<Attr> {
    if f in s.attrs && s.attrs[f].AList? then s.attrs[f].items else []
  }

  /** `f.append(x)`. */
  function Append(s: Shape, f: Field, x: Attr): Shape {
    s.(attrs := s.attrs[f := AList(ListAttr(s, f) + [x])])
  }

  /** `f = v`. */
  function Assign(s: Shape, f: Field, v: Attr): Shape {
    s.(attrs := s.attrs[f := v])
  }

  /** `errors += es`. */
  function AddErrors(s: Shape, es: seq<Exceptions.Exception>): Shape {
    s.(errors := s.errors + es)
  }

  /** `modules/WellFormedShape.py`: the record the builder fills in. */
  class WellFormedShape {
    var attrs: map<Field, Attr>
    var isSet: map<Field, bool>
    /** Written by the builder; the constructor does not declare it. */
    var errors: seq<Exceptions.Exception>

    constructor ()
      ensures attrs == WellFormedDefaults
      ensures isSet == Unset(WellFormedDefaults.Keys)
      ensures errors == []
    {
      attrs := WellFormedDefaults;
      errors := [];
      new;
      isSet := DeriveIsSet(attrs);
    }

    /** The shape's state as a value. */
    function Snapshot(): Shape
      reads this
    {
      Shape(attrs, isSet, errors)
    }

    method SetIsSet(k: Field)
      modifies this
      ensures Snapshot() == Mark(old(Snapshot()), k)
    {
      isSet := isSet[k := true];
    }

    method AppendTo(f: Field, x: Attr)
      modifies this
      ensures Snapshot() == Append(old(Snapshot()), f, x)
    {
      attrs := attrs[f := AList(ListAttr(Snapshot(), f) + [x])];
    }

    method SetAttr(f: Field, v: Attr)
      modifies this
      ensures Snapshot() == Assign(old(Snapshot()), f, v)
    {
      attrs := attrs[f := v];
    }

    method ExtendErrors(es: seq<Exceptions.Exception>)
      modifies this
      ensures Snapshot() == AddErrors(old(Snapshot()), es)
    {
      errors := errors + es;
    }
  }

  /** `modules/PropertyShape.py`: a record with the same `isSet` derivation. */
  class PropertyShape {
    var attrs: map<Field, Attr>
    var isSet: map<Field, bool>

    constructor ()
      ensures attrs == PropertyDefaults
      ensures isSet == Unset(PropertyDefaults.Keys)
    {
      attrs := PropertyDefaults;
      new;
      isSet := DeriveIsSet(attrs);
    }
  }

  /** `modules/NodeShape.py`: a plain record with no presence flags. */
  datatype NodeShape = NodeShape(
    uri: string, targetClass: seq<string>, targetNode: seq<string>, targetObjectsOf: seq<string>,
    targetSubjectsOf: seq<string>, nodeKind: string, properties: seq<Shape>, closed: bool,
    ignoredProperties: seq<string>, message: map<string, string>, severity: int)

  /** The record `NodeShape()` creates. */
  const NewNodeShape: NodeShape := NodeShape("", [], [], [], [], "", [], false, [], map[], -1)

  // Facts about the defaults

  predicate NumericField(f: Field) {
    f in {MinCount, MaxCount, MinExclusive, MinInclusive, MaxExclusive, MaxInclusive, MinLength, MaxLength,
          QualifiedMinCount, QualifiedMaxCount, Order, Severity}
  }

  predicate WellFormedListField(f: Field) {
    f in {TargetClass, TargetNode, TargetObjectsOf, TargetSubjectsOf, Properties, IgnoredProperties,
          SOr, SNot, SAnd, SXone, Classes, LanguageIn, Equals, Disjoint, LessThan, LessThanOrEquals, Nodes,
          QualifiedValueShape, QualifiedValueShapesDisjoint, HasValue, ShIn}
  }

  /** The numeric bounds, the order and the severity of a new WellFormedShape are -1. */
  lemma WellFormedNumericDefault(f: Field)
    requires NumericField(f)
    ensures f in WellFormedDefaults && WellFormedDefaults[f] == AInt(-1)
  {
  }

  /** The list attributes of a new WellFormedShape are empty. */
  lemma WellFormedListDefault(f: Field)
    requires WellFormedListField(f)
    ensures f in WellFormedDefaults && WellFormedDefaults[f] == AList([])
  {
  }

  /** `closed` and `uniqueLang` start False. */
  lemma WellFormedFlagDefault(f: Field)
    requires f == Closed || f == UniqueLang
    ensures f in WellFormedDefaults && WellFormedDefaults[f] == ABool(false)
  {
  }

  /** `message` starts as an empty dict. */
  lemma WellFormedMessageDefault()
    ensures Message in WellFormedDefaults && WellFormedDefaults[Message] == AMessages(map[])
  {
  }

  /** The new shape's `isSet` has keys for `uri`, `MaxInclusive` and `properties`, names the constructor assigns. */
  lemma WellFormedIsSetDeclared(f: Field)
    requires f == Uri || f == MaxInclusive || f == Properties
    ensures f in Unset(WellFormedDefaults.Keys)
  {
  }

  /** It has none for `maxInclusive` or `property`, the names the builder uses, nor for `isSet` itself. */
  lemma WellFormedIsSetUndeclared(f: Field)
    requires f == maxInclusive || f == Property || f == IsSet
    ensures f !in Unset(WellFormedDefaults.Keys)
  {
  }

  /** The numeric attributes of a new PropertyShape are -1. */
  lemma PropertyNumericDefault(f: Field)
    requires NumericField(f) && f != Severity
    ensures f in PropertyDefaults && PropertyDefaults[f] == AInt(-1)
  {
  }

  predicate PropertyStringField(f: Field) {
    f in {Uri, Path, DataType, Name, Description, Pattern, Flags, QualifiedValueShape}
  }

  predicate PropertyListField(f: Field) {
    f in {Classes, LanguageIn, Equals, Disjoint, LessThan, LessThanOrEquals, Nodes, HasValue, ShIn}
  }

  /** The string attributes of a new PropertyShape are empty strings. */
  lemma PropertyStringDefault(f: Field)
    requires PropertyStringField(f)
    ensures f in PropertyDefaults && PropertyDefaults[f] == AStr("")
  {
  }

  /** The list attributes of a new PropertyShape are empty. */
  lemma PropertyListDefault(f: Field)
    requires PropertyListField(f)
    ensures f in PropertyDefaults && PropertyDefaults[f] == AList([])
  {
  }

  /** `uniqueLang` and `qualifiedValueShapesDisjoint` start False. */
  lemma PropertyFlagDefault(f: Field)
    requires f == UniqueLang || f == QualifiedValueShapesDisjoint
    ensures f in PropertyDefaults && PropertyDefaults[f] == ABool(false)
  {
  }

  /** `message` starts as an empty dict, and `isSet` has no key for itself. */
  lemma PropertyMessageDefault()
    ensures Message in PropertyDefaults && PropertyDefaults[Message] == AMessages(map[])
    ensures IsSet !in Unset(PropertyDefaults.Keys)
  {
  }
}
