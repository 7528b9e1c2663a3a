/**
 * What a whole run of the shape builder leaves in the shape it returns:
 * every presence flag it sets and the errors it records, in the order it
 * records them.  Each block of `ShapeParsing.Fill` raises the flags of its
 * own SHACL predicates and no other; only the well-formedness checks and
 * the nested builds add errors.
 */
module WholeShape {
  import opened Rdf
  import Exceptions
  import ConstraintCheck
  import opened Python
  import opened Shapes
  import opened ShapeParsing
  import opened BuilderProperties

  // The flags each block sets

  /** `isSet[k] = True` when `present`. */
  function Raise<K>(m: map<K, bool>, k: K, present: bool): map<K, bool> {
    if present then m[k := true] else m
  }

  /** `t` has the predicate `p`: rdflib's `value(t, p)` finds an object. */
  predicate Has(g: Graph, t: Term, p: Term) {
    Value(g, t, p).Some?
  }

  /**
   * Lines 95-128: `uri` for a named shape, then one flag per target predicate
   * and `sh:ignoredProperties`.
   */
  function TargetSteps(m: map<Field, bool>, named: bool, hasTargetClass: bool, hasTargetNode: bool,
      hasTargetObjectsOf: bool, hasTargetSubjectsOf: bool,
      hasIgnoredProperties: bool): map<Field, bool> {
    var m1 := Raise(m, Uri, named);
    var m2 := Raise(m1, TargetClass, hasTargetClass);
    var m3 := Raise(m2, TargetNode, hasTargetNode);
    var m4 := Raise(m3, TargetObjectsOf, hasTargetObjectsOf);
    var m5 := Raise(m4, TargetSubjectsOf, hasTargetSubjectsOf);
    Raise(m5, IgnoredProperties, hasIgnoredProperties)
  }

  /** The target block on `t`: each step told whether `t` carries its predicate. */
  function TargetFlags(g: Graph, t: Term, m: map<Field, bool>): map<Field, bool> {
    TargetSteps(m, !IsBlank(t), Has(g, t, ShTargetClass), Has(g, t, ShTargetNode),
        Has(g, t, ShTargetObjectsOf), Has(g, t, ShTargetSubjectsOf), Has(g, t, ShIgnoredProperties))
  }

  /** Lines 130-158: `property`, not `properties`, records `sh:property`. */
  function DescriptiveSteps(m: map<Field, bool>, hasMessage: bool, hasNodeKind: bool,
      hasClosed: bool, hasProperty: bool, hasPath: bool): map<Field, bool> {
    var m1 := Raise(m, Message, hasMessage);
    var m2 := Raise(m1, NodeKind, hasNodeKind);
    var m3 := Raise(m2, Closed, hasClosed);
    var m4 := Raise(m3, Property, hasProperty);
    Raise(m4, Path, hasPath)
  }

  /** The descriptive block on `t`: each step told whether `t` carries its predicate. */
  function DescriptiveFlags(g: Graph, t: Term, m: map<Field, bool>): map<Field, bool> {
    DescriptiveSteps(m, Has(g, t, ShMessage), Has(g, t, ShNodeKind), Has(g, t, ShClosed),
        Has(g, t, ShProperty), Has(g, t, ShPath))
  }

  /**
   * Lines 160-227: `sh:maxInclusive` is recorded under `maxInclusive`, not the
   * declared `MaxInclusive`.
   */
  function ValueSteps(m: map<Field, bool>, hasClass: bool, hasName: bool, hasDescription: bool,
      hasDatatype: bool, hasMinCount: bool, hasMaxCount: bool, hasMinExclusive: bool,
      hasMinInclusive: bool, hasMaxExclusive: bool, hasMaxInclusive: bool, hasMinLength: bool,
      hasMaxLength: bool, hasPattern: bool, hasFlags: bool): map<Field, bool> {
    var m1 := Raise(m, Classes, hasClass);
    var m2 := Raise(m1, Name, hasName);
    var m3 := Raise(m2, Description, hasDescription);
    var m4 := Raise(m3, Datatype, hasDatatype);
    var m5 := Raise(m4, MinCount, hasMinCount);
    var m6 := Raise(m5, MaxCount, hasMaxCount);
    var m7 := Raise(m6, MinExclusive, hasMinExclusive);
    var m8 := Raise(m7, MinInclusive, hasMinInclusive);
    var m9 := Raise(m8, MaxExclusive, hasMaxExclusive);
    var m10 := Raise(m9, maxInclusive, hasMaxInclusive);
    var m11 := Raise(m10, MinLength, hasMinLength);
    var m12 := Raise(m11, MaxLength, hasMaxLength);
    var m13 := Raise(m12, Pattern, hasPattern);
    Raise(m13, Flags, hasFlags)
  }

  /** The value block on `t`: each step told whether `t` carries its predicate. */
  function ValueFlags(g: Graph, t: Term, m: map<Field, bool>): map<Field, bool> {
    ValueSteps(m, Has(g, t, ShClass), Has(g, t, ShName), Has(g, t, ShDescription),
        Has(g, t, ShDatatype), Has(g, t, ShMinCount), Has(g, t, ShMaxCount),
        Has(g, t, ShMinExclusive), Has(g, t, ShMinInclusive), Has(g, t, ShMaxExclusive),
        Has(g, t, ShMaxInclusive), Has(g, t, ShMinLength), Has(g, t, ShMaxLength),
        Has(g, t, ShPattern), Has(g, t, ShFlags))
  }

  /** Lines 229-291. */
  function ListSteps(m: map<Field, bool>, hasLanguageIn: bool, hasUniqueLang: bool, hasEquals: bool,
      hasDisjoint: bool, hasLessThan: bool, hasLessThanOrEquals: bool, hasNode: bool,
      hasHasValue: bool, hasIn: bool, hasOrder: bool): map<Field, bool> {
    var m1 := Raise(m, LanguageIn, hasLanguageIn);
    var m2 := Raise(m1, UniqueLang, hasUniqueLang);
    var m3 := Raise(m2, Equals, hasEquals);
    var m4 := Raise(m3, Disjoint, hasDisjoint);
    var m5 := Raise(m4, LessThan, hasLessThan);
    var m6 := Raise(m5, LessThanOrEquals, hasLessThanOrEquals);
    var m7 := Raise(m6, Nodes, hasNode);
    var m8 := Raise(m7, HasValue, hasHasValue);
    var m9 := Raise(m8, ShIn, hasIn);
    Raise(m9, Order, hasOrder)
  }

  /** The list block on `t`: each step told whether `t` carries its predicate. */
  function ListFlags(g: Graph, t: Term, m: map<Field, bool>): map<Field, bool> {
    ListSteps(m, Has(g, t, ShLanguageIn), Has(g, t, ShUniqueLang), Has(g, t, ShEquals),
        Has(g, t, ShDisjoint), Has(g, t, ShLessThan), Has(g, t, ShLessThanOrEquals),
        Has(g, t, ShNode), Has(g, t, ShHasValue), Has(g, t, Rdf.ShIn), Has(g, t, ShOrder))
  }

  /** Lines 294-321. */
  function NestedSteps(m: map<Field, bool>, hasQualifiedValueShape: bool,
      hasQualifiedValueShapesDisjoint: bool, hasQualifiedMinCount: bool, hasQualifiedMaxCount: bool,
      hasGroup: bool): map<Field, bool> {
    var m1 := Raise(m, QualifiedValueShape, hasQualifiedValueShape);
    var m2 := Raise(m1, QualifiedValueShapesDisjoint, hasQualifiedValueShapesDisjoint);
    var m3 := Raise(m2, QualifiedMinCount, hasQualifiedMinCount);
    var m4 := Raise(m3, QualifiedMaxCount, hasQualifiedMaxCount);
    Raise(m4, Group, hasGroup)
  }

  /** The nested block on `t`: each step told whether `t` carries its predicate. */
  function NestedFlags(g: Graph, t: Term, m: map<Field, bool>): map<Field, bool> {
    NestedSteps(m, Has(g, t, ShQualifiedValueShape), Has(g, t, ShQualifiedValueShapesDisjoint),
        Has(g, t, ShQualifiedMinCount), Has(g, t, ShQualifiedMaxCount), Has(g, t, ShGroup))
  }

  /**
   * The flags the five blocks leave, from all False, for a node that is
   * named (or not) and carries (or not) each predicate they read.
   */
  function FlagsFor(named: bool, hasTargetClass: bool, hasTargetNode: bool,
      hasTargetObjectsOf: bool, hasTargetSubjectsOf: bool, hasIgnoredProperties: bool,
      hasMessage: bool, hasNodeKind: bool, hasClosed: bool, hasProperty: bool, hasPath: bool,
      hasClass: bool, hasName: bool, hasDescription: bool, hasDatatype: bool, hasMinCount: bool,
      hasMaxCount: bool, hasMinExclusive: bool, hasMinInclusive: bool, hasMaxExclusive: bool,
      hasMaxInclusive: bool, hasMinLength: bool, hasMaxLength: bool, hasPattern: bool,
      hasFlags: bool, hasLanguageIn: bool, hasUniqueLang: bool, hasEquals: bool, hasDisjoint: bool,
      hasLessThan: bool, hasLessThanOrEquals: bool, hasNode: bool, hasHasValue: bool, hasIn: bool,
      hasOrder: bool, hasQualifiedValueShape: bool, hasQualifiedValueShapesDisjoint: bool,
      hasQualifiedMinCount: bool, hasQualifiedMaxCount: bool, hasGroup: bool): map<Field, bool>
  {
    var m1 := TargetSteps(Unset(WellFormedDefaults.Keys), named, hasTargetClass, hasTargetNode,
        hasTargetObjectsOf, hasTargetSubjectsOf, hasIgnoredProperties);
    var m2 := DescriptiveSteps(m1, hasMessage, hasNodeKind, hasClosed, hasProperty, hasPath);
    var m3 := ValueSteps(m2, hasClass, hasName, hasDescription, hasDatatype, hasMinCount,
        hasMaxCount, hasMinExclusive, hasMinInclusive, hasMaxExclusive, hasMaxInclusive,
        hasMinLength, hasMaxLength, hasPattern, hasFlags);
    var m4 := ListSteps(m3, hasLanguageIn, hasUniqueLang, hasEquals, hasDisjoint, hasLessThan,
        hasLessThanOrEquals, hasNode, hasHasValue, hasIn, hasOrder);
    NestedSteps(m4, hasQualifiedValueShape, hasQualifiedValueShapesDisjoint, hasQualifiedMinCount,
        hasQualifiedMaxCount, hasGroup)
  }

  /**
   * The flags of a shape built from `t`: the table of lines 95-321, each
   * attribute told whether `t` carries its predicate.
   */
  function BuiltFlags(g: Graph, t: Term): map<Field, bool> {
    FlagsFor(!IsBlank(t), Has(g, t, ShTargetClass), Has(g, t, ShTargetNode),
        Has(g, t, ShTargetObjectsOf), Has(g, t, ShTargetSubjectsOf), Has(g, t, ShIgnoredProperties),
        Has(g, t, ShMessage), Has(g, t, ShNodeKind), Has(g, t, ShClosed), Has(g, t, ShProperty),
        Has(g, t, ShPath), Has(g, t, ShClass), Has(g, t, ShName), Has(g, t, ShDescription),
        Has(g, t, ShDatatype), Has(g, t, ShMinCount), Has(g, t, ShMaxCount),
        Has(g, t, ShMinExclusive), Has(g, t, ShMinInclusive), Has(g, t, ShMaxExclusive),
        Has(g, t, ShMaxInclusive), Has(g, t, ShMinLength), Has(g, t, ShMaxLength),
        Has(g, t, ShPattern), Has(g, t, ShFlags), Has(g, t, ShLanguageIn), Has(g, t, ShUniqueLang),
        Has(g, t, ShEquals), Has(g, t, ShDisjoint), Has(g, t, ShLessThan),
        Has(g, t, ShLessThanOrEquals), Has(g, t, ShNode), Has(g, t, ShHasValue),
        Has(g, t, Rdf.ShIn), Has(g, t, ShOrder), Has(g, t, ShQualifiedValueShape),
        Has(g, t, ShQualifiedValueShapesDisjoint), Has(g, t, ShQualifiedMinCount),
        Has(g, t, ShQualifiedMaxCount), Has(g, t, ShGroup))
  }

  /** `k` is recorded as set in `m`. */
  predicate Flagged<K>(m: map<K, bool>, k: K) {
    k in m && m[k]
  }

  /** A step for another attribute leaves `x` as it was. */
  lemma RaiseOther<K>(m: map<K, bool>, k: K, present: bool, x: K)
    requires x != k
    ensures (x in Raise(m, k, present)) == (x in m) && Flagged(Raise(m, k, present),
        x) == Flagged(m, x)
  {
  }

  /** A step for `k` records it exactly when its predicate is present. */
  lemma RaiseSame<K>(m: map<K, bool>, k: K, present: bool)
    ensures (k in Raise(m, k, present)) == (k in m || present)
    ensures Flagged(Raise(m, k, present), k) == (Flagged(m, k) || present)
  {
  }

  /** The target block leaves every other attribute as it was. */
  lemma TargetKeeps(m: map<Field, bool>, x: Field, named: bool, hasTargetClass: bool,
      hasTargetNode: bool, hasTargetObjectsOf: bool, hasTargetSubjectsOf: bool,
      hasIgnoredProperties: bool)
    requires x !in {Uri, TargetClass, TargetNode, TargetObjectsOf, TargetSubjectsOf,
        IgnoredProperties}
    ensures (x in TargetSteps(m, named, hasTargetClass, hasTargetNode, hasTargetObjectsOf,
        hasTargetSubjectsOf, hasIgnoredProperties)) == (x in m)
    ensures Flagged(TargetSteps(m, named, hasTargetClass, hasTargetNode, hasTargetObjectsOf,
        hasTargetSubjectsOf, hasIgnoredProperties), x) == Flagged(m, x)
  {
    RaiseOther(m, Uri, named, x);
    var m1 := Raise(m, Uri, named);
    RaiseOther(m1, TargetClass, hasTargetClass, x);
    var m2 := Raise(m1, TargetClass, hasTargetClass);
    RaiseOther(m2, TargetNode, hasTargetNode, x);
    var m3 := Raise(m2, TargetNode, hasTargetNode);
    RaiseOther(m3, TargetObjectsOf, hasTargetObjectsOf, x);
    var m4 := Raise(m3, TargetObjectsOf, hasTargetObjectsOf);
    RaiseOther(m4, TargetSubjectsOf, hasTargetSubjectsOf, x);
    var m5 := Raise(m4, TargetSubjectsOf, hasTargetSubjectsOf);
    RaiseOther(m5, IgnoredProperties, hasIgnoredProperties, x);
  }

  /** The descriptive block leaves every other attribute as it was. */
  lemma DescriptiveKeeps(m: map<Field, bool>, x: Field, hasMessage: bool, hasNodeKind: bool,
      hasClosed: bool, hasProperty: bool, hasPath: bool)
    requires x !in {Message, NodeKind, Closed, Property, Path}
    ensures (x in DescriptiveSteps(m, hasMessage, hasNodeKind, hasClosed, hasProperty,
        hasPath)) == (x in m)
    ensures Flagged(DescriptiveSteps(m, hasMessage, hasNodeKind, hasClosed, hasProperty, hasPath),
        x) == Flagged(m, x)
  {
    RaiseOther(m, Message, hasMessage, x);
    var m1 := Raise(m, Message, hasMessage);
    RaiseOther(m1, NodeKind, hasNodeKind, x);
    var m2 := Raise(m1, NodeKind, hasNodeKind);
    RaiseOther(m2, Closed, hasClosed, x);
    var m3 := Raise(m2, Closed, hasClosed);
    RaiseOther(m3, Property, hasProperty, x);
    var m4 := Raise(m3, Property, hasProperty);
    RaiseOther(m4, Path, hasPath, x);
  }

  /** The value block leaves every other attribute as it was. */
  lemma ValueKeeps(m: map<Field, bool>, x: Field, hasClass: bool, hasName: bool,
      hasDescription: bool, hasDatatype: bool, hasMinCount: bool, hasMaxCount: bool,
      hasMinExclusive: bool, hasMinInclusive: bool, hasMaxExclusive: bool, hasMaxInclusive: bool,
      hasMinLength: bool, hasMaxLength: bool, hasPattern: bool, hasFlags: bool)
    requires x !in {Classes, Name, Description, Datatype, MinCount, MaxCount, MinExclusive,
        MinInclusive, MaxExclusive, maxInclusive, MinLength, MaxLength, Pattern, Flags}
    ensures (x in ValueSteps(m, hasClass, hasName, hasDescription, hasDatatype, hasMinCount,
        hasMaxCount, hasMinExclusive, hasMinInclusive, hasMaxExclusive, hasMaxInclusive,
        hasMinLength, hasMaxLength, hasPattern, hasFlags)) == (x in m)
    ensures Flagged(ValueSteps(m, hasClass, hasName, hasDescription, hasDatatype, hasMinCount,
        hasMaxCount, hasMinExclusive, hasMinInclusive, hasMaxExclusive, hasMaxInclusive,
        hasMinLength, hasMaxLength, hasPattern, hasFlags), x) == Flagged(m, x)
  {
    RaiseOther(m, Classes, hasClass, x);
    var m1 := Raise(m, Classes, hasClass);
    RaiseOther(m1, Name, hasName, x);
    var m2 := Raise(m1, Name, hasName);
    RaiseOther(m2, Description, hasDescription, x);
    var m3 := Raise(m2, Description, hasDescription);
    RaiseOther(m3, Datatype, hasDatatype, x);
    var m4 := Raise(m3, Datatype, hasDatatype);
    RaiseOther(m4, MinCount, hasMinCount, x);
    var m5 := Raise(m4, MinCount, hasMinCount);
    RaiseOther(m5, MaxCount, hasMaxCount, x);
    var m6 := Raise(m5, MaxCount, hasMaxCount);
    RaiseOther(m6, MinExclusive, hasMinExclusive, x);
    var m7 := Raise(m6, MinExclusive, hasMinExclusive);
    RaiseOther(m7, MinInclusive, hasMinInclusive, x);
    var m8 := Raise(m7, MinInclusive, hasMinInclusive);
    RaiseOther(m8, MaxExclusive, hasMaxExclusive, x);
    var m9 := Raise(m8, MaxExclusive, hasMaxExclusive);
    RaiseOther(m9, maxInclusive, hasMaxInclusive, x);
    var m10 := Raise(m9, maxInclusive, hasMaxInclusive);
    RaiseOther(m10, MinLength, hasMinLength, x);
    var m11 := Raise(m10, MinLength, hasMinLength);
    RaiseOther(m11, MaxLength, hasMaxLength, x);
    var m12 := Raise(m11, MaxLength, hasMaxLength);
    RaiseOther(m12, Pattern, hasPattern, x);
    var m13 := Raise(m12, Pattern, hasPattern);
    RaiseOther(m13, Flags, hasFlags, x);
  }

  /** The list block leaves every other attribute as it was. */
  lemma ListKeeps(m: map<Field, bool>, x: Field, hasLanguageIn: bool, hasUniqueLang: bool,
      hasEquals: bool, hasDisjoint: bool, hasLessThan: bool, hasLessThanOrEquals: bool,
      hasNode: bool, hasHasValue: bool, hasIn: bool, hasOrder: bool)
    requires x !in {LanguageIn, UniqueLang, Equals, Disjoint, LessThan, LessThanOrEquals, Nodes,
        HasValue, ShIn, Order}
    ensures (x in ListSteps(m, hasLanguageIn, hasUniqueLang, hasEquals, hasDisjoint, hasLessThan,
        hasLessThanOrEquals, hasNode, hasHasValue, hasIn, hasOrder)) == (x in m)
    ensures Flagged(ListSteps(m, hasLanguageIn, hasUniqueLang, hasEquals, hasDisjoint, hasLessThan,
        hasLessThanOrEquals, hasNode, hasHasValue, hasIn, hasOrder), x) == Flagged(m, x)
  {
    RaiseOther(m, LanguageIn, hasLanguageIn, x);
    var m1 := Raise(m, LanguageIn, hasLanguageIn);
    RaiseOther(m1, UniqueLang, hasUniqueLang, x);
    var m2 := Raise(m1, UniqueLang, hasUniqueLang);
    RaiseOther(m2, Equals, hasEquals, x);
    var m3 := Raise(m2, Equals, hasEquals);
    RaiseOther(m3, Disjoint, hasDisjoint, x);
    var m4 := Raise(m3, Disjoint, hasDisjoint);
    RaiseOther(m4, LessThan, hasLessThan, x);
    var m5 := Raise(m4, LessThan, hasLessThan);
    RaiseOther(m5, LessThanOrEquals, hasLessThanOrEquals, x);
    var m6 := Raise(m5, LessThanOrEquals, hasLessThanOrEquals);
    RaiseOther(m6, Nodes, hasNode, x);
    var m7 := Raise(m6, Nodes, hasNode);
    RaiseOther(m7, HasValue, hasHasValue, x);
    var m8 := Raise(m7, HasValue, hasHasValue);
    RaiseOther(m8, ShIn, hasIn, x);
    var m9 := Raise(m8, ShIn, hasIn);
    RaiseOther(m9, Order, hasOrder, x);
  }

  /** The nested block leaves every other attribute as it was. */
  lemma NestedKeeps(m: map<Field, bool>, x: Field, hasQualifiedValueShape: bool,
      hasQualifiedValueShapesDisjoint: bool, hasQualifiedMinCount: bool, hasQualifiedMaxCount: bool,
      hasGroup: bool)
    requires x !in {QualifiedValueShape, QualifiedValueShapesDisjoint, QualifiedMinCount,
        QualifiedMaxCount, Group}
    ensures (x in NestedSteps(m, hasQualifiedValueShape, hasQualifiedValueShapesDisjoint,
        hasQualifiedMinCount, hasQualifiedMaxCount, hasGroup)) == (x in m)
    ensures Flagged(NestedSteps(m, hasQualifiedValueShape, hasQualifiedValueShapesDisjoint,
        hasQualifiedMinCount, hasQualifiedMaxCount, hasGroup), x) == Flagged(m, x)
  {
    RaiseOther(m, QualifiedValueShape, hasQualifiedValueShape, x);
    var m1 := Raise(m, QualifiedValueShape, hasQualifiedValueShape);
    RaiseOther(m1, QualifiedValueShapesDisjoint, hasQualifiedValueShapesDisjoint, x);
    var m2 := Raise(m1, QualifiedValueShapesDisjoint, hasQualifiedValueShapesDisjoint);
    RaiseOther(m2, QualifiedMinCount, hasQualifiedMinCount, x);
    var m3 := Raise(m2, QualifiedMinCount, hasQualifiedMinCount);
    RaiseOther(m3, QualifiedMaxCount, hasQualifiedMaxCount, x);
    var m4 := Raise(m3, QualifiedMaxCount, hasQualifiedMaxCount);
    RaiseOther(m4, Group, hasGroup, x);
  }

  /** The target block records `uri` exactly for a named node. */
  lemma TargetSetsUri(m: map<Field, bool>, named: bool, hasTargetClass: bool, hasTargetNode: bool,
      hasTargetObjectsOf: bool, hasTargetSubjectsOf: bool, hasIgnoredProperties: bool)
    ensures (Uri in TargetSteps(m, named, hasTargetClass, hasTargetNode, hasTargetObjectsOf,
        hasTargetSubjectsOf, hasIgnoredProperties)) == (Uri in m || named)
    ensures Flagged(TargetSteps(m, named, hasTargetClass, hasTargetNode, hasTargetObjectsOf,
        hasTargetSubjectsOf, hasIgnoredProperties), Uri) == (Flagged(m, Uri) || named)
  {
    RaiseSame(m, Uri, named);
    var m1 := Raise(m, Uri, named);
    RaiseOther(m1, TargetClass, hasTargetClass, Uri);
    var m2 := Raise(m1, TargetClass, hasTargetClass);
    RaiseOther(m2, TargetNode, hasTargetNode, Uri);
    var m3 := Raise(m2, TargetNode, hasTargetNode);
    RaiseOther(m3, TargetObjectsOf, hasTargetObjectsOf, Uri);
    var m4 := Raise(m3, TargetObjectsOf, hasTargetObjectsOf);
    RaiseOther(m4, TargetSubjectsOf, hasTargetSubjectsOf, Uri);
    var m5 := Raise(m4, TargetSubjectsOf, hasTargetSubjectsOf);
    RaiseOther(m5, IgnoredProperties, hasIgnoredProperties, Uri);
  }

  /** The descriptive block records `property` exactly when `sh:property` is present. */
  lemma DescriptiveSetsProperty(m: map<Field, bool>, hasMessage: bool, hasNodeKind: bool,
      hasClosed: bool, hasProperty: bool, hasPath: bool)
    ensures (Property in DescriptiveSteps(m, hasMessage, hasNodeKind, hasClosed, hasProperty,
        hasPath)) == (Property in m || hasProperty)
    ensures Flagged(DescriptiveSteps(m, hasMessage, hasNodeKind, hasClosed, hasProperty, hasPath),
        Property) == (Flagged(m, Property) || hasProperty)
  {
    RaiseOther(m, Message, hasMessage, Property);
    var m1 := Raise(m, Message, hasMessage);
    RaiseOther(m1, NodeKind, hasNodeKind, Property);
    var m2 := Raise(m1, NodeKind, hasNodeKind);
    RaiseOther(m2, Closed, hasClosed, Property);
    var m3 := Raise(m2, Closed, hasClosed);
    RaiseSame(m3, Property, hasProperty);
    var m4 := Raise(m3, Property, hasProperty);
    RaiseOther(m4, Path, hasPath, Property);
  }

  /** The value block records `maxInclusive` exactly when `sh:maxInclusive` is present. */
  lemma ValueSetsLowerMaxInclusive(m: map<Field, bool>, hasClass: bool, hasName: bool,
      hasDescription: bool, hasDatatype: bool, hasMinCount: bool, hasMaxCount: bool,
      hasMinExclusive: bool, hasMinInclusive: bool, hasMaxExclusive: bool, hasMaxInclusive: bool,
      hasMinLength: bool, hasMaxLength: bool, hasPattern: bool, hasFlags: bool)
    ensures (maxInclusive in ValueSteps(m, hasClass, hasName, hasDescription, hasDatatype,
        hasMinCount, hasMaxCount, hasMinExclusive, hasMinInclusive, hasMaxExclusive,
        hasMaxInclusive, hasMinLength, hasMaxLength, hasPattern,
        hasFlags)) == (maxInclusive in m || hasMaxInclusive)
    ensures Flagged(ValueSteps(m, hasClass, hasName, hasDescription, hasDatatype, hasMinCount,
        hasMaxCount, hasMinExclusive, hasMinInclusive, hasMaxExclusive, hasMaxInclusive,
        hasMinLength, hasMaxLength, hasPattern, hasFlags),
        maxInclusive) == (Flagged(m, maxInclusive) || hasMaxInclusive)
  {
    RaiseOther(m, Classes, hasClass, maxInclusive);
    var m1 := Raise(m, Classes, hasClass);
    RaiseOther(m1, Name, hasName, maxInclusive);
    var m2 := Raise(m1, Name, hasName);
    RaiseOther(m2, Description, hasDescription, maxInclusive);
    var m3 := Raise(m2, Description, hasDescription);
    RaiseOther(m3, Datatype, hasDatatype, maxInclusive);
    var m4 := Raise(m3, Datatype, hasDatatype);
    RaiseOther(m4, MinCount, hasMinCount, maxInclusive);
    var m5 := Raise(m4, MinCount, hasMinCount);
    RaiseOther(m5, MaxCount, hasMaxCount, maxInclusive);
    var m6 := Raise(m5, MaxCount, hasMaxCount);
    RaiseOther(m6, MinExclusive, hasMinExclusive, maxInclusive);
    var m7 := Raise(m6, MinExclusive, hasMinExclusive);
    RaiseOther(m7, MinInclusive, hasMinInclusive, maxInclusive);
    var m8 := Raise(m7, MinInclusive, hasMinInclusive);
    RaiseOther(m8, MaxExclusive, hasMaxExclusive, maxInclusive);
    var m9 := Raise(m8, MaxExclusive, hasMaxExclusive);
    RaiseSame(m9, maxInclusive, hasMaxInclusive);
    var m10 := Raise(m9, maxInclusive, hasMaxInclusive);
    RaiseOther(m10, MinLength, hasMinLength, maxInclusive);
    var m11 := Raise(m10, MinLength, hasMinLength);
    RaiseOther(m11, MaxLength, hasMaxLength, maxInclusive);
    var m12 := Raise(m11, MaxLength, hasMaxLength);
    RaiseOther(m12, Pattern, hasPattern, maxInclusive);
    var m13 := Raise(m12, Pattern, hasPattern);
    RaiseOther(m13, Flags, hasFlags, maxInclusive);
  }

  /** Whatever the node carries, the declared `MaxInclusive` stays False: no block records it. */
  lemma FlagsForMaxInclusive(named: bool, hasTargetClass: bool, hasTargetNode: bool,
      hasTargetObjectsOf: bool, hasTargetSubjectsOf: bool, hasIgnoredProperties: bool,
      hasMessage: bool, hasNodeKind: bool, hasClosed: bool, hasProperty: bool, hasPath: bool,
      hasClass: bool, hasName: bool, hasDescription: bool, hasDatatype: bool, hasMinCount: bool,
      hasMaxCount: bool, hasMinExclusive: bool, hasMinInclusive: bool, hasMaxExclusive: bool,
      hasMaxInclusive: bool, hasMinLength: bool, hasMaxLength: bool, hasPattern: bool,
      hasFlags: bool, hasLanguageIn: bool, hasUniqueLang: bool, hasEquals: bool, hasDisjoint: bool,
      hasLessThan: bool, hasLessThanOrEquals: bool, hasNode: bool, hasHasValue: bool, hasIn: bool,
      hasOrder: bool, hasQualifiedValueShape: bool, hasQualifiedValueShapesDisjoint: bool,
      hasQualifiedMinCount: bool, hasQualifiedMaxCount: bool, hasGroup: bool)
    ensures var f := FlagsFor(named, hasTargetClass, hasTargetNode, hasTargetObjectsOf,
        hasTargetSubjectsOf, hasIgnoredProperties, hasMessage, hasNodeKind, hasClosed, hasProperty,
        hasPath, hasClass, hasName, hasDescription, hasDatatype, hasMinCount, hasMaxCount,
        hasMinExclusive, hasMinInclusive, hasMaxExclusive, hasMaxInclusive, hasMinLength,
        hasMaxLength, hasPattern, hasFlags, hasLanguageIn, hasUniqueLang, hasEquals, hasDisjoint,
        hasLessThan, hasLessThanOrEquals, hasNode, hasHasValue, hasIn, hasOrder,
        hasQualifiedValueShape, hasQualifiedValueShapesDisjoint, hasQualifiedMinCount,
        hasQualifiedMaxCount, hasGroup);
      MaxInclusive in f && !f[MaxInclusive]
  {
    var m0 := Unset(WellFormedDefaults.Keys);
    WellFormedIsSetDeclared(MaxInclusive);
    TargetKeeps(m0, MaxInclusive, named, hasTargetClass, hasTargetNode, hasTargetObjectsOf,
        hasTargetSubjectsOf, hasIgnoredProperties);
    var m1 := TargetSteps(m0, named, hasTargetClass, hasTargetNode, hasTargetObjectsOf,
        hasTargetSubjectsOf, hasIgnoredProperties);
    DescriptiveKeeps(m1, MaxInclusive, hasMessage, hasNodeKind, hasClosed, hasProperty, hasPath);
    var m2 := DescriptiveSteps(m1, hasMessage, hasNodeKind, hasClosed, hasProperty, hasPath);
    ValueKeeps(m2, MaxInclusive, hasClass, hasName, hasDescription, hasDatatype, hasMinCount,
        hasMaxCount, hasMinExclusive, hasMinInclusive, hasMaxExclusive, hasMaxInclusive,
        hasMinLength, hasMaxLength, hasPattern, hasFlags);
    var m3 := ValueSteps(m2, hasClass, hasName, hasDescription, hasDatatype, hasMinCount,
        hasMaxCount, hasMinExclusive, hasMinInclusive, hasMaxExclusive, hasMaxInclusive,
        hasMinLength, hasMaxLength, hasPattern, hasFlags);
    ListKeeps(m3, MaxInclusive, hasLanguageIn, hasUniqueLang, hasEquals, hasDisjoint, hasLessThan,
        hasLessThanOrEquals, hasNode, hasHasValue, hasIn, hasOrder);
    var m4 := ListSteps(m3, hasLanguageIn, hasUniqueLang, hasEquals, hasDisjoint, hasLessThan,
        hasLessThanOrEquals, hasNode, hasHasValue, hasIn, hasOrder);
    NestedKeeps(m4, MaxInclusive, hasQualifiedValueShape, hasQualifiedValueShapesDisjoint,
        hasQualifiedMinCount, hasQualifiedMaxCount, hasGroup);
  }

  /** Whatever the node carries, the declared `properties` stays False: no block records it. */
  lemma FlagsForProperties(named: bool, hasTargetClass: bool, hasTargetNode: bool,
      hasTargetObjectsOf: bool, hasTargetSubjectsOf: bool, hasIgnoredProperties: bool,
      hasMessage: bool, hasNodeKind: bool, hasClosed: bool, hasProperty: bool, hasPath: bool,
      hasClass: bool, hasName: bool, hasDescription: bool, hasDatatype: bool, hasMinCount: bool,
      hasMaxCount: bool, hasMinExclusive: bool, hasMinInclusive: bool, hasMaxExclusive: bool,
      hasMaxInclusive: bool, hasMinLength: bool, hasMaxLength: bool, hasPattern: bool,
      hasFlags: bool, hasLanguageIn: bool, hasUniqueLang: bool, hasEquals: bool, hasDisjoint: bool,
      hasLessThan: bool, hasLessThanOrEquals: bool, hasNode: bool, hasHasValue: bool, hasIn: bool,
      hasOrder: bool, hasQualifiedValueShape: bool, hasQualifiedValueShapesDisjoint: bool,
      hasQualifiedMinCount: bool, hasQualifiedMaxCount: bool, hasGroup: bool)
    ensures var f := FlagsFor(named, hasTargetClass, hasTargetNode, hasTargetObjectsOf,
        hasTargetSubjectsOf, hasIgnoredProperties, hasMessage, hasNodeKind, hasClosed, hasProperty,
        hasPath, hasClass, hasName, hasDescription, hasDatatype, hasMinCount, hasMaxCount,
        hasMinExclusive, hasMinInclusive, hasMaxExclusive, hasMaxInclusive, hasMinLength,
        hasMaxLength, hasPattern, hasFlags, hasLanguageIn, hasUniqueLang, hasEquals, hasDisjoint,
        hasLessThan, hasLessThanOrEquals, hasNode, hasHasValue, hasIn, hasOrder,
        hasQualifiedValueShape, hasQualifiedValueShapesDisjoint, hasQualifiedMinCount,
        hasQualifiedMaxCount, hasGroup);
      Properties in f && !f[Properties]
  {
    var m0 := Unset(WellFormedDefaults.Keys);
    WellFormedIsSetDeclared(Properties);
    TargetKeeps(m0, Properties, named, hasTargetClass, hasTargetNode, hasTargetObjectsOf,
        hasTargetSubjectsOf, hasIgnoredProperties);
    var m1 := TargetSteps(m0, named, hasTargetClass, hasTargetNode, hasTargetObjectsOf,
        hasTargetSubjectsOf, hasIgnoredProperties);
    DescriptiveKeeps(m1, Properties, hasMessage, hasNodeKind, hasClosed, hasProperty, hasPath);
    var m2 := DescriptiveSteps(m1, hasMessage, hasNodeKind, hasClosed, hasProperty, hasPath);
    ValueKeeps(m2, Properties, hasClass, hasName, hasDescription, hasDatatype, hasMinCount,
        hasMaxCount, hasMinExclusive, hasMinInclusive, hasMaxExclusive, hasMaxInclusive,
        hasMinLength, hasMaxLength, hasPattern, hasFlags);
    var m3 := ValueSteps(m2, hasClass, hasName, hasDescription, hasDatatype, hasMinCount,
        hasMaxCount, hasMinExclusive, hasMinInclusive, hasMaxExclusive, hasMaxInclusive,
        hasMinLength, hasMaxLength, hasPattern, hasFlags);
    ListKeeps(m3, Properties, hasLanguageIn, hasUniqueLang, hasEquals, hasDisjoint, hasLessThan,
        hasLessThanOrEquals, hasNode, hasHasValue, hasIn, hasOrder);
    var m4 := ListSteps(m3, hasLanguageIn, hasUniqueLang, hasEquals, hasDisjoint, hasLessThan,
        hasLessThanOrEquals, hasNode, hasHasValue, hasIn, hasOrder);
    NestedKeeps(m4, Properties, hasQualifiedValueShape, hasQualifiedValueShapesDisjoint,
        hasQualifiedMinCount, hasQualifiedMaxCount, hasGroup);
  }

  /** `uri` is declared, and set exactly for a named node. */
  lemma FlagsForUri(named: bool, hasTargetClass: bool, hasTargetNode: bool,
      hasTargetObjectsOf: bool, hasTargetSubjectsOf: bool, hasIgnoredProperties: bool,
      hasMessage: bool, hasNodeKind: bool, hasClosed: bool, hasProperty: bool, hasPath: bool,
      hasClass: bool, hasName: bool, hasDescription: bool, hasDatatype: bool, hasMinCount: bool,
      hasMaxCount: bool, hasMinExclusive: bool, hasMinInclusive: bool, hasMaxExclusive: bool,
      hasMaxInclusive: bool, hasMinLength: bool, hasMaxLength: bool, hasPattern: bool,
      hasFlags: bool, hasLanguageIn: bool, hasUniqueLang: bool, hasEquals: bool, hasDisjoint: bool,
      hasLessThan: bool, hasLessThanOrEquals: bool, hasNode: bool, hasHasValue: bool, hasIn: bool,
      hasOrder: bool, hasQualifiedValueShape: bool, hasQualifiedValueShapesDisjoint: bool,
      hasQualifiedMinCount: bool, hasQualifiedMaxCount: bool, hasGroup: bool)
    ensures var f := FlagsFor(named, hasTargetClass, hasTargetNode, hasTargetObjectsOf,
        hasTargetSubjectsOf, hasIgnoredProperties, hasMessage, hasNodeKind, hasClosed, hasProperty,
        hasPath, hasClass, hasName, hasDescription, hasDatatype, hasMinCount, hasMaxCount,
        hasMinExclusive, hasMinInclusive, hasMaxExclusive, hasMaxInclusive, hasMinLength,
        hasMaxLength, hasPattern, hasFlags, hasLanguageIn, hasUniqueLang, hasEquals, hasDisjoint,
        hasLessThan, hasLessThanOrEquals, hasNode, hasHasValue, hasIn, hasOrder,
        hasQualifiedValueShape, hasQualifiedValueShapesDisjoint, hasQualifiedMinCount,
        hasQualifiedMaxCount, hasGroup);
      Uri in f && (f[Uri] <==> named)
  {
    var m0 := Unset(WellFormedDefaults.Keys);
    WellFormedIsSetDeclared(Uri);
    TargetSetsUri(m0, named, hasTargetClass, hasTargetNode, hasTargetObjectsOf, hasTargetSubjectsOf,
        hasIgnoredProperties);
    var m1 := TargetSteps(m0, named, hasTargetClass, hasTargetNode, hasTargetObjectsOf,
        hasTargetSubjectsOf, hasIgnoredProperties);
    DescriptiveKeeps(m1, Uri, hasMessage, hasNodeKind, hasClosed, hasProperty, hasPath);
    var m2 := DescriptiveSteps(m1, hasMessage, hasNodeKind, hasClosed, hasProperty, hasPath);
    ValueKeeps(m2, Uri, hasClass, hasName, hasDescription, hasDatatype, hasMinCount, hasMaxCount,
        hasMinExclusive, hasMinInclusive, hasMaxExclusive, hasMaxInclusive, hasMinLength,
        hasMaxLength, hasPattern, hasFlags);
    var m3 := ValueSteps(m2, hasClass, hasName, hasDescription, hasDatatype, hasMinCount,
        hasMaxCount, hasMinExclusive, hasMinInclusive, hasMaxExclusive, hasMaxInclusive,
        hasMinLength, hasMaxLength, hasPattern, hasFlags);
    ListKeeps(m3, Uri, hasLanguageIn, hasUniqueLang, hasEquals, hasDisjoint, hasLessThan,
        hasLessThanOrEquals, hasNode, hasHasValue, hasIn, hasOrder);
    var m4 := ListSteps(m3, hasLanguageIn, hasUniqueLang, hasEquals, hasDisjoint, hasLessThan,
        hasLessThanOrEquals, hasNode, hasHasValue, hasIn, hasOrder);
    NestedKeeps(m4, Uri, hasQualifiedValueShape, hasQualifiedValueShapesDisjoint,
        hasQualifiedMinCount, hasQualifiedMaxCount, hasGroup);
  }

  /**
   * `property`, which is not declared, is present, and then True, exactly when
   * the node has `sh:property`.
   */
  lemma FlagsForProperty(named: bool, hasTargetClass: bool, hasTargetNode: bool,
      hasTargetObjectsOf: bool, hasTargetSubjectsOf: bool, hasIgnoredProperties: bool,
      hasMessage: bool, hasNodeKind: bool, hasClosed: bool, hasProperty: bool, hasPath: bool,
      hasClass: bool, hasName: bool, hasDescription: bool, hasDatatype: bool, hasMinCount: bool,
      hasMaxCount: bool, hasMinExclusive: bool, hasMinInclusive: bool, hasMaxExclusive: bool,
      hasMaxInclusive: bool, hasMinLength: bool, hasMaxLength: bool, hasPattern: bool,
      hasFlags: bool, hasLanguageIn: bool, hasUniqueLang: bool, hasEquals: bool, hasDisjoint: bool,
      hasLessThan: bool, hasLessThanOrEquals: bool, hasNode: bool, hasHasValue: bool, hasIn: bool,
      hasOrder: bool, hasQualifiedValueShape: bool, hasQualifiedValueShapesDisjoint: bool,
      hasQualifiedMinCount: bool, hasQualifiedMaxCount: bool, hasGroup: bool)
    ensures var f := FlagsFor(named, hasTargetClass, hasTargetNode, hasTargetObjectsOf,
        hasTargetSubjectsOf, hasIgnoredProperties, hasMessage, hasNodeKind, hasClosed, hasProperty,
        hasPath, hasClass, hasName, hasDescription, hasDatatype, hasMinCount, hasMaxCount,
        hasMinExclusive, hasMinInclusive, hasMaxExclusive, hasMaxInclusive, hasMinLength,
        hasMaxLength, hasPattern, hasFlags, hasLanguageIn, hasUniqueLang, hasEquals, hasDisjoint,
        hasLessThan, hasLessThanOrEquals, hasNode, hasHasValue, hasIn, hasOrder,
        hasQualifiedValueShape, hasQualifiedValueShapesDisjoint, hasQualifiedMinCount,
        hasQualifiedMaxCount, hasGroup);
      (Property in f <==> hasProperty) && (Property in f ==> f[Property])
  {
    var m0 := Unset(WellFormedDefaults.Keys);
    WellFormedIsSetUndeclared(Property);
    TargetKeeps(m0, Property, named, hasTargetClass, hasTargetNode, hasTargetObjectsOf,
        hasTargetSubjectsOf, hasIgnoredProperties);
    var m1 := TargetSteps(m0, named, hasTargetClass, hasTargetNode, hasTargetObjectsOf,
        hasTargetSubjectsOf, hasIgnoredProperties);
    DescriptiveSetsProperty(m1, hasMessage, hasNodeKind, hasClosed, hasProperty, hasPath);
    var m2 := DescriptiveSteps(m1, hasMessage, hasNodeKind, hasClosed, hasProperty, hasPath);
    ValueKeeps(m2, Property, hasClass, hasName, hasDescription, hasDatatype, hasMinCount,
        hasMaxCount, hasMinExclusive, hasMinInclusive, hasMaxExclusive, hasMaxInclusive,
        hasMinLength, hasMaxLength, hasPattern, hasFlags);
    var m3 := ValueSteps(m2, hasClass, hasName, hasDescription, hasDatatype, hasMinCount,
        hasMaxCount, hasMinExclusive, hasMinInclusive, hasMaxExclusive, hasMaxInclusive,
        hasMinLength, hasMaxLength, hasPattern, hasFlags);
    ListKeeps(m3, Property, hasLanguageIn, hasUniqueLang, hasEquals, hasDisjoint, hasLessThan,
        hasLessThanOrEquals, hasNode, hasHasValue, hasIn, hasOrder);
    var m4 := ListSteps(m3, hasLanguageIn, hasUniqueLang, hasEquals, hasDisjoint, hasLessThan,
        hasLessThanOrEquals, hasNode, hasHasValue, hasIn, hasOrder);
    NestedKeeps(m4, Property, hasQualifiedValueShape, hasQualifiedValueShapesDisjoint,
        hasQualifiedMinCount, hasQualifiedMaxCount, hasGroup);
  }

  /**
   * `maxInclusive`, which is not declared, is present, and then True, exactly
   * when the node has `sh:maxInclusive`.
   */
  lemma FlagsForLowerMaxInclusive(named: bool, hasTargetClass: bool, hasTargetNode: bool,
      hasTargetObjectsOf: bool, hasTargetSubjectsOf: bool, hasIgnoredProperties: bool,
      hasMessage: bool, hasNodeKind: bool, hasClosed: bool, hasProperty: bool, hasPath: bool,
      hasClass: bool, hasName: bool, hasDescription: bool, hasDatatype: bool, hasMinCount: bool,
      hasMaxCount: bool, hasMinExclusive: bool, hasMinInclusive: bool, hasMaxExclusive: bool,
      hasMaxInclusive: bool, hasMinLength: bool, hasMaxLength: bool, hasPattern: bool,
      hasFlags: bool, hasLanguageIn: bool, hasUniqueLang: bool, hasEquals: bool, hasDisjoint: bool,
      hasLessThan: bool, hasLessThanOrEquals: bool, hasNode: bool, hasHasValue: bool, hasIn: bool,
      hasOrder: bool, hasQualifiedValueShape: bool, hasQualifiedValueShapesDisjoint: bool,
      hasQualifiedMinCount: bool, hasQualifiedMaxCount: bool, hasGroup: bool)
    ensures var f := FlagsFor(named, hasTargetClass, hasTargetNode, hasTargetObjectsOf,
        hasTargetSubjectsOf, hasIgnoredProperties, hasMessage, hasNodeKind, hasClosed, hasProperty,
        hasPath, hasClass, hasName, hasDescription, hasDatatype, hasMinCount, hasMaxCount,
        hasMinExclusive, hasMinInclusive, hasMaxExclusive, hasMaxInclusive, hasMinLength,
        hasMaxLength, hasPattern, hasFlags, hasLanguageIn, hasUniqueLang, hasEquals, hasDisjoint,
        hasLessThan, hasLessThanOrEquals, hasNode, hasHasValue, hasIn, hasOrder,
        hasQualifiedValueShape, hasQualifiedValueShapesDisjoint, hasQualifiedMinCount,
        hasQualifiedMaxCount, hasGroup);
      (maxInclusive in f <==> hasMaxInclusive) && (maxInclusive in f ==> f[maxInclusive])
  {
    var m0 := Unset(WellFormedDefaults.Keys);
    WellFormedIsSetUndeclared(maxInclusive);
    TargetKeeps(m0, maxInclusive, named, hasTargetClass, hasTargetNode, hasTargetObjectsOf,
        hasTargetSubjectsOf, hasIgnoredProperties);
    var m1 := TargetSteps(m0, named, hasTargetClass, hasTargetNode, hasTargetObjectsOf,
        hasTargetSubjectsOf, hasIgnoredProperties);
    DescriptiveKeeps(m1, maxInclusive, hasMessage, hasNodeKind, hasClosed, hasProperty, hasPath);
    var m2 := DescriptiveSteps(m1, hasMessage, hasNodeKind, hasClosed, hasProperty, hasPath);
    ValueSetsLowerMaxInclusive(m2, hasClass, hasName, hasDescription, hasDatatype, hasMinCount,
        hasMaxCount, hasMinExclusive, hasMinInclusive, hasMaxExclusive, hasMaxInclusive,
        hasMinLength, hasMaxLength, hasPattern, hasFlags);
    var m3 := ValueSteps(m2, hasClass, hasName, hasDescription, hasDatatype, hasMinCount,
        hasMaxCount, hasMinExclusive, hasMinInclusive, hasMaxExclusive, hasMaxInclusive,
        hasMinLength, hasMaxLength, hasPattern, hasFlags);
    ListKeeps(m3, maxInclusive, hasLanguageIn, hasUniqueLang, hasEquals, hasDisjoint, hasLessThan,
        hasLessThanOrEquals, hasNode, hasHasValue, hasIn, hasOrder);
    var m4 := ListSteps(m3, hasLanguageIn, hasUniqueLang, hasEquals, hasDisjoint, hasLessThan,
        hasLessThanOrEquals, hasNode, hasHasValue, hasIn, hasOrder);
    NestedKeeps(m4, maxInclusive, hasQualifiedValueShape, hasQualifiedValueShapesDisjoint,
        hasQualifiedMinCount, hasQualifiedMaxCount, hasGroup);
  }

  // The builder given what its nested builds returned

  /** What building the nested shape under `p` returns, if `t` has one. */
  function NestedBuild(g: Graph, t: Term, p: Term, ghost n: nat): Option<Result<Shape>>
    requires NestedBounded(g, t, p, n)
  {
    match Value(g, t, p)
    case None => None
    case Some(x) => Some(BuildShape(g, x, n - 1))
  }

  /** Lines 294-298 and 317-321 given what building the nested shape returned. */
  function NestGiven(s: Shape, k: Field, child: Option<Result<Shape>>): Result<Shape> {
    match child
    case None => Success(s)
    case Some(c) => Nest(s, k, c)
  }

  /** Lines 130-158 given what building each property shape returned. */
  function DescriptiveGiven(g: Graph, t: Term, s: Shape, built: seq<Result<Shape>>,
      ghost n: nat): Result<Shape>
    requires ConstraintCheck.PathResolvable(g, t, n)
  {
    var s1 :- AddMessages(s, Objects(g, t, ShMessage));
    var s2 := SetStr(s1, NodeKind, NodeKind, Value(g, t, ShNodeKind));
    var s3 := SetFlag(s2, Closed, Closed, Value(g, t, ShClosed));
    var s4 :- Attach(s3, built);
    Success(SetPath(g, s4, t, n))
  }

  /** Lines 294-321 given what building the qualified-value shape and the group returned. */
  function QualifiedGiven(g: Graph, t: Term, s: Shape, qualified: Option<Result<Shape>>,
      group: Option<Result<Shape>>): Result<Shape> {
    var s1 :- NestGiven(s, QualifiedValueShape, qualified);
    var s2 := SetFlag(s1, QualifiedValueShapesDisjoint, QualifiedValueShapesDisjoint,
        Value(g, t, ShQualifiedValueShapesDisjoint));
    var s3 :- SetInt(s2, QualifiedMinCount, QualifiedMinCount, Value(g, t, ShQualifiedMinCount));
    var s4 :- SetInt(s3, QualifiedMaxCount, QualifiedMaxCount, Value(g, t, ShQualifiedMaxCount));
    NestGiven(s4, Group, group)
  }

  /** Lines 95-321 given what each nested build returned. */
  function FillGiven(g: Graph, t: Term, s: Shape, built: seq<Result<Shape>>,
      qualified: Option<Result<Shape>>, group: Option<Result<Shape>>, ghost n: nat): Result<Shape>
    requires ConstraintCheck.PathResolvable(g, t, n)
    requires ListHeadBounded(g, t, ShIgnoredProperties, n)
    requires ListHeadBounded(g, t, ShLanguageIn, n) && ListHeadBounded(g, t, Rdf.ShIn, n)
  {
    var s1 := Targets(g, t, s, n);
    var s2 :- DescriptiveGiven(g, t, s1, built, n);
    var s3 :- Values(g, t, s2);
    var s4 :- Lists(g, t, s3, n);
    QualifiedGiven(g, t, s4, qualified, group)
  }

  /** The builder is its blocks run on what its nested builds return. */
  lemma FillBuilds(g: Graph, t: Term, s: Shape, n: nat)
    requires ShapeBounded(g, t, n)
    ensures PropertiesBounded(g, t, n)
    ensures Fill(g, t, s, n) ==
      FillGiven(g, t, s, BuildAll(g, Objects(g, t, ShProperty), n - 1),
          NestedBuild(g, t, ShQualifiedValueShape, n), NestedBuild(g, t, ShGroup, n), n)
  {
    var s1 := Targets(g, t, s, n);
    DescriptiveBuilds(g, t, s1, n);
    var d := Descriptive(g, t, s1, n);
    if d.Success? {
      var v := Values(g, t, d.value);
      if v.Success? {
        var l := Lists(g, t, v.value, n);
        if l.Success? {
          QualifiedBuilds(g, t, l.value, n);
        }
      }
    }
  }

  lemma DescriptiveBuilds(g: Graph, t: Term, s: Shape, n: nat)
    requires n > 0 && ConstraintCheck.PathResolvable(g, t, n) && PropertiesBounded(g, t, n)
    ensures Descriptive(g, t, s, n) == DescriptiveGiven(g, t, s,
        BuildAll(g, Objects(g, t, ShProperty), n - 1), n)
  {
    forall s' | true
      ensures AddProperties(g, s', Objects(g, t, ShProperty), n) == Attach(s',
          BuildAll(g, Objects(g, t, ShProperty), n - 1))
    {
      AddPropertiesAttach(g, s', Objects(g, t, ShProperty), n);
    }
  }

  lemma QualifiedBuilds(g: Graph, t: Term, s: Shape, n: nat)
    requires NestedBounded(g, t, ShQualifiedValueShape, n) && NestedBounded(g, t, ShGroup, n)
    ensures Qualified(g, t, s, n) == QualifiedGiven(g, t, s,
        NestedBuild(g, t, ShQualifiedValueShape, n), NestedBuild(g, t, ShGroup, n))
  {
    forall s', p, k | NestedBounded(g, t, p, n)
      ensures SetNested(g, s', t, p, k, n) == NestGiven(s', k, NestedBuild(g, t, p, n))
    {
    }
  }

  // One step of a block

  lemma AppendEachRaises(g: Graph, s: Shape, t: Term, p: Term, k: Field, raw: bool)
    ensures AppendEach(s, k, k, Objects(g, t, p), raw).isSet == Raise(s.isSet, k, Has(g, t, p))
    ensures AppendEach(s, k, k, Objects(g, t, p), raw).errors == s.errors
  {
    AppendEachFlag(s, k, k, Objects(g, t, p), raw);
    AppendEachErrors(s, k, k, Objects(g, t, p), raw);
  }

  lemma ReadListRaises(g: Graph, s: Shape, t: Term, p: Term, k: Field, raw: bool, n: nat)
    requires ListHeadBounded(g, t, p, n)
    ensures ReadList(g, s, t, p, k, k, raw, n).isSet == Raise(s.isSet, k, Has(g, t, p))
    ensures ReadList(g, s, t, p, k, k, raw, n).errors == s.errors
  {
    ReadListClosed(g, s, t, p, k, k, raw, n);
  }

  lemma SetIntRaises(g: Graph, s: Shape, t: Term, p: Term, k: Field)
    requires SetInt(s, k, k, Value(g, t, p)).Success?
    ensures SetInt(s, k, k, Value(g, t, p)).value.isSet == Raise(s.isSet, k, Has(g, t, p))
    ensures SetInt(s, k, k, Value(g, t, p)).value.errors == s.errors
  {
  }

  lemma SetStrRaises(g: Graph, s: Shape, t: Term, p: Term, k: Field)
    ensures SetStr(s, k, k, Value(g, t, p)).isSet == Raise(s.isSet, k, Has(g, t, p))
    ensures SetStr(s, k, k, Value(g, t, p)).errors == s.errors
  {
  }

  lemma SetFlagRaises(g: Graph, s: Shape, t: Term, p: Term, k: Field)
    ensures SetFlag(s, k, k, Value(g, t, p)).isSet == Raise(s.isSet, k, Has(g, t, p))
    ensures SetFlag(s, k, k, Value(g, t, p)).errors == s.errors
  {
    SetFlagFlags(s, k, k, Value(g, t, p));
  }

  lemma SetPathRaises(g: Graph, s: Shape, t: Term, n: nat)
    requires ConstraintCheck.PathResolvable(g, t, n)
    ensures SetPath(g, s, t, n).isSet == Raise(s.isSet, Path, Has(g, t, ShPath))
    ensures SetPath(g, s, t, n).errors == s.errors
  {
  }

  /**
   * A successful message block flags `message` exactly when there is a message,
   * and records no error.
   */
  lemma {:induction false} AddMessagesRaises(s: Shape, objs: seq<Term>)
    requires AddMessages(s, objs).Success?
    ensures AddMessages(s,
        objs).value.isSet == if objs == [] then s.isSet else s.isSet[Message := true]
    ensures AddMessages(s, objs).value.errors == s.errors
    decreases |objs|
  {
    if objs != [] {
      AddMessagesRaises(s, objs[..|objs| - 1]);
      var s' := AddMessages(s, objs[..|objs| - 1]).value;
      assert s'.isSet[Message := true] == s.isSet[Message := true];
    }
  }

  /** Lines 95-128 raise `TargetFlags` and record no error. */
  lemma TargetsRaise(g: Graph, t: Term, s: Shape, n: nat)
    requires ListHeadBounded(g, t, ShIgnoredProperties, n)
    ensures Targets(g, t, s, n).isSet == TargetFlags(g, t, s.isSet)
    ensures Targets(g, t, s, n).errors == s.errors
  {
    var s1 := MarkUri(s, t);
    var s2 := AppendEach(s1, TargetClass, TargetClass, Objects(g, t, ShTargetClass), false);
    AppendEachRaises(g, s1, t, ShTargetClass, TargetClass, false);
    var s3 := AppendEach(s2, TargetNode, TargetNode, Objects(g, t, ShTargetNode), false);
    AppendEachRaises(g, s2, t, ShTargetNode, TargetNode, false);
    var s4 := AppendEach(s3, TargetObjectsOf, TargetObjectsOf, Objects(g, t, ShTargetObjectsOf),
        false);
    AppendEachRaises(g, s3, t, ShTargetObjectsOf, TargetObjectsOf, false);
    var s5 := AppendEach(s4, TargetSubjectsOf, TargetSubjectsOf, Objects(g, t, ShTargetSubjectsOf),
        false);
    AppendEachRaises(g, s4, t, ShTargetSubjectsOf, TargetSubjectsOf, false);
    ReadListRaises(g, s5, t, ShIgnoredProperties, IgnoredProperties, false, n);
  }

  // The blocks given what the nested builds returned

  /** The errors of a nested shape that was built, or none. */
  function GivenErrors(child: Option<Result<Shape>>): seq<Exceptions.Exception> {
    if child.Some? && child.value.Success? then child.value.value.errors else []
  }

  /**
   * Lines 130-158 raise `DescriptiveFlags` and add the property shapes' errors
   * after the shape's own.
   */
  lemma DescriptiveRaise(g: Graph, t: Term, s: Shape, built: seq<Result<Shape>>, n: nat)
    requires ConstraintCheck.PathResolvable(g, t, n) && |built| == |Objects(g, t, ShProperty)|
    requires DescriptiveGiven(g, t, s, built, n).Success?
    ensures DescriptiveGiven(g, t, s, built, n).value.isSet == DescriptiveFlags(g, t, s.isSet)
    ensures (forall i :: 0 <= i < |built| ==> built[i].Success?) &&
      DescriptiveGiven(g, t, s, built, n).value.errors == s.errors + ChildErrors(built)
  {
    var s1 := AddMessages(s, Objects(g, t, ShMessage)).value;
    AddMessagesRaises(s, Objects(g, t, ShMessage));
    var s2 := SetStr(s1, NodeKind, NodeKind, Value(g, t, ShNodeKind));
    SetStrRaises(g, s1, t, ShNodeKind, NodeKind);
    var s3 := SetFlag(s2, Closed, Closed, Value(g, t, ShClosed));
    SetFlagRaises(g, s2, t, ShClosed, Closed);
    AttachFlag(s3, built);
    AttachErrors(s3, built);
    var s4 := Attach(s3, built).value;
    SetPathRaises(g, s4, t, n);
  }

  /** Lines 160-227 raise `ValueFlags` and record no error. */
  lemma ValuesRaise(g: Graph, t: Term, s: Shape)
    requires Values(g, t, s).Success?
    ensures Values(g, t, s).value.isSet == ValueFlags(g, t, s.isSet)
    ensures Values(g, t, s).value.errors == s.errors
  {
    var s1 := AppendEach(s, Classes, Classes, Objects(g, t, ShClass), false);
    AppendEachRaises(g, s, t, ShClass, Classes, false);
    var s2 := SetStr(s1, Name, Name, Value(g, t, ShName));
    SetStrRaises(g, s1, t, ShName, Name);
    var s3 := SetStr(s2, Description, Description, Value(g, t, ShDescription));
    SetStrRaises(g, s2, t, ShDescription, Description);
    var s4 := SetStr(s3, Datatype, Datatype, Value(g, t, ShDatatype));
    SetStrRaises(g, s3, t, ShDatatype, Datatype);
    var s5 := SetInt(s4, MinCount, MinCount, Value(g, t, ShMinCount)).value;
    SetIntRaises(g, s4, t, ShMinCount, MinCount);
    var s6 := SetInt(s5, MaxCount, MaxCount, Value(g, t, ShMaxCount)).value;
    SetIntRaises(g, s5, t, ShMaxCount, MaxCount);
    var s7 := SetInt(s6, MinExclusive, MinExclusive, Value(g, t, ShMinExclusive)).value;
    SetIntRaises(g, s6, t, ShMinExclusive, MinExclusive);
    var s8 := SetInt(s7, MinInclusive, MinInclusive, Value(g, t, ShMinInclusive)).value;
    SetIntRaises(g, s7, t, ShMinInclusive, MinInclusive);
    var s9 := SetInt(s8, MaxExclusive, MaxExclusive, Value(g, t, ShMaxExclusive)).value;
    SetIntRaises(g, s8, t, ShMaxExclusive, MaxExclusive);
    var s10 := SetInt(s9, maxInclusive, maxInclusive, Value(g, t, ShMaxInclusive)).value;
    SetIntRaises(g, s9, t, ShMaxInclusive, maxInclusive);
    var s11 := SetInt(s10, MinLength, MinLength, Value(g, t, ShMinLength)).value;
    SetIntRaises(g, s10, t, ShMinLength, MinLength);
    var s12 := SetInt(s11, MaxLength, MaxLength, Value(g, t, ShMaxLength)).value;
    SetIntRaises(g, s11, t, ShMaxLength, MaxLength);
    var s13 := SetStr(s12, Pattern, Pattern, Value(g, t, ShPattern));
    SetStrRaises(g, s12, t, ShPattern, Pattern);
    SetStrRaises(g, s13, t, ShFlags, Flags);
  }

  /** Lines 229-291 raise `ListFlags` and record no error. */
  lemma ListsRaise(g: Graph, t: Term, s: Shape, n: nat)
    requires ListHeadBounded(g, t, ShLanguageIn, n) && ListHeadBounded(g, t, Rdf.ShIn, n)
    requires Lists(g, t, s, n).Success?
    ensures Lists(g, t, s, n).value.isSet == ListFlags(g, t, s.isSet)
    ensures Lists(g, t, s, n).value.errors == s.errors
  {
    var s1 := ReadList(g, s, t, ShLanguageIn, LanguageIn, LanguageIn, false, n);
    ReadListRaises(g, s, t, ShLanguageIn, LanguageIn, false, n);
    var s2 := SetFlag(s1, UniqueLang, UniqueLang, Value(g, t, ShUniqueLang));
    SetFlagRaises(g, s1, t, ShUniqueLang, UniqueLang);
    var s3 := AppendEach(s2, Equals, Equals, Objects(g, t, ShEquals), false);
    AppendEachRaises(g, s2, t, ShEquals, Equals, false);
    var s4 := AppendEach(s3, Disjoint, Disjoint, Objects(g, t, ShDisjoint), false);
    AppendEachRaises(g, s3, t, ShDisjoint, Disjoint, false);
    var s5 := AppendEach(s4, LessThan, LessThan, Objects(g, t, ShLessThan), false);
    AppendEachRaises(g, s4, t, ShLessThan, LessThan, false);
    var s6 := AppendEach(s5, LessThanOrEquals, LessThanOrEquals, Objects(g, t, ShLessThanOrEquals),
        false);
    AppendEachRaises(g, s5, t, ShLessThanOrEquals, LessThanOrEquals, false);
    var s7 := AppendEach(s6, Nodes, Nodes, Objects(g, t, ShNode), false);
    AppendEachRaises(g, s6, t, ShNode, Nodes, false);
    var s8 := AppendEach(s7, HasValue, HasValue, Objects(g, t, ShHasValue), true);
    AppendEachRaises(g, s7, t, ShHasValue, HasValue, true);
    var s9 := ReadList(g, s8, t, Rdf.ShIn, ShIn, ShIn, true, n);
    ReadListRaises(g, s8, t, Rdf.ShIn, ShIn, true, n);
    SetIntRaises(g, s9, t, ShOrder, Order);
  }

  /** A nested block given what building its shape returned. */
  lemma NestGivenRaises(g: Graph, t: Term, p: Term, s: Shape, k: Field,
      child: Option<Result<Shape>>)
    requires child.Some? <==> Has(g, t, p)
    requires NestGiven(s, k, child).Success?
    ensures NestGiven(s, k, child).value.isSet == Raise(s.isSet, k, Has(g, t, p))
    ensures NestGiven(s, k, child).value.errors == s.errors + GivenErrors(child)
  {
    if child.Some? {
      NestStores(s, k, child.value);
    }
  }

  /**
   * Lines 294-321 raise `NestedFlags` and add the qualified-value shape's
   * errors, then the group's.
   */
  lemma QualifiedRaise(g: Graph, t: Term, s: Shape, qualified: Option<Result<Shape>>,
      group: Option<Result<Shape>>)
    requires qualified.Some? <==> Has(g, t, ShQualifiedValueShape)
    requires group.Some? <==> Has(g, t, ShGroup)
    requires QualifiedGiven(g, t, s, qualified, group).Success?
    ensures QualifiedGiven(g, t, s, qualified, group).value.isSet == NestedFlags(g, t, s.isSet)
    ensures QualifiedGiven(g, t, s, qualified, group).value.errors ==
      s.errors + GivenErrors(qualified) + GivenErrors(group)
  {
    var s1 := NestGiven(s, QualifiedValueShape, qualified).value;
    NestGivenRaises(g, t, ShQualifiedValueShape, s, QualifiedValueShape, qualified);
    var s2 := SetFlag(s1, QualifiedValueShapesDisjoint, QualifiedValueShapesDisjoint,
        Value(g, t, ShQualifiedValueShapesDisjoint));
    SetFlagRaises(g, s1, t, ShQualifiedValueShapesDisjoint, QualifiedValueShapesDisjoint);
    var s3 := SetInt(s2, QualifiedMinCount, QualifiedMinCount,
        Value(g, t, ShQualifiedMinCount)).value;
    SetIntRaises(g, s2, t, ShQualifiedMinCount, QualifiedMinCount);
    var s4 := SetInt(s3, QualifiedMaxCount, QualifiedMaxCount,
        Value(g, t, ShQualifiedMaxCount)).value;
    SetIntRaises(g, s3, t, ShQualifiedMaxCount, QualifiedMaxCount);
    NestGivenRaises(g, t, ShGroup, s4, Group, group);
    ErrorsAssoc(s.errors, GivenErrors(qualified), GivenErrors(group));
  }

  /**
   * Lines 95-321 raise each block's flags in turn and add the nested shapes'
   * errors, in the order they are built.
   */
  lemma FillRaise(g: Graph, t: Term, s: Shape, built: seq<Result<Shape>>,
      qualified: Option<Result<Shape>>, group: Option<Result<Shape>>, n: nat)
    requires ShapeBounded(g, t, n)
    requires |built| == |Objects(g, t, ShProperty)|
    requires qualified.Some? <==> Has(g, t, ShQualifiedValueShape)
    requires group.Some? <==> Has(g, t, ShGroup)
    requires FillGiven(g, t, s, built, qualified, group, n).Success?
    ensures var r := FillGiven(g, t, s, built, qualified, group, n).value;
      r.isSet == NestedFlags(g, t,
          ListFlags(g, t, ValueFlags(g, t, DescriptiveFlags(g, t, TargetFlags(g, t, s.isSet))))) &&
      (forall i :: 0 <= i < |built| ==> built[i].Success?) &&
      r.errors == s.errors + ChildErrors(built) + GivenErrors(qualified) + GivenErrors(group)
  {
    var s1 := Targets(g, t, s, n);
    TargetsRaise(g, t, s, n);
    var s2 := DescriptiveGiven(g, t, s1, built, n).value;
    DescriptiveRaise(g, t, s1, built, n);
    var s3 := Values(g, t, s2).value;
    ValuesRaise(g, t, s2);
    var s4 := Lists(g, t, s3, n).value;
    ListsRaise(g, t, s3, n);
    QualifiedRaise(g, t, s4, qualified, group);
    ErrorsAssoc(s.errors + ChildErrors(built), GivenErrors(qualified), GivenErrors(group));
  }

  // The whole shape

  /**
   * `parseWellFormedShape(t)`, when it returns, returns a shape whose flags are
   * exactly `BuiltFlags(g, t)`.
   */
  lemma BuildShapeFlags(g: Graph, t: Term, n: nat)
    requires ShapeBounded(g, t, n) && BuildShape(g, t, n).Success?
    ensures BuildShape(g, t, n).value.isSet == BuiltFlags(g, t)
  {
    var s := Start(g, t, n);
    FillBuilds(g, t, s, n);
    FillRaise(g, t, s, BuildAll(g, Objects(g, t, ShProperty), n - 1),
        NestedBuild(g, t, ShQualifiedValueShape, n), NestedBuild(g, t, ShGroup, n), n);
  }

  /**
   * `errs` is the node's well-formedness errors, then the errors of each of
   * its property shapes (each of which was built), then those of its
   * qualified-value shape and then those of its group.
   */
  ghost predicate ErrorsInOrder(g: Graph, t: Term, n: nat, errs: seq<Exceptions.Exception>)
    requires ShapeBounded(g, t, n)
  {
    assert PropertiesBounded(g, t, n);
    var built := BuildAll(g, Objects(g, t, ShProperty), n - 1);
    (forall i :: 0 <= i < |built| ==> built[i].Success?) &&
    errs == ConstraintCheck.CheckConstraintsErrors(g, t, n) + ChildErrors(built) +
            GivenErrors(NestedBuild(g, t, ShQualifiedValueShape, n)) +
            GivenErrors(NestedBuild(g, t, ShGroup, n))
  }

  /**
   * `parseWellFormedShape(t)`, when it returns, returns a shape whose errors
   * are the well-formedness errors of lines 87-90, then those of every
   * property shape, then the qualified-value shape's and then the group's.
   */
  lemma BuildShapeErrors(g: Graph, t: Term, n: nat)
    requires ShapeBounded(g, t, n) && BuildShape(g, t, n).Success?
    ensures ErrorsInOrder(g, t, n, BuildShape(g, t, n).value.errors)
  {
    var s := Start(g, t, n);
    assert s.errors == ConstraintCheck.CheckConstraintsErrors(g, t, n);
    FillBuilds(g, t, s, n);
    FillRaise(g, t, s, BuildAll(g, Objects(g, t, ShProperty), n - 1),
        NestedBuild(g, t, ShQualifiedValueShape, n), NestedBuild(g, t, ShGroup, n), n);
  }
}
