/**
 * The reader's exception taxonomy: a class hierarchy rooted at `Error`,
 * with `ParseError` below it, `PathError` and `ConstraintError` below that,
 * and five specific constraint errors.  A recorded error is its class
 * together with its message text.
 */
module Exceptions {
  import opened Rdf

  datatype ErrorClass =
    | Error
    | ParseError
    | PathError
    | ConstraintError
    | MaxConstraintError
    | ShaclListConstraintError
    | NodeKindConstraintError
    | DataTypeConstraintError
    | MinMaxConstraintError

  /** The direct base class; `Error` (an `Exception` in Python) is the root here. */
  function Base(c: ErrorClass): (r: ErrorClass)
    requires c != Error
  {
    match c
    case ParseError => Error
    case PathError => ParseError
    case ConstraintError => ParseError
    case MaxConstraintError => ConstraintError
    case ShaclListConstraintError => ConstraintError
    case NodeKindConstraintError => ConstraintError
    case DataTypeConstraintError => ConstraintError
    case MinMaxConstraintError => ConstraintError
  }

  /** Distance from the root of the hierarchy. */
  function Depth(c: ErrorClass): nat {
    match c
    case Error => 0
    case ParseError => 1
    case PathError => 2
    case ConstraintError => 2
    case _ => 3
  }

  /** `issubclass(c, d)`: `d` is `c` or one of its bases. */
  predicate IsA(c: ErrorClass, d: ErrorClass)
    decreases Depth(c)
  {
    c == d || (c != Error && Depth(Base(c)) < Depth(c) && IsA(Base(c), d))
  }

  /** The messages the constraint checks record, by what they report. */
  datatype Message =
    | WrongListType(uri: Option<Term>)   // a list node that is neither an IRI nor a blank node
    | ListLoop(node: Term)               // a list node reached twice
    | WrongType(obj: Option<Term>)       // a value of the wrong node kind
    | WrongDatatype(obj: Option<Term>)   // a value of the wrong datatype
    | ConflictFor(p: Term)               // a predicate used wrongly
    | PathNotIri(t: Option<Term>)        // a path leaf that is not an IRI, or Python's `None`

  /** The text of a message, as the checks format it. */
  function Text(m: Message): string {
    match m
    case WrongListType(uri) => "Wrong Type in shacllist:" + PyStr(uri)
    case ListLoop(node) => "Loop in the shacllist:" + Str(node)
    case WrongType(obj) => "Conflict found. Object has the wrong type:" + PyStr(obj)
    case WrongDatatype(obj) => "Conflict found. Object has the wrong datatype:" + PyStr(obj)
    case ConflictFor(p) => "Conflict found for " + Str(p)
    case PathNotIri(t) => "Object of sh:path is no URI:" + PyStr(t)
  }

  /** An error instance as it sits in an errors list. */
  datatype Exception = Exception(cls: ErrorClass, message: Message)

  /**
   * Every class but the root is a ParseError, and exactly the five specific
   * constraint errors and ConstraintError itself are ConstraintErrors;
   * PathError is not one.
   */
  lemma Hierarchy(c: ErrorClass)
    ensures IsA(c, Error)
    ensures IsA(c, ParseError) <==> c != Error
    ensures IsA(c, ConstraintError) <==> c in {ConstraintError, MaxConstraintError, ShaclListConstraintError,
                                              NodeKindConstraintError, DataTypeConstraintError, MinMaxConstraintError}
    ensures !IsA(PathError, ConstraintError)
  {
  }
}
