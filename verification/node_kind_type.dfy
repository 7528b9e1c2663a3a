/**
 * Which kinds of term a node-kind check accepts: three independent flags
 * for IRIs, blank nodes and literals.
 */
module NodeKinds {
  import opened Rdf

  datatype NodeKindType = NodeKindType(isUri: bool, isBNode: bool, isLiteral: bool)

  /** IRIs only. */
  const IriOnly := NodeKindType(true, false, false)
  /** IRIs or literals (the kinds a target node may be). */
  const IriOrLiteral := NodeKindType(true, false, true)
  /** Literals only. */
  const LiteralOnly := NodeKindType(false, false, true)

  /** The kind of `t` is one of the kinds `nk` enables. */
  predicate Admits(nk: NodeKindType, t: Term) {
    match t
    case IRI(_) => nk.isUri
    case BNode(_) => nk.isBNode
    case Literal(_, _, _) => nk.isLiteral
  }
}
