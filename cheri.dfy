/**
 * CHERI identifier keys (src/trace_processor/types/cheri.h): a compartment is
 * identified by its compartment id and an optional exception level, and a CHERI
 * context additionally carries the pid and tid it was observed in.
 */
module Cheri {
  import opened Types

  datatype CompartmentId = CompartmentId(cid: uint64, el: Option<uint32>)

  datatype CHERIContextId = CHERIContextId(pid: uint64, tid: uint64, cid: uint64, el: Option<uint32>)

  /** `operator<` of `std::optional`: an absent value precedes every present one. */
  predicate OptionalLess(a: Option<uint32>, b: Option<uint32>)
  {
    match (a, b)
    case (_, None) => false
    case (None, Some(_)) => true
    case (Some(x), Some(y)) => x < y
  }

  /** `CompartmentId::operator==`: member-wise equality of the compartment id and the exception level. */
  function Equal(a: CompartmentId, b: CompartmentId): (eq: bool)
    ensures eq <==> a.cid == b.cid && a.el == b.el
    ensures eq <==> a == b
  {
    (a.cid, a.el) == (b.cid, b.el)
  }

  /**
   * `CompartmentId::operator<`: the `std::tuple` comparison of `(cid, el)`,
   * which consults the second component only when neither first component
   * is less than the other.
   */
  function Less(a: CompartmentId, b: CompartmentId): (lt: bool)
    ensures lt <==> a.cid < b.cid || (a.cid == b.cid && OptionalLess(a.el, b.el))
  {
    if a.cid < b.cid then true
    else if b.cid < a.cid then false
    else OptionalLess(a.el, b.el)
  }

  /** `CHERIContextId::compartment_id()`: the `(cid, el)` part of the context. */
  function CompartmentIdOf(c: CHERIContextId): (id: CompartmentId)
    ensures id.cid == c.cid && id.el == c.el
  {
    CompartmentId(c.cid, c.el)
  }

  lemma OptionalLessIsStrictTotal(a: Option<uint32>, b: Option<uint32>, c: Option<uint32>)
    ensures !OptionalLess(a, a)
    ensures OptionalLess(a, b) && OptionalLess(b, c) ==> OptionalLess(a, c)
    ensures OptionalLess(a, b) || a == b || OptionalLess(b, a)
    ensures a.None? && b.Some? ==> OptionalLess(a, b)
  {
  }

  /** `<` is irreflexive: no compartment id precedes itself. */
  lemma LessIrreflexive(a: CompartmentId)
    ensures !Less(a, a)
  {
    OptionalLessIsStrictTotal(a.el, a.el, a.el);
  }

  /** `<` is transitive, so together with irreflexivity it is a strict order fit for a `std::map` key. */
  lemma LessTransitive(a: CompartmentId, b: CompartmentId, c: CompartmentId)
    requires Less(a, b) && Less(b, c)
    ensures Less(a, c)
  {
    OptionalLessIsStrictTotal(a.el, b.el, c.el);
  }

  /** Exactly one of `a < b`, `a == b` and `b < a` holds. */
  lemma Trichotomy(a: CompartmentId, b: CompartmentId)
    ensures Less(a, b) || Equal(a, b) || Less(b, a)
    ensures !(Less(a, b) && Equal(a, b))
    ensures !(Less(b, a) && Equal(a, b))
    ensures !(Less(a, b) && Less(b, a))
  {
    OptionalLessIsStrictTotal(a.el, b.el, a.el);
    OptionalLessIsStrictTotal(b.el, a.el, b.el);
  }

  /** Two contexts that differ only in pid and tid name the same compartment. */
  lemma CompartmentIgnoresPidTid(c: CHERIContextId, pid: uint64, tid: uint64)
    ensures Equal(CompartmentIdOf(c), CompartmentIdOf(c.(pid := pid, tid := tid)))
  {
  }
}
