/**
 * `_is_aliasclassmethod`: which raw class attributes the proxy treats as alias-aware,
 * i.e. binds with the proxy rather than the bare origin class as receiver.
 */
module AcmPredicate {
  import opened PyObjects

  /** `getattr(o, "_acm_takes_alias", False)` is truthy; only objects with an attribute dictionary can carry it. */
  predicate Flagged(o: Obj) {
    (o.Function? || o.ClassMethod? || o.Other?) && o.flag
  }

  /**
   * A `_TakesAlias` instance, anything flagged `_acm_takes_alias`, or a `classmethod`
   * whose `__func__` is a `_TakesAlias` or is flagged.
   */
  predicate IsAliasClassMethod(o: Obj) {
    || o.TakesAlias?
    || Flagged(o)
    || (IsClassMethod(o) && (o.func.TakesAlias? || Flagged(o.func)))
  }

  /** Every `_TakesAlias` instance is alias-aware, whatever it wraps. */
  lemma TakesAliasAware(f: Obj)
    ensures IsAliasClassMethod(TakesAlias(f))
  {
  }

  /** Anything whose `_acm_takes_alias` attribute is truthy is alias-aware. */
  lemma FlaggedAware(o: Obj)
    requires Flagged(o)
    ensures IsAliasClassMethod(o)
  {
  }

  /** A `classmethod` is alias-aware exactly when it is flagged itself or its `__func__` is a `_TakesAlias` or flagged. */
  lemma ClassMethodAware(f: Obj, flag: bool)
    ensures IsAliasClassMethod(ClassMethod(f, flag)) <==> flag || f.TakesAlias? || Flagged(f)
  {
  }

  /**
   * The remaining cases are not alias-aware: an unflagged `classmethod`, `staticmethod` or
   * function over an unflagged function, and every object without the attribute.
   */
  lemma PlainNotAware(o: Obj)
    requires !o.TakesAlias? && !Flagged(o)
    requires IsClassMethod(o) ==> !o.func.TakesAlias? && !Flagged(o.func)
    ensures !IsAliasClassMethod(o)
  {
  }
}
