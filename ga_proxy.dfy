/**
 * `_GAProxy`, the `typing._GenericAlias` subclass that `C[args]` returns once the proxy is
 * installed: its `__getattribute__`/`__getattr__` rule, which binds alias-aware class
 * attributes of the origin with the proxy itself as `cls` and forwards everything else to
 * the origin. `src/paramsight/ga_proxy.py` is identical to `src/nicetv/ga_proxy.py` apart
 * from its import path and comments; both are modelled by this module.
 */
module GAProxy {
  import opened Wrappers
  import opened PyObjects
  import opened AcmPredicate

  /** `_ga_fields`, in source order (`__mro_entries__` is listed twice). */
  const GaFields: seq<Name> := [
    "_inst", "_name", "__origin__", "__call__", "__mro_entries__", "__getattr__", "__dir__",
    "__getitem__", "_determine_new_args", "_make_substitution", "copy_with", "__repr__",
    "__reduce__", "__mro_entries__", "__iter__", "__args__", "__slots__", "__parameters__"]

  /**
   * The rule shared by both hooks for a name the alias does not answer itself: the raw
   * attribute of the origin (`getattr_static`, which raises `AttributeError` when there is
   * none); an alias-aware one is bound by an explicit `raw.__get__(None, proxy)`, any other
   * is `getattr(origin, name)`.
   */
  function ForwardRule(w: World, p: AliasObj, name: Name): Result<Attr, PyError>
    requires WellFormed(w) && p.origin < |w|
  {
    match StaticLookup(w, p.origin, name)
    case None => Err(AttributeError)
    case Some(raw) =>
      if IsAliasClassMethod(raw) then ExplicitGet(raw, Proxy(p)) else ClassGetattr(w, p.origin, name)
  }

  /** `_GAProxy.__getattribute__`: reserved names go to `typing._GenericAlias.__getattribute__`. */
  function ProxyGetattribute(w: World, p: AliasObj, name: Name): Result<Attr, PyError>
    requires WellFormed(w) && p.origin < |w|
  {
    if name in GaFields then Ok(AliasField(p, name)) else ForwardRule(w, p, name)
  }

  /** `_GAProxy.__getattr__`, which Python calls when `__getattribute__` raises `AttributeError`. */
  function ProxyGetattr(w: World, p: AliasObj, name: Name): Result<Attr, PyError>
    requires WellFormed(w) && p.origin < |w|
  {
    ForwardRule(w, p, name)
  }

  /** `proxy.name`: `__getattribute__`, falling back to `__getattr__` on `AttributeError`. */
  function ProxyAttribute(w: World, p: AliasObj, name: Name): Result<Attr, PyError>
    requires WellFormed(w) && p.origin < |w|
  {
    match ProxyGetattribute(w, p, name)
    case Err(AttributeError) => ProxyGetattr(w, p, name)
    case r => r
  }

  /** `typing._is_dunder`. */
  predicate IsDunder(name: Name) {
    |name| >= 2 && name[..2] == "__" && name[|name| - 2..] == "__"
  }

  /**
   * A plain `typing._GenericAlias`, for contrast: it answers its own fields and forwards
   * other non-dunder names to `getattr(origin, name)`.
   */
  function PlainAliasAttribute(w: World, a: AliasObj, name: Name): Result<Attr, PyError>
    requires WellFormed(w) && a.origin < |w|
  {
    if name in GaFields then Ok(AliasField(a, name))
    else if IsDunder(name) then Err(AttributeError)
    else ClassGetattr(w, a.origin, name)
  }

  /** Reserved names are answered by the alias itself and never looked up on the origin. */
  lemma ReservedServedByAlias(w: World, p: AliasObj, name: Name)
    requires WellFormed(w) && p.origin < |w| && name in GaFields
    ensures ProxyAttribute(w, p, name) == Ok(AliasField(p, name))
  {
  }

  /**
   * For any other name whose raw attribute on the origin is alias-aware, the result is that
   * attribute's own `__get__` with the proxy as owner; a `classmethod` or `_TakesAlias` is
   * bound to the proxy.
   */
  lemma AwareBoundToProxy(w: World, p: AliasObj, name: Name, raw: Obj)
    requires WellFormed(w) && p.origin < |w| && name !in GaFields
    requires StaticLookup(w, p.origin, name) == Some(raw) && IsAliasClassMethod(raw)
    ensures ProxyAttribute(w, p, name) == ExplicitGet(raw, Proxy(p))
    ensures IsClassMethod(raw) ==> ProxyAttribute(w, p, name) == Ok(Bound(raw.func, Proxy(p)))
  {
  }

  /**
   * Any other attribute is exactly `getattr(origin, name)`: a plain `classmethod` along the
   * origin's MRO is then bound to the bare origin class, and a name only the metaclass
   * defines (such as `type.mro`) is the metaclass's entry bound to the origin.
   */
  lemma OtherForwarded(w: World, p: AliasObj, name: Name, raw: Obj)
    requires WellFormed(w) && p.origin < |w| && name !in GaFields
    requires StaticLookup(w, p.origin, name) == Some(raw) && !IsAliasClassMethod(raw)
    ensures ProxyAttribute(w, p, name) == ClassGetattr(w, p.origin, name)
    ensures MroLookup(w, p.origin, name) == Some(raw) && raw.ClassMethod? ==> ProxyAttribute(w, p, name) == Ok(Bound(raw.func, Cls(p.origin)))
    ensures MroLookup(w, p.origin, name).None? ==>
      name in w[p.origin].meta && ProxyAttribute(w, p, name) == MetaGet(w[p.origin].meta[name], p.origin)
  {
  }

  /**
   * A name that neither the origin's MRO nor its metaclass defines raises `AttributeError`,
   * even when the metaclass's `__getattr__` would supply it to ordinary `getattr`.
   */
  lemma MissingRaises(w: World, p: AliasObj, name: Name)
    requires WellFormed(w) && p.origin < |w| && name !in GaFields
    requires StaticLookup(w, p.origin, name).None?
    ensures ProxyAttribute(w, p, name) == Err(AttributeError)
  {
  }

  /** `__getattr__` applies the same rule as `__getattribute__` to every unreserved name. */
  lemma GetattrSameRule(w: World, p: AliasObj, name: Name)
    requires WellFormed(w) && p.origin < |w| && name !in GaFields
    ensures ProxyGetattr(w, p, name) == ProxyGetattribute(w, p, name)
    ensures ProxyAttribute(w, p, name) == ProxyGetattribute(w, p, name)
  {
  }

  /**
   * Chaining: when an alias-aware classmethod reached through the proxy looks up a second
   * alias-aware classmethod on its `cls`, it reaches it through the same proxy and binds
   * it to that proxy again, so the inner call still sees the specialised alias.
   */
  lemma ChainedCallKeepsProxy(w: World, p: AliasObj, n1: Name, n2: Name, raw1: Obj, raw2: Obj)
    requires WellFormed(w) && p.origin < |w| && n1 !in GaFields && n2 !in GaFields
    requires StaticLookup(w, p.origin, n1) == Some(raw1) && IsClassMethod(raw1) && IsAliasClassMethod(raw1)
    requires StaticLookup(w, p.origin, n2) == Some(raw2) && IsClassMethod(raw2) && IsAliasClassMethod(raw2)
    ensures ProxyAttribute(w, p, n1).Ok? && ProxyAttribute(w, p, n1).value.Bound?
    ensures var cls := ProxyAttribute(w, p, n1).value.recv;
      cls == Proxy(p) && ProxyAttribute(w, cls.alias, n2) == Ok(Bound(raw2.func, cls))
  {
    AwareBoundToProxy(w, p, n1, raw1);
    AwareBoundToProxy(w, p, n2, raw2);
  }

  /**
   * Had the proxy handed out a freshly built plain alias instead, the second lookup would
   * bind an alias-aware `classmethod` to the bare origin class.
   */
  lemma FreshAliasLosesAlias(w: World, p: AliasObj, name: Name, raw: Obj)
    requires WellFormed(w) && p.origin < |w| && name !in GaFields && !IsDunder(name)
    requires MroLookup(w, p.origin, name) == Some(raw) && raw.ClassMethod?
    ensures PlainAliasAttribute(w, p, name) == Ok(Bound(raw.func, Cls(p.origin)))
  {
  }
}
