/**
 * The wrapper `_GAProxy` of the three prototypes (`src/nicetv/mapytype.py`, `mapytype.py`,
 * `tvfind/mapytype.py`): a plain object holding the alias `C[args]` produced, which rebinds
 * the prototype's own `aliasclassmethod` descriptors to that alias and forwards everything
 * else, and whose equality, hash, `__origin__`, `__args__` and calls are the alias's.
 * The three classes differ only in the slot name and in which `aliasclassmethod` class they
 * recognise, both given by the prototype.
 */
module WrapperProxy {
  import opened Wrappers
  import opened PyTypes
  import opened PyObjects

  /** The slot holding the wrapped alias: `_alias` in `tvfind/mapytype.py`, `_gaproxy_alias` elsewhere. */
  function SlotName(proto: Proto): Name {
    if proto == TvfindProto then "_alias" else "_gaproxy_alias"
  }

  /** The wrapped object's class, if it has an `__origin__` naming one of the program's classes. */
  predicate OriginKnown(w: World, inner: Target) {
    TargetOrigin(inner).Some? && TargetOrigin(inner).value < |w|
  }

  /**
   * `_GAProxy.__getattr__`, reached for every name the wrapper class itself does not define:
   * the raw attribute of the alias's origin (`getattr_static`, raising `AttributeError` when
   * there is none); this prototype's `aliasclassmethod` is bound by `raw.__get__(None, alias)`,
   * anything else is `getattr(origin, name)`.
   */
  function WrapperGetattr(w: World, inner: Target, proto: Proto, name: Name): (r: Result<Attr, PyError>)
    requires WellFormed(w)
    ensures !OriginKnown(w, inner) ==> r == Err(AttributeError)
  {
    if !OriginKnown(w, inner) then Err(AttributeError)
    else
      var origin := TargetOrigin(inner).value;
      match StaticLookup(w, origin, name)
      case None => Err(AttributeError)
      case Some(raw) =>
        if raw.Acm? && raw.proto == proto then AcmGet(proto, raw.func, None, Some(inner))
        else ClassGetattr(w, origin, name)
  }

  /** An aliasclassmethod of the wrapper's own prototype is bound to the wrapped alias, not to the wrapper. */
  lemma AcmBoundToAlias(w: World, inner: Target, proto: Proto, name: Name, f: Obj)
    requires WellFormed(w) && OriginKnown(w, inner)
    requires StaticLookup(w, TargetOrigin(inner).value, name) == Some(Acm(f, proto))
    ensures WrapperGetattr(w, inner, proto, name) == Ok(Bound(f, inner))
  {
  }

  /**
   * Everything else, a plain `classmethod` or another prototype's `aliasclassmethod`
   * included, is `getattr(origin, name)` and so bound to the bare origin; a name only the
   * metaclass defines is its entry bound to the origin.
   */
  lemma OtherForwardedToOrigin(w: World, inner: Target, proto: Proto, name: Name, raw: Obj)
    requires WellFormed(w) && OriginKnown(w, inner)
    requires StaticLookup(w, TargetOrigin(inner).value, name) == Some(raw) && !(raw.Acm? && raw.proto == proto)
    ensures WrapperGetattr(w, inner, proto, name) == ClassGetattr(w, TargetOrigin(inner).value, name)
    ensures MroLookup(w, TargetOrigin(inner).value, name) == Some(raw) && (raw.ClassMethod? || raw.Acm?) ==>
      WrapperGetattr(w, inner, proto, name) == Ok(Bound(raw.func, Cls(TargetOrigin(inner).value)))
    ensures MroLookup(w, TargetOrigin(inner).value, name).None? ==>
      var origin := TargetOrigin(inner).value;
      name in w[origin].meta && WrapperGetattr(w, inner, proto, name) == MetaGet(w[origin].meta[name], origin)
  {
  }

  /** A name that neither the origin's MRO nor its metaclass defines raises `AttributeError`. */
  lemma WrapperMissingRaises(w: World, inner: Target, proto: Proto, name: Name)
    requires WellFormed(w) && OriginKnown(w, inner)
    requires StaticLookup(w, TargetOrigin(inner).value, name).None?
    ensures WrapperGetattr(w, inner, proto, name) == Err(AttributeError)
  {
  }

  /** How many wrappers are around an object. */
  function Depth(x: Target): nat {
    if x.Wrapped? then 1 + Depth(x.inner) else 0
  }

  /** `getattr(other, slot, other)`: a wrapper with the same slot name is unwrapped once. */
  function Unwrap(proto: Proto, other: Target): (r: Target)
    ensures Depth(r) <= Depth(other)
    ensures other.Wrapped? && SlotName(other.proto) == SlotName(proto) ==> r == other.inner
    ensures !(other.Wrapped? && SlotName(other.proto) == SlotName(proto)) ==> r == other
  {
    if other.Wrapped? && SlotName(other.proto) == SlotName(proto) then other.inner else other
  }

  /** A typing alias, proxy included: compared by `__origin__` and `__args__`. */
  predicate IsAlias(x: Target) {
    x.GA? || x.Proxy?
  }

  /**
   * Python's `x == y` over these objects: a wrapper compares its alias with the other side
   * unwrapped once; a wrapper on the right is asked in turn when the left side answers
   * `NotImplemented`; two typing aliases compare origin and arguments; anything else is
   * compared for identity.
   */
  function PyEq(x: Target, y: Target): bool
    decreases Depth(x) + Depth(y)
  {
    if x.Wrapped? then PyEq(x.inner, Unwrap(x.proto, y))
    else if y.Wrapped? then PyEq(y.inner, Unwrap(y.proto, x))
    else if IsAlias(x) && IsAlias(y) then x.alias.origin == y.alias.origin && x.alias.args == y.alias.args
    else x == y
  }

  /** What `hash` is computed from: an alias's origin and arguments, or the object's identity. */
  datatype HashKey = AliasHash(origin: ClassId, args: seq<Arg>) | IdentityHash(x: Target)

  /** `hash(x)`: `_GAProxy.__hash__` is the wrapped alias's hash. */
  function PyHash(x: Target): HashKey {
    if x.Wrapped? then PyHash(x.inner)
    else if IsAlias(x) then AliasHash(x.alias.origin, x.alias.args)
    else IdentityHash(x)
  }

  /** Wrapped values are equal exactly when the values they wrap are. */
  lemma WrappersEqualIffInnerEqual(a: Target, b: Target, proto: Proto)
    ensures PyEq(Wrapped(a, proto), Wrapped(b, proto)) <==> PyEq(a, b)
  {
  }

  /** A wrapper equals the alias it wraps, on either side. */
  lemma {:induction false} WrapperEqualsItsAlias(a: AliasObj, proto: Proto, b: AliasObj)
    ensures PyEq(Wrapped(GA(a), proto), GA(b)) <==> a.origin == b.origin && a.args == b.args
    ensures PyEq(GA(b), Wrapped(GA(a), proto)) <==> a.origin == b.origin && a.args == b.args
  {
  }

  /** Objects that compare equal hash equally, so wrappers and aliases can share dictionary keys. */
  lemma {:induction false} EqualValuesHashEqually(x: Target, y: Target)
    requires PyEq(x, y)
    ensures PyHash(x) == PyHash(y)
    decreases Depth(x) + Depth(y)
  {
    if x.Wrapped? {
      EqualValuesHashEqually(x.inner, Unwrap(x.proto, y));
      UnwrapHash(x.proto, y);
    } else if y.Wrapped? {
      EqualValuesHashEqually(y.inner, Unwrap(y.proto, x));
      UnwrapHash(y.proto, x);
    }
  }

  /** Unwrapping never changes the hash. */
  lemma UnwrapHash(proto: Proto, x: Target)
    ensures PyHash(Unwrap(proto, x)) == PyHash(x)
  {
  }

  /** `__args__` of an alias or wrapper. */
  function TargetArgs(x: Target): Option<seq<Arg>> {
    match x
    case GA(a) => Some(a.args)
    case Proxy(a) => Some(a.args)
    case Wrapped(inner, _) => TargetArgs(inner)
    case _ => None
  }

  /** `x` inside `n` wrappers of the given prototype. */
  function Wrap(n: nat, x: Target, proto: Proto): (r: Target)
    ensures Depth(r) == n + Depth(x)
  {
    if n == 0 then x else Wrapped(Wrap(n - 1, x, proto), proto)
  }

  /**
   * `__origin__`, `__args__` and calls go through any number of wrappers to the alias; an
   * instance made by calling a wrapper records the bare alias, not the wrapper, as its
   * `__orig_class__`.
   */
  lemma {:induction false} WrapperForwards(n: nat, a: AliasObj, proto: Proto)
    ensures TargetOrigin(Wrap(n, GA(a), proto)) == Some(a.origin)
    ensures TargetArgs(Wrap(n, GA(a), proto)) == Some(a.args)
    ensures CallTarget(Wrap(n, GA(a), proto)) == Ok(Inst(Instance(a.origin, Some(GA(a)))))
  {
    if n > 0 {
      WrapperForwards(n - 1, a, proto);
    }
  }
}
