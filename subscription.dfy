/**
 * What `C[key]` evaluates to: the class's `__class_getitem__` is looked up and called, and
 * each of the library's patched hooks calls the hook it replaced and wraps the result:
 * `src/nicetv/aliasclassmethod.py` rebuilds it as a `_GAProxy`, the prototypes put it in
 * their wrapper `_GAProxy`.
 */
module Subscription {
  import opened Wrappers
  import opened PyTypes
  import opened PyObjects

  /** `_is_pydantic(cls)` for the class a hook receives. */
  predicate PydanticClass(w: World, c: ClassId) {
    c < |w| && w[c].isPydantic
  }

  /**
   * `make_alias_instance_from_alias(_GAProxy, alias)`: a proxy built from the alias's
   * `__origin__`, `__args__`, `_inst` and `_name`; objects without those fields raise
   * `AttributeError`.
   */
  function MakeAliasInstanceFromAlias(x: Target): (r: Result<Target, PyError>)
    ensures x.GA? || x.Proxy? ==> r.Ok? && r.value.Proxy?
    ensures x.GA? || x.Proxy? ==>
      && r.value.alias.origin == x.alias.origin && r.value.alias.args == x.alias.args
      && r.value.alias.inst == x.alias.inst && r.value.alias.name == x.alias.name
    ensures !(x.GA? || x.Proxy?) ==> r == Err(AttributeError)
  {
    match x
    case GA(a) => Ok(Proxy(AliasObj(a.origin, a.args, a.inst, a.name)))
    case Proxy(a) => Ok(Proxy(AliasObj(a.origin, a.args, a.inst, a.name)))
    case _ => Err(AttributeError)
  }

  /** Calling hook `f` as `f(cls, key)`. */
  function CallHook(w: World, f: Obj, cls: ClassId, key: seq<Arg>): Result<Target, PyError>
    decreases f
  {
    match f
    case GenericHook => Ok(GA(GenericAlias(cls, key)))
    case PatchedCgi(base) =>
      (match CallHook(w, base, cls, key)
       case Err(e) => Err(e)
       case Ok(alias) => if PydanticClass(w, cls) then Err(AssertionError) else MakeAliasInstanceFromAlias(alias))
    case WrapCgi(base) =>
      (match CallHook(w, base, cls, key)
       case Err(e) => Err(e)
       case Ok(alias) => if PydanticClass(w, cls) then Err(AssertionError) else Ok(Wrapped(alias, NicetvProto)))
    case RawCgi(raw, proto) =>
      (match raw
       case None => Err(TypeError)
       case Some(a) =>
         match CallAttr(w, a, key)
         case Err(e) => Err(e)
         case Ok(alias) => Ok(Wrapped(alias, proto)))
    case FixedRawCgi(raw, proto) =>
      (match raw
       case None => Err(TypeError)
       case Some(Bound(g, _)) =>
         (match CallHook(w, g, cls, key)
          case Err(e) => Err(e)
          case Ok(alias) => Ok(Wrapped(alias, proto)))
       case Some(a) =>
         match CallAttr(w, a, key)
         case Err(e) => Err(e)
         case Ok(alias) => Ok(Wrapped(alias, proto)))
    case StaticMethod(g) => CallHook(w, g, cls, key)
    case _ => if IsFunction(f) then Ok(HookResult(f, Some(cls), key)) else Err(TypeError)
  }

  /** Calling the result of an attribute lookup with the key alone, as `hook(key)`. */
  function CallAttr(w: World, a: Attr, key: seq<Arg>): Result<Target, PyError>
    decreases a
  {
    match a
    case Bound(f, Cls(c)) => CallHook(w, f, c, key)
    case Bound(f, _) => Ok(HookResult(f, None, key))
    case Stored(o) => if IsFunction(o) then Ok(HookResult(o, None, key)) else Err(TypeError)
    case AliasField(_, _) => Err(TypeError)
  }

  /** `C[key]` on a class: its `__class_getitem__` called with the key, or `TypeError` when it has none. */
  function Subscript(w: World, c: ClassId, key: seq<Arg>): Result<Target, PyError>
    requires WellFormed(w) && c < |w|
  {
    match ClassGetattr(w, c, ClassGetitemName)
    case Err(_) => Err(TypeError)
    case Ok(a) => CallAttr(w, a, key)
  }

  /** `typing.Generic`'s hook under `n` layers of `src/nicetv/aliasclassmethod.py`'s `_patched_cgi`. */
  function PatchedLayers(n: nat): Obj {
    if n == 0 then GenericHook else PatchedCgi(PatchedLayers(n - 1))
  }

  /**
   * However many classes along an inheritance line have re-patched the hook, a call
   * returns a single `_GAProxy` with the fields of the alias `typing.Generic` built for the
   * receiving class: repatching never nests proxies.
   */
  lemma {:induction false} PatchedHookReturnsProxy(w: World, n: nat, cls: ClassId, key: seq<Arg>)
    requires n > 0 && !PydanticClass(w, cls)
    ensures CallHook(w, PatchedLayers(n), cls, key) == Ok(Proxy(GenericAlias(cls, key)))
  {
    if n > 1 {
      PatchedHookReturnsProxy(w, n - 1, cls, key);
    }
  }

  /** The patched hook refuses a pydantic receiver, however it is layered. */
  lemma {:induction false} PatchedHookRejectsPydantic(w: World, n: nat, cls: ClassId, key: seq<Arg>)
    requires n > 0 && PydanticClass(w, cls)
    ensures CallHook(w, PatchedLayers(n), cls, key) == Err(AssertionError)
  {
    if n > 1 {
      PatchedHookRejectsPydantic(w, n - 1, cls, key);
    }
  }

  /** `typing.Generic`'s hook under `n` layers of `src/nicetv/mapytype.py`'s `_patched_cgi`. */
  function WrappedLayers(n: nat): Obj {
    if n == 0 then GenericHook else WrapCgi(WrappedLayers(n - 1))
  }

  /** `x` inside `n` wrapper proxies of `src/nicetv/mapytype.py`. */
  function Nest(n: nat, x: Target): Target {
    if n == 0 then x else Wrapped(Nest(n - 1, x), NicetvProto)
  }

  /**
   * In `src/nicetv/mapytype.py` every re-patching wraps again: a hook patched `n` times
   * returns the native alias inside `n` wrapper proxies.
   */
  lemma {:induction false} WrappedHookNests(w: World, n: nat, cls: ClassId, key: seq<Arg>)
    requires !PydanticClass(w, cls)
    ensures CallHook(w, WrappedLayers(n), cls, key) == Ok(Nest(n, GA(GenericAlias(cls, key))))
  {
    if n > 0 {
      WrappedHookNests(w, n - 1, cls, key);
    }
  }
}
