/**
 * `src/nicetv/alias_super.py`: `_super`, the replacement for zero-argument `super()` that
 * `takes_alias` injects into decorated classmethods, and `wsuper`, which runs the MRO lookup
 * on a proxy's origin but rebinds alias-aware methods to the proxy itself.
 */
module AliasSuper {
  import opened Wrappers
  import opened PyTypes
  import opened PyObjects

  /**
   * A builtin `super(t, obj)` object: `start` is the class whose MRO is searched (`obj` itself
   * when `obj` is a class, `type(obj)` otherwise), `instance` the instance it binds to.
   */
  datatype SuperObj = SuperObj(t: ClassId, start: ClassId, instance: Option<Instance>)

  /**
   * `super(t, obj)`: `obj` must be a subclass of `t` or an instance of one; anything else,
   * an alias included, raises `TypeError`.
   */
  function BuiltinSuper(w: World, t: ClassId, obj: Target): (r: Result<SuperObj, PyError>)
    requires WellFormed(w)
    ensures r.Ok? ==> r.value.t == t && r.value.start < |w| && t in w[r.value.start].mro
    ensures obj.Cls? && obj.c < |w| && t in w[obj.c].mro ==> r == Ok(SuperObj(t, obj.c, None))
    ensures obj.Inst? && obj.inst.cls < |w| && t in w[obj.inst.cls].mro ==> r == Ok(SuperObj(t, obj.inst.cls, Some(obj.inst)))
    ensures !(obj.Cls? || obj.Inst?) ==> r == Err(TypeError)
  {
    match obj
    case Cls(c) => if c < |w| && t in w[c].mro then Ok(SuperObj(t, c, None)) else Err(TypeError)
    case Inst(i) => if i.cls < |w| && t in w[i.cls].mro then Ok(SuperObj(t, i.cls, Some(i))) else Err(TypeError)
    case _ => Err(TypeError)
  }

  /**
   * `getattr(super(t, obj), name)`: the first class after `t` in `start`'s MRO that defines
   * `name`, its entry bound with `start` as owner and the instance, if any.
   */
  function SuperGetattr(w: World, s: SuperObj, name: Name): (r: Result<Attr, PyError>)
    requires WellFormed(w) && s.start < |w|
    ensures IndexOf(w[s.start].mro, s.t).None? ==> r == Err(TypeError)
    ensures IndexOf(w[s.start].mro, s.t).Some? ==>
      var mro := w[s.start].mro;
      match Defining(w, mro, name, IndexOf(mro, s.t).value + 1)
      case None => r == Err(AttributeError)
      case Some(k) => r == Bind(w[mro[k]].own[name], s.instance, Cls(s.start))
  {
    var mro := w[s.start].mro;
    match IndexOf(mro, s.t)
    case None => Err(TypeError)
    case Some(p) =>
      match Defining(w, mro, name, p + 1)
      case None => Err(AttributeError)
      case Some(k) => Bind(w[mro[k]].own[name], s.instance, Cls(s.start))
  }

  /** A `wsuper`: the builtin `super` it delegates to and the object it was created for. */
  datatype WSuper = WSuper(sup: SuperObj, obj: Target)

  /** `wsuper(t, obj)`: a proxy is replaced by its `__origin__` for the builtin `super`. */
  function WSuperInit(w: World, t: ClassId, obj: Target): (r: Result<WSuper, PyError>)
    requires WellFormed(w)
    ensures obj.Proxy? ==> r == (match BuiltinSuper(w, t, Cls(obj.alias.origin))
                                 case Ok(s) => Ok(WSuper(s, obj))
                                 case Err(e) => Err(e))
    ensures !obj.Proxy? ==> r == (match BuiltinSuper(w, t, obj)
                                  case Ok(s) => Ok(WSuper(s, obj))
                                  case Err(e) => Err(e))
    ensures r.Ok? ==> r.value.obj == obj && r.value.sup.start < |w|
  {
    var orig := if obj.Proxy? then Cls(obj.alias.origin) else obj;
    match BuiltinSuper(w, t, orig)
    case Ok(s) => Ok(WSuper(s, obj))
    case Err(e) => Err(e)
  }

  /**
   * `wsuper.__getattr__`: what the builtin `super` finds; a bound method whose function
   * carries the `_TakesAlias` back-reference is instead that `_TakesAlias`'s
   * `__get__(None, obj)`.
   */
  function WSuperGetattr(w: World, ws: WSuper, name: Name): (r: Result<Attr, PyError>)
    requires WellFormed(w) && ws.sup.start < |w|
  {
    match SuperGetattr(w, ws.sup, name)
    case Ok(Bound(f, recv)) =>
      if f.Function? && f.taRef then TakesAliasGet(f, None, Some(ws.obj)) else Ok(Bound(f, recv))
    case got => got
  }

  /**
   * The caller's frame as `_super` reads it: the code object's local variable names, in
   * order, and the local values bound so far (the `__class__` cell among them).
   */
  datatype Frame = Frame(varnames: seq<Name>, locals: map<Name, Target>)

  /** What `_super` returns. */
  datatype SuperResult = Builtin(s: SuperObj) | Wrapper(ws: WSuper)

  const ClassCellName: Name := "__class__"

  /**
   * `_super(owner, obj)`, with the caller's frame passed in (`None` when the stack has no
   * frame at the requested level): explicit arguments give the builtin `super`; otherwise the
   * caller's first local and its `__class__` cell decide, a proxy receiver giving a `wsuper`.
   */
  function Super(w: World, owner: Option<ClassId>, obj: Option<Target>, frame: Option<Frame>): (r: Result<SuperResult, PyError>)
    requires WellFormed(w)
  {
    if owner.Some? || obj.Some? then
      if owner.None? || obj.None? then Err(TypeError)
      else match BuiltinSuper(w, owner.value, obj.value)
        case Ok(s) => Ok(Builtin(s))
        case Err(e) => Err(e)
    else match frame
      case None => Err(RuntimeError)
      case Some(f) =>
        if |f.varnames| == 0 then Err(TypeError)
        else if f.varnames[0] !in f.locals then Err(TypeError)
        else if ClassCellName !in f.locals then Err(TypeError)
        else
          var first := f.locals[f.varnames[0]];
          match f.locals[ClassCellName]
          case Cls(ownerCls) =>
            if first.Proxy? then
              (match WSuperInit(w, ownerCls, first)
               case Ok(ws) => Ok(Wrapper(ws))
               case Err(e) => Err(e))
            else
              (match BuiltinSuper(w, ownerCls, first)
               case Ok(s) => Ok(Builtin(s))
               case Err(e) => Err(e))
          case _ => Err(TypeError)
  }

  /** Exactly one explicit argument raises `TypeError`, whatever the frame. */
  lemma ExplicitNeedsBoth(w: World, owner: Option<ClassId>, obj: Option<Target>, frame: Option<Frame>)
    requires WellFormed(w) && (owner.Some? != obj.Some?)
    ensures Super(w, owner, obj, frame) == Err(TypeError)
  {
  }

  /** Both explicit arguments give plain `super(owner, obj)` and ignore the frame. */
  lemma ExplicitIsBuiltin(w: World, owner: ClassId, obj: Target, frame: Option<Frame>)
    requires WellFormed(w)
    ensures Super(w, Some(owner), Some(obj), frame).Ok? <==> BuiltinSuper(w, owner, obj).Ok?
    ensures BuiltinSuper(w, owner, obj).Ok? ==> Super(w, Some(owner), Some(obj), frame) == Ok(Builtin(BuiltinSuper(w, owner, obj).value))
  {
  }

  /** Without a caller frame the call raises `RuntimeError`. */
  lemma NoFrameRaises(w: World)
    requires WellFormed(w)
    ensures Super(w, None, None, None) == Err(RuntimeError)
  {
  }

  /**
   * With the caller context given, no positional locals, an unbound first argument or a
   * missing `__class__` cell each raise `TypeError`.
   */
  lemma ContextErrors(w: World, f: Frame)
    requires WellFormed(w)
    requires |f.varnames| == 0 || f.varnames[0] !in f.locals || ClassCellName !in f.locals
    ensures Super(w, None, None, Some(f)) == Err(TypeError)
  {
  }

  /**
   * A proxy first argument gives a `wsuper` over the proxy, any other gives the builtin
   * `super(__class__, first)`.
   */
  lemma ReceiverDecides(w: World, f: Frame, c: ClassId)
    requires WellFormed(w) && |f.varnames| > 0 && f.varnames[0] in f.locals
    requires ClassCellName in f.locals && f.locals[ClassCellName] == Cls(c)
    ensures var first := f.locals[f.varnames[0]];
      var r := Super(w, None, None, Some(f));
      && (first.Proxy? && r.Ok? ==> r.value.Wrapper? && r.value.ws.obj == first && r.value.ws.sup.start == first.alias.origin)
      && (first.Proxy? ==> (r.Ok? <==> BuiltinSuper(w, c, Cls(first.alias.origin)).Ok?))
      && (!first.Proxy? ==> (r.Ok? <==> BuiltinSuper(w, c, first).Ok?))
      && (!first.Proxy? && r.Ok? ==> r == Ok(Builtin(BuiltinSuper(w, c, first).value)))
  {
  }

  /**
   * `wsuper` searches the proxy's origin and remembers the proxy; for any other object it
   * searches the object itself.
   */
  lemma WSuperSearchesOrigin(w: World, t: ClassId, p: AliasObj)
    requires WellFormed(w) && p.origin < |w| && t in w[p.origin].mro
    ensures WSuperInit(w, t, Proxy(p)) == Ok(WSuper(SuperObj(t, p.origin, None), Proxy(p)))
  {
  }

  /**
   * A method found through the `wsuper` whose function carries the `_TakesAlias`
   * back-reference is bound to the remembered object.
   */
  lemma WSuperRebinds(w: World, ws: WSuper, name: Name, f: Obj, recv: Target)
    requires WellFormed(w) && ws.sup.start < |w|
    requires SuperGetattr(w, ws.sup, name) == Ok(Bound(f, recv)) && f.Function? && f.taRef
    ensures WSuperGetattr(w, ws, name) == Ok(Bound(f, ws.obj))
  {
  }

  /** Anything else the `wsuper` finds is returned unchanged, errors included. */
  lemma WSuperOtherUnchanged(w: World, ws: WSuper, name: Name)
    requires WellFormed(w) && ws.sup.start < |w|
    requires !(SuperGetattr(w, ws.sup, name).Ok? && SuperGetattr(w, ws.sup, name).value.Bound?
               && SuperGetattr(w, ws.sup, name).value.func.Function? && SuperGetattr(w, ws.sup, name).value.func.taRef)
    ensures WSuperGetattr(w, ws, name) == SuperGetattr(w, ws.sup, name)
  {
  }
}
