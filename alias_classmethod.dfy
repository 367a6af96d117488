/**
 * `src/nicetv/aliasclassmethod.py`: the `takes_alias` decorator, `_is_specialized_generic`,
 * and the one-time per-class installation that makes `C[args]` return a `_GAProxy` and
 * propagates itself to subclasses through a patched `__init_subclass__`.
 */
module AliasClassMethod {
  import opened Wrappers
  import opened PyTypes
  import opened PyObjects
  import opened AcmPredicate
  import opened Subscription

  /** `_is_pydantic`: a pydantic model class or an instance of one. */
  predicate IsPydanticObj(w: World, x: Target) {
    match x
    case Cls(c) => c < |w| && w[c].isPydantic
    case Inst(i) => i.cls < |w| && w[i.cls].isPydantic
    case _ => false
  }

  /** The class whose pydantic metadata a pydantic object reads. */
  function PydanticClassOf(x: Target): ClassId
    requires x.Cls? || x.Inst?
  {
    if x.Cls? then x.c else x.inst.cls
  }

  /**
   * `hasattr(x, name)` for the objects `_is_specialized_generic` may see that are not
   * aliases: classes and instances through their class (an instance also has its
   * `__orig_class__`), and wrapper proxies through their properties and their forwarding
   * to the origin. The result of a user-defined hook is treated as having no attributes.
   */
  predicate HasAttr(w: World, x: Target, name: Name)
    requires WellFormed(w)
  {
    match x
    case Cls(c) => c < |w| && ClassHasAttr(w, c, name)
    case Inst(i) => (name == "__orig_class__" && i.origClass.Some?) || (i.cls < |w| && ClassHasAttr(w, i.cls, name))
    case Wrapped(inner, _) =>
      TargetOrigin(inner).Some? &&
      (name == "__origin__" || name == "__args__" ||
       (TargetOrigin(inner).value < |w| && StaticLookup(w, TargetOrigin(inner).value, name).Some?))
    case _ => false
  }

  /**
   * `_is_specialized_generic`: a pydantic object exactly when its generic metadata names an
   * origin; any typing alias (the proxy included); otherwise whatever has all of
   * `__origin__`, `__args__`, `_inst` and `_name`.
   */
  predicate IsSpecializedGeneric(w: World, x: Target)
    requires WellFormed(w)
  {
    if IsPydanticObj(w, x) then
      w[PydanticClassOf(x)].pydanticOrigin.Some?
    else if x.GA? || x.Proxy? then
      true
    else
      HasAttr(w, x, "__origin__") && HasAttr(w, x, "__args__") && HasAttr(w, x, "_inst") && HasAttr(w, x, "_name")
  }

  /** `C[args]` once the proxy is installed, and any typing alias, counts as specialised. */
  lemma AliasesAreSpecialized(w: World, a: AliasObj)
    requires WellFormed(w)
    ensures IsSpecializedGeneric(w, Proxy(a)) && IsSpecializedGeneric(w, GA(a))
  {
  }

  /** A pydantic class counts as specialised exactly when its metadata origin is set. */
  lemma PydanticSpecializedByMetadata(w: World, c: ClassId)
    requires WellFormed(w) && c < |w| && w[c].isPydantic
    ensures IsSpecializedGeneric(w, Cls(c)) <==> w[c].pydanticOrigin.Some?
  {
  }

  /** A bare non-pydantic class, generic or not, is not specialised unless it has an `__origin__` attribute. */
  lemma BareClassNotSpecialized(w: World, c: ClassId)
    requires WellFormed(w) && c < |w| && !w[c].isPydantic && !ClassHasAttr(w, c, "__origin__")
    ensures !IsSpecializedGeneric(w, Cls(c))
  {
  }

  /**
   * `takes_alias(fun_c)`: `ValueError` unless given a `classmethod`; otherwise a
   * `_TakesAlias` over the rewritten function, which carries the back-reference to it.
   * The rewriting itself (`inject_locals`) keeps the function's identity in this model.
   */
  function TakesAliasDecorator(o: Obj): (r: Result<Obj, PyError>)
    ensures r == Err(ValueError) <==> !IsClassMethod(o)
    ensures IsClassMethod(o) && o.func.Function? ==> r.Ok?
    ensures r.Ok? ==> r.value.TakesAlias? && r.value.func.Function? && r.value.func.taRef
    ensures r.Ok? ==> o.func.Function? && r.value.func.fname == o.func.fname && r.value.func.id == o.func.id
  {
    if !IsClassMethod(o) then Err(ValueError)
    else match o.func
      case Function(n, id, flag, _) => Ok(TakesAlias(Function(n, id, flag, true)))
      case _ => Err(AssertionError)
  }

  /** What `takes_alias` returns is alias-aware, so the proxy binds it to itself. */
  lemma DecoratedIsAware(o: Obj)
    requires TakesAliasDecorator(o).Ok?
    ensures IsAliasClassMethod(TakesAliasDecorator(o).value)
  {
  }

  /**
   * The hook `_make_patched_cgi(owner, parent)` wraps: the statically found
   * `__class_getitem__` (a `classmethod` unwrapped to its function); failing that, what plain
   * `getattr` finds (its `__func__` if it has one); failing that, none.
   */
  function BaseCgi(w: World, owner: ClassId): (r: Option<Obj>)
    requires WellFormed(w) && owner < |w|
    ensures r.None? <==> StaticLookup(w, owner, ClassGetitemName).None? && ClassGetitemName !in w[owner].dynamic
    ensures StaticLookup(w, owner, ClassGetitemName).Some? && IsClassMethod(StaticLookup(w, owner, ClassGetitemName).value)
      ==> r == Some(StaticLookup(w, owner, ClassGetitemName).value.func)
    ensures StaticLookup(w, owner, ClassGetitemName).Some? && !IsClassMethod(StaticLookup(w, owner, ClassGetitemName).value)
      ==> r == StaticLookup(w, owner, ClassGetitemName)
  {
    match StaticLookup(w, owner, ClassGetitemName)
    case Some(cgi) => Some(if IsClassMethod(cgi) then cgi.func else cgi)
    case None =>
      match ClassGetattr(w, owner, ClassGetitemName)
      case Ok(Stored(o)) => Some(if HasFunc(o) then o.func else o)
      case _ => None
  }

  /** `_make_patched_cgi(owner, parent)`: a `_patched_cgi` closing over the base hook, if there is one. */
  function MakePatchedCgi(w: World, owner: ClassId): (r: Option<Obj>)
    requires WellFormed(w) && owner < |w|
    ensures r.None? <==> StaticLookup(w, owner, ClassGetitemName).None? && ClassGetitemName !in w[owner].dynamic
    ensures r.Some? ==> r.value.PatchedCgi? && Some(r.value.base) == BaseCgi(w, owner)
  {
    match BaseCgi(w, owner)
    case Some(base) => Some(PatchedCgi(base))
    case None => None
  }

  /**
   * The `__init_subclass__` that `getattr_static` finds for a class is a `classmethod` or
   * `staticmethod` over an object without `__name__`, the one case in which reading
   * `__func__.__name__` raises.
   */
  predicate NamelessInitHook(w: World, owner: ClassId)
    requires WellFormed(w) && owner < |w|
  {
    var orig := StaticLookup(w, owner, InitSubclassName);
    orig.Some? && HasFunc(orig.value) && FuncName(orig.value.func).None?
  }

  /**
   * `_make_patched_init_subclass(owner)`: no new hook when the statically found one's
   * `__func__` is already named `_patched_init_subclass`; otherwise a new hook closing over
   * `owner`. `getattr_static` always finds a hook, `object`'s at the latest.
   */
  function MakePatchedInitSubclass(w: World, owner: ClassId): (r: Result<Option<Obj>, PyError>)
    requires WellFormed(w) && owner < |w|
    ensures StaticLookup(w, owner, InitSubclassName).Some?
    ensures r.Err? <==> NamelessInitHook(w, owner)
    ensures r.Err? ==> r.error == AttributeError
    ensures r == Ok(None) <==>
      (HasFunc(StaticLookup(w, owner, InitSubclassName).value)
       && FuncName(StaticLookup(w, owner, InitSubclassName).value.func) == Some(PatchedInitSubclassName))
    ensures r.Ok? && r.value.Some? ==> r.value.value == PatchedInitSubclass(owner)
  {
    var orig := StaticLookup(w, owner, InitSubclassName).value;
    if HasFunc(orig) then
      match FuncName(orig.func)
      case None => Err(AttributeError)
      case Some(n) => if n == PatchedInitSubclassName then Ok(None) else Ok(Some(PatchedInitSubclass(owner)))
    else Ok(Some(PatchedInitSubclass(owner)))
  }

  /** `getattr(owner, "_ga_proxy_installed__", None) == owner`. */
  predicate Installed(w: World, owner: ClassId)
    requires WellFormed(w) && owner < |w|
  {
    ClassGetattr(w, owner, MarkerName) == Ok(Stored(ClassRef(owner)))
  }

  /** The state after a step, and the exception it raised, if any. */
  datatype Outcome = Outcome(world: World, error: Option<PyError>)

  /** `m` with `name` set to `v`, if there is a `v`. */
  function Put(m: map<Name, Obj>, name: Name, v: Option<Obj>): (m': map<Name, Obj>)
    ensures v.Some? ==> m' == m[name := v.value]
    ensures v.None? ==> m' == m
  {
    if v.Some? then m[name := v.value] else m
  }

  /** `classmethod(f)`, for an optional `f`. */
  function AsClassMethod(f: Option<Obj>): Option<Obj> {
    if f.Some? then Some(ClassMethod(f.value, false)) else None
  }

  /** The world with class `c`'s own `__dict__` replaced. */
  function WithOwn(w: World, c: ClassId, m: map<Name, Obj>): (w': World)
    requires WellFormed(w) && c < |w|
    ensures SameShape(w, w') && WellFormed(w')
    ensures w'[c].own == m
    ensures forall d :: 0 <= d < |w| && d != c ==> w'[d] == w[d]
  {
    var w' := w[c := w[c].(own := m)];
    SameShapeWellFormed(w, w');
    w'
  }

  /** `_install_ga_proxy(owner)`: the new class attributes, in the source's order of assignment. */
  function InstallOutcome(w: World, owner: ClassId): (o: Outcome)
    requires WellFormed(w) && owner < |w|
    ensures SameShape(w, o.world) && WellFormed(o.world)
    ensures forall d :: 0 <= d < |w| && d != owner ==> o.world[d] == w[d]
  {
    if w[owner].isPydantic || Installed(w, owner) then Outcome(w, None)
    else
      var own1 := Put(w[owner].own, ClassGetitemName, AsClassMethod(MakePatchedCgi(w, owner)));
      var w1 := WithOwn(w, owner, own1);
      match MakePatchedInitSubclass(w1, owner)
      case Err(e) => Outcome(w1, Some(e))
      case Ok(pis) =>
        var own2 := Put(own1, InitSubclassName, AsClassMethod(pis))[MarkerName := ClassRef(owner)];
        Outcome(WithOwn(w, owner, own2), None)
  }

  /** `_install_ga_proxy(owner)`, assignment by assignment, on the program's class table. */
  method InstallGAProxy(t: ClassTable, owner: ClassId) returns (err: Option<PyError>)
    requires WellFormed(t.classes) && owner < |t.classes|
    modifies t
    ensures Outcome(t.classes, err) == InstallOutcome(old(t.classes), owner)
  {
    if t.classes[owner].isPydantic {
      return None;
    }
    if Installed(t.classes, owner) {
      return None;
    }
    ghost var w0 := t.classes;
    var patchedCgi := MakePatchedCgi(t.classes, owner);
    ghost var own1 := Put(w0[owner].own, ClassGetitemName, AsClassMethod(patchedCgi));
    WithOwnSelf(w0, owner);
    if patchedCgi.Some? {
      t.SetAttr(owner, ClassGetitemName, ClassMethod(patchedCgi.value, false));
      SetOwnWithOwn(w0, owner, w0[owner].own, ClassGetitemName, ClassMethod(patchedCgi.value, false));
    }
    assert t.classes == WithOwn(w0, owner, own1);
    var patchedInit := MakePatchedInitSubclass(t.classes, owner);
    if patchedInit.Err? {
      return Some(patchedInit.error);
    }
    ghost var own2 := Put(own1, InitSubclassName, AsClassMethod(patchedInit.value));
    if patchedInit.value.Some? {
      t.SetAttr(owner, InitSubclassName, ClassMethod(patchedInit.value.value, false));
      SetOwnWithOwn(w0, owner, own1, InitSubclassName, ClassMethod(patchedInit.value.value, false));
    }
    assert t.classes == WithOwn(w0, owner, own2);
    t.SetAttr(owner, MarkerName, ClassRef(owner));
    SetOwnWithOwn(w0, owner, own2, MarkerName, ClassRef(owner));
    return None;
  }

  /** Writing back a class's own attributes unchanged leaves the table as it is. */
  lemma WithOwnSelf(w: World, c: ClassId)
    requires WellFormed(w) && c < |w|
    ensures WithOwn(w, c, w[c].own) == w
  {
  }

  /** One more attribute assignment on a class whose attributes were replaced. */
  lemma SetOwnWithOwn(w: World, c: ClassId, m: map<Name, Obj>, name: Name, o: Obj)
    requires WellFormed(w) && c < |w|
    ensures SetOwn(WithOwn(w, c, m), c, name, o) == WithOwn(w, c, m[name := o])
  {
  }

  /** The owner's own attributes after an installation that goes ahead, and its error. */
  lemma InstallSteps(w: World, owner: ClassId)
    requires WellFormed(w) && owner < |w| && !w[owner].isPydantic && !Installed(w, owner)
    ensures var own1 := Put(w[owner].own, ClassGetitemName, AsClassMethod(MakePatchedCgi(w, owner)));
      var pis := MakePatchedInitSubclass(WithOwn(w, owner, own1), owner);
      var o := InstallOutcome(w, owner);
      && (pis.Err? ==> o.error == Some(pis.error) && o.world[owner].own == own1)
      && (pis.Ok? ==> o.error.None? && o.world[owner].own == Put(own1, InitSubclassName, AsClassMethod(pis.value))[MarkerName := ClassRef(owner)])
  {
  }

  /** `_install_ga_proxy` leaves a pydantic class, and everything else, untouched. */
  lemma InstallSkipsPydantic(w: World, owner: ClassId)
    requires WellFormed(w) && owner < |w| && w[owner].isPydantic
    ensures InstallOutcome(w, owner) == Outcome(w, None)
  {
  }

  /** The new marker is found first on the owner itself. */
  lemma OwnEntryFound(w: World, c: ClassId, name: Name, o: Obj)
    requires WellFormed(w) && c < |w| && name in w[c].own && w[c].own[name] == o
    ensures StaticLookup(w, c, name) == Some(o)
  {
  }

  /** After an installation that raised nothing, a non-pydantic owner's marker is the owner itself. */
  lemma InstallMarksOwner(w: World, owner: ClassId)
    requires WellFormed(w) && owner < |w| && !w[owner].isPydantic
    requires InstallOutcome(w, owner).error.None?
    ensures Installed(InstallOutcome(w, owner).world, owner)
  {
    var w' := InstallOutcome(w, owner).world;
    if !Installed(w, owner) {
      assert w'[owner].own[MarkerName] == ClassRef(owner);
      OwnEntryFound(w', owner, MarkerName, ClassRef(owner));
    }
  }

  /** Installing a second time on the same owner changes nothing. */
  lemma InstallIdempotent(w: World, owner: ClassId)
    requires WellFormed(w) && owner < |w|
    requires InstallOutcome(w, owner).error.None?
    ensures var w' := InstallOutcome(w, owner).world; InstallOutcome(w', owner) == Outcome(w', None)
  {
    if !w[owner].isPydantic {
      InstallMarksOwner(w, owner);
    }
  }

  /**
   * Installation raises exactly when it goes ahead and the inherited `__init_subclass__` is
   * a `classmethod` or `staticmethod` over an object without `__name__`; the error is then
   * `AttributeError`.
   */
  lemma InstallErrorIff(w: World, owner: ClassId)
    requires WellFormed(w) && owner < |w|
    ensures var o := InstallOutcome(w, owner);
      && (o.error.Some? <==> !w[owner].isPydantic && !Installed(w, owner) && NamelessInitHook(w, owner))
      && (o.error.Some? ==> o.error == Some(AttributeError))
  {
    if !w[owner].isPydantic && !Installed(w, owner) {
      var own1 := Put(w[owner].own, ClassGetitemName, AsClassMethod(MakePatchedCgi(w, owner)));
      LookupUnchangedByOtherName(w, owner, own1, InitSubclassName);
      InstallSteps(w, owner);
    }
  }

  /**
   * A non-pydantic class none of whose bases defines `__init_subclass__` (so that it inherits
   * `object`'s) is installed without error.
   */
  lemma PlainClassInstalls(w: World, owner: ClassId)
    requires WellFormed(w) && owner < |w| && !w[owner].isPydantic
    requires forall j :: 0 <= j < |w[owner].mro| ==> InitSubclassName !in w[w[owner].mro[j]].own
    ensures InstallOutcome(w, owner).error.None? && Installed(InstallOutcome(w, owner).world, owner)
  {
    assert StaticLookup(w, owner, InitSubclassName) == Some(BuiltinHook);
    InstallErrorIff(w, owner);
    InstallMarksOwner(w, owner);
  }

  /**
   * Installation assigns at most `__class_getitem__`, `__init_subclass__` and the marker on
   * the owner; every other attribute of every class is as before.
   */
  lemma InstallOnlyAssignsHooks(w: World, owner: ClassId, n: Name)
    requires WellFormed(w) && owner < |w|
    requires n != ClassGetitemName && n != InitSubclassName && n != MarkerName
    ensures var w' := InstallOutcome(w, owner).world;
      (n in w'[owner].own <==> n in w[owner].own) && (n in w[owner].own ==> w'[owner].own[n] == w[owner].own[n])
  {
    if !w[owner].isPydantic && !Installed(w, owner) {
      InstallSteps(w, owner);
    }
  }

  /** With no `__class_getitem__` to wrap, the owner's own entry for it is left as it was. */
  lemma NoHookNoGetitemPatch(w: World, owner: ClassId, key: seq<Arg>)
    requires WellFormed(w) && owner < |w| && MakePatchedCgi(w, owner).None?
    ensures var w' := InstallOutcome(w, owner).world;
      ClassGetitemName !in w'[owner].own && Subscript(w', owner, key) == Subscript(w, owner, key)
  {
  }

  /**
   * An inherited hook that is already a `_patched_init_subclass` is not wrapped again: the
   * owner's own `__init_subclass__` entry is left as it was.
   */
  lemma PatchedHookNotRewrapped(w: World, owner: ClassId, hookOwner: ClassId, flag: bool)
    requires WellFormed(w) && owner < |w|
    requires StaticLookup(w, owner, InitSubclassName) == Some(ClassMethod(PatchedInitSubclass(hookOwner), flag))
    ensures var w' := InstallOutcome(w, owner).world;
      (InitSubclassName in w'[owner].own <==> InitSubclassName in w[owner].own)
      && (InitSubclassName in w[owner].own ==> w'[owner].own[InitSubclassName] == w[owner].own[InitSubclassName])
  {
    if !w[owner].isPydantic && !Installed(w, owner) {
      var own1 := Put(w[owner].own, ClassGetitemName, AsClassMethod(MakePatchedCgi(w, owner)));
      LookupUnchangedByOtherName(w, owner, own1, InitSubclassName);
      assert MakePatchedInitSubclass(WithOwn(w, owner, own1), owner) == Ok(None);
      InstallSteps(w, owner);
      assert InstallOutcome(w, owner).world[owner].own == own1[MarkerName := ClassRef(owner)];
    }
  }

  /** Replacing a class's own entries for other names does not change the static lookup of `n`. */
  lemma LookupUnchangedByOtherName(w: World, owner: ClassId, m: map<Name, Obj>, n: Name)
    requires WellFormed(w) && owner < |w|
    requires (n in m <==> n in w[owner].own) && (n in m ==> m[n] == w[owner].own[n])
    ensures StaticLookup(WithOwn(w, owner, m), owner, n) == StaticLookup(w, owner, n)
  {
    var w1 := WithOwn(w, owner, m);
    DefiningAgrees(w, w1, w[owner].mro, n, 0);
  }

  /** Two worlds that agree on a name's entries agree on where it is first defined. */
  lemma {:induction false} DefiningAgrees(w: World, w1: World, mro: seq<ClassId>, n: Name, from: nat)
    requires MroIn(w, mro) && MroIn(w1, mro)
    requires forall i :: from <= i < |mro| ==> (n in w1[mro[i]].own <==> n in w[mro[i]].own)
    requires forall i :: from <= i < |mro| && n in w[mro[i]].own ==> w1[mro[i]].own[n] == w[mro[i]].own[n]
    ensures Defining(w1, mro, n, from) == Defining(w, mro, n, from)
    decreases |mro| - from
  {
    if from < |mro| {
      DefiningAgrees(w, w1, mro, n, from + 1);
    }
  }

  /** The hook an `__init_subclass__` entry runs: a `classmethod`'s function, or the entry itself. */
  function HookFunc(raw: Obj): Obj {
    if raw.ClassMethod? then raw.func else raw
  }

  /**
   * `super(C, cls).__init_subclass__()` for the class `cls` being created, where `from` is the
   * MRO position after `C`: the first `__init_subclass__` from there on runs. A
   * `_patched_init_subclass` closing over `owner` first continues after `owner` and then
   * installs on `cls`; a user-defined hook is taken to call `super().__init_subclass__()` and
   * do nothing else; a C-level hook, `object`'s after the MRO included, ends the chain.
   * `fuel` bounds the number of hooks run, standing for Python's recursion limit.
   */
  function InitSubclassChain(w: World, cls: ClassId, from: nat, fuel: nat): (o: Outcome)
    requires WellFormed(w) && cls < |w|
    ensures SameShape(w, o.world) && WellFormed(o.world)
    ensures forall d :: 0 <= d < |w| && d != cls ==> o.world[d] == w[d]
    decreases fuel, 1
  {
    var mro := w[cls].mro;
    match Defining(w, mro, InitSubclassName, from)
    case None => Outcome(w, None)
    case Some(k) =>
      match HookFunc(w[mro[k]].own[InitSubclassName])
      case PatchedInitSubclass(owner) => PatchedChain(w, cls, owner, fuel)
      case Function(_, _, _, _) =>
        if fuel == 0 then Outcome(w, Some(RecursionError)) else InitSubclassChain(w, cls, k + 1, fuel - 1)
      case BuiltinHook => Outcome(w, None)
      case _ => Outcome(w, Some(TypeError))
  }

  /**
   * `_patched_init_subclass` closing over `owner`, called for `cls`: `super(owner, cls)`
   * continues the chain after `owner` in `cls`'s MRO, then `_install_ga_proxy(cls)` runs.
   */
  function PatchedChain(w: World, cls: ClassId, owner: ClassId, fuel: nat): (o: Outcome)
    requires WellFormed(w) && cls < |w|
    ensures SameShape(w, o.world) && WellFormed(o.world)
    ensures forall d :: 0 <= d < |w| && d != cls ==> o.world[d] == w[d]
    decreases fuel, 0
  {
    match IndexOf(w[cls].mro, owner)
    case None => Outcome(w, Some(TypeError))
    case Some(p) =>
      if fuel == 0 then Outcome(w, Some(RecursionError))
      else
        var inner := InitSubclassChain(w, cls, p + 1, fuel - 1);
        if inner.error.Some? then inner else InstallOutcome(inner.world, cls)
  }

  /**
   * `type.__new__`'s `__set_name__` calls on the members of the new class `c`, in definition
   * order, over the class body's `members` as they were before any call: a `_TakesAlias`
   * installs on `c`, and the first exception ends class creation.
   */
  function SetNames(w: World, c: ClassId, members: map<Name, Obj>, names: seq<Name>): (o: Outcome)
    requires WellFormed(w) && c < |w|
    ensures SameShape(w, o.world) && WellFormed(o.world)
    ensures forall d :: 0 <= d < |w| && d != c ==> o.world[d] == w[d]
    decreases |names|
  {
    if names == [] then Outcome(w, None)
    else
      var step := if names[0] in members && members[names[0]].TakesAlias? then InstallOutcome(w, c) else Outcome(w, None);
      if step.error.Some? then step else SetNames(step.world, c, members, names[1..])
  }

  /** On an installed or pydantic class, `_install_ga_proxy` changes nothing and raises nothing. */
  lemma InstallNoOp(w: World, c: ClassId)
    requires WellFormed(w) && c < |w| && (Installed(w, c) || w[c].isPydantic)
    ensures InstallOutcome(w, c) == Outcome(w, None)
  {
  }

  /**
   * When installing on `cls` changes nothing (it is pydantic or already installed), running
   * its `__init_subclass__` chain leaves every class as it is.
   */
  lemma {:induction false} ChainKeepsInstalled(w: World, cls: ClassId, from: nat, fuel: nat)
    requires WellFormed(w) && cls < |w| && InstallOutcome(w, cls) == Outcome(w, None)
    ensures InitSubclassChain(w, cls, from, fuel).world == w
    decreases fuel, 3
  {
    var d := Defining(w, w[cls].mro, InitSubclassName, from);
    if d.Some? {
      var hook := HookFunc(w[w[cls].mro[d.value]].own[InitSubclassName]);
      if hook.PatchedInitSubclass? {
        ChainStepPatched(w, cls, from, fuel, d.value, hook.owner);
        PatchedChainKeepsInstalled(w, cls, hook.owner, fuel);
      } else if hook.Function? && fuel > 0 {
        FunctionHookKeepsInstalled(w, cls, from, fuel - 1, d.value);
      } else {
        ChainStepEnds(w, cls, from, fuel, d.value);
      }
    }
  }

  /** The same, when the hook that runs is a user-defined one, with `f + 1` hooks left to run. */
  lemma {:induction false} FunctionHookKeepsInstalled(w: World, cls: ClassId, from: nat, f: nat, k: nat)
    requires WellFormed(w) && cls < |w| && InstallOutcome(w, cls) == Outcome(w, None)
    requires Defining(w, w[cls].mro, InitSubclassName, from) == Some(k)
    requires HookFunc(w[w[cls].mro[k]].own[InitSubclassName]).Function?
    ensures InitSubclassChain(w, cls, from, f + 1).world == w
    decreases f + 1, 2
  {
    ChainKeepsInstalled(w, cls, k + 1, f);
    ChainStepFunction(w, cls, from, f, k);
  }

  /** The same for a `_patched_init_subclass` call: its own installation on `cls` changes nothing. */
  lemma {:induction false} PatchedChainKeepsInstalled(w: World, cls: ClassId, owner: ClassId, fuel: nat)
    requires WellFormed(w) && cls < |w| && InstallOutcome(w, cls) == Outcome(w, None)
    ensures PatchedChain(w, cls, owner, fuel).world == w
    decreases fuel, 1
  {
    var p := IndexOf(w[cls].mro, owner);
    if p.Some? && fuel > 0 {
      PatchedRunKeepsInstalled(w, cls, owner, fuel - 1, p.value);
    }
  }

  /** The same, once `owner` is found at position `p` of the MRO with `f + 1` hooks left to run. */
  lemma {:induction false} PatchedRunKeepsInstalled(w: World, cls: ClassId, owner: ClassId, f: nat, p: nat)
    requires WellFormed(w) && cls < |w| && InstallOutcome(w, cls) == Outcome(w, None)
    requires IndexOf(w[cls].mro, owner) == Some(p)
    ensures PatchedChain(w, cls, owner, f + 1).world == w
    decreases f + 1, 0
  {
    ChainKeepsInstalled(w, cls, p + 1, f);
    PatchedStep(w, cls, owner, f, p);
  }

  /** A `_patched_init_subclass` found at MRO position `k` takes the chain over. */
  lemma ChainStepPatched(w: World, cls: ClassId, from: nat, fuel: nat, k: nat, owner: ClassId)
    requires WellFormed(w) && cls < |w|
    requires Defining(w, w[cls].mro, InitSubclassName, from) == Some(k)
    requires HookFunc(w[w[cls].mro[k]].own[InitSubclassName]) == PatchedInitSubclass(owner)
    ensures InitSubclassChain(w, cls, from, fuel) == PatchedChain(w, cls, owner, fuel)
  {
  }

  /** A user-defined hook at MRO position `k` passes on to the rest of the MRO, spending one hook of `f + 1`. */
  lemma ChainStepFunction(w: World, cls: ClassId, from: nat, f: nat, k: nat)
    requires WellFormed(w) && cls < |w|
    requires Defining(w, w[cls].mro, InitSubclassName, from) == Some(k)
    requires HookFunc(w[w[cls].mro[k]].own[InitSubclassName]).Function?
    requires InitSubclassChain(w, cls, k + 1, f).world == w
    ensures InitSubclassChain(w, cls, from, f + 1).world == w
  {
  }

  /** Any other hook at MRO position `k` ends the chain without changing a class. */
  lemma ChainStepEnds(w: World, cls: ClassId, from: nat, fuel: nat, k: nat)
    requires WellFormed(w) && cls < |w|
    requires Defining(w, w[cls].mro, InitSubclassName, from) == Some(k)
    requires !HookFunc(w[w[cls].mro[k]].own[InitSubclassName]).PatchedInitSubclass?
    requires !(HookFunc(w[w[cls].mro[k]].own[InitSubclassName]).Function? && fuel > 0)
    ensures InitSubclassChain(w, cls, from, fuel).world == w
  {
  }

  /** `_patched_init_subclass` after a chain that changed nothing: installing changes nothing either. */
  lemma PatchedStep(w: World, cls: ClassId, owner: ClassId, f: nat, p: nat)
    requires WellFormed(w) && cls < |w| && InstallOutcome(w, cls) == Outcome(w, None)
    requires IndexOf(w[cls].mro, owner) == Some(p)
    requires InitSubclassChain(w, cls, p + 1, f).world == w
    ensures PatchedChain(w, cls, owner, f + 1).world == w
  {
  }

  /** When installing on `c` changes nothing, neither do the remaining `__set_name__` calls, and they raise nothing. */
  lemma {:induction false} SetNamesKeepInstalled(w: World, c: ClassId, members: map<Name, Obj>, names: seq<Name>)
    requires WellFormed(w) && c < |w| && InstallOutcome(w, c) == Outcome(w, None)
    ensures SetNames(w, c, members, names) == Outcome(w, None)
    decreases |names|
  {
    if names != [] {
      SetNamesKeepInstalled(w, c, members, names[1..]);
    }
  }

  /**
   * When the members listed in `names` include a `_TakesAlias`, `__set_name__` calls that
   * raise nothing leave a non-pydantic class `c` installed.
   */
  lemma {:induction false} SetNamesInstall(w: World, c: ClassId, members: map<Name, Obj>, names: seq<Name>, i: nat)
    requires WellFormed(w) && c < |w| && !w[c].isPydantic
    requires i < |names| && names[i] in members && members[names[i]].TakesAlias?
    requires SetNames(w, c, members, names).error.None?
    ensures Installed(SetNames(w, c, members, names).world, c)
    decreases |names|
  {
    var step := if names[0] in members && members[names[0]].TakesAlias? then InstallOutcome(w, c) else Outcome(w, None);
    assert step.error.None? && SetNames(w, c, members, names) == SetNames(step.world, c, members, names[1..]);
    if i == 0 {
      InstallMarksOwner(w, c);
      InstallNoOp(step.world, c);
      SetNamesKeepInstalled(step.world, c, members, names[1..]);
    } else {
      SetNamesInstall(step.world, c, members, names[1..], i - 1);
    }
  }

  /** A class statement's new class `rec` gets the next id, and its bases are classes that already exist. */
  predicate NewClassOk(w: World, rec: ClassRec) {
    && WellFormed(w) && |rec.mro| > 0 && rec.mro[0] == |w|
    && forall i :: 1 <= i < |rec.mro| ==> rec.mro[i] < |w|
  }

  /** Adding such a class keeps the world well formed and the existing classes as they are. */
  lemma NewClassWellFormed(w: World, rec: ClassRec)
    requires NewClassOk(w, rec)
    ensures WellFormed(w + [rec]) && |w + [rec]| == |w| + 1 && (w + [rec])[|w|] == rec
    ensures forall d :: 0 <= d < |w| ==> (w + [rec])[d] == w[d]
  {
    var w1 := w + [rec];
    forall c | 0 <= c < |w1| ensures |w1[c].mro| > 0 && w1[c].mro[0] == c && MroIn(w1, w1[c].mro) {
      if c < |w| {
        assert w1[c] == w[c];
        assert MroIn(w, w[c].mro);
      }
    }
  }

  /**
   * `class C(...)` with body `rec.own` listed in definition order as `names`: the class object
   * is created, `__set_name__` runs on its members, then `super(C, C).__init_subclass__()`.
   */
  function NewClass(w: World, rec: ClassRec, names: seq<Name>): (o: Outcome)
    requires NewClassOk(w, rec)
    ensures SameShape(w + [rec], o.world) && WellFormed(o.world)
    ensures forall d :: 0 <= d < |w| ==> o.world[d] == w[d]
  {
    NewClassWellFormed(w, rec);
    var c := |w|;
    var named := SetNames(w + [rec], c, rec.own, names);
    if named.error.Some? then named else InitSubclassChain(named.world, c, 1, |rec.mro|)
  }

  /**
   * A non-pydantic class whose body holds a `_TakesAlias` member (an `@takes_alias`
   * classmethod) is installed on itself once its class statement completes without error.
   */
  lemma NewClassTakesAliasInstalled(w: World, rec: ClassRec, names: seq<Name>, i: nat)
    requires NewClassOk(w, rec) && !rec.isPydantic
    requires i < |names| && names[i] in rec.own && rec.own[names[i]].TakesAlias?
    requires NewClass(w, rec, names).error.None?
    ensures Installed(NewClass(w, rec, names).world, |w|)
  {
    NewClassWellFormed(w, rec);
    var named := SetNames(w + [rec], |w|, rec.own, names);
    assert named.error.None? && NewClass(w, rec, names) == InitSubclassChain(named.world, |w|, 1, |rec.mro|);
    SetNamesInstall(w + [rec], |w|, rec.own, names, i);
    InstallNoOp(named.world, |w|);
    ChainKeepsInstalled(named.world, |w|, 1, |rec.mro|);
  }

  /**
   * When the first `__init_subclass__` the chain reaches is a `_patched_init_subclass`, a
   * non-pydantic class whose creation raised nothing ends up with its own installation.
   */
  lemma ChainInstalls(w: World, cls: ClassId, from: nat, fuel: nat, k: nat, owner: ClassId)
    requires WellFormed(w) && cls < |w| && !w[cls].isPydantic
    requires Defining(w, w[cls].mro, InitSubclassName, from) == Some(k)
    requires HookFunc(w[w[cls].mro[k]].own[InitSubclassName]) == PatchedInitSubclass(owner)
    requires InitSubclassChain(w, cls, from, fuel).error.None?
    ensures Installed(InitSubclassChain(w, cls, from, fuel).world, cls)
  {
    assert InitSubclassChain(w, cls, from, fuel) == PatchedChain(w, cls, owner, fuel);
    PatchedChainInstalls(w, cls, owner, fuel);
  }

  /** A `_patched_init_subclass` call that raises nothing leaves `cls` installed. */
  lemma PatchedChainInstalls(w: World, cls: ClassId, owner: ClassId, fuel: nat)
    requires WellFormed(w) && cls < |w| && !w[cls].isPydantic
    requires PatchedChain(w, cls, owner, fuel).error.None?
    ensures Installed(PatchedChain(w, cls, owner, fuel).world, cls)
  {
    var p := IndexOf(w[cls].mro, owner).value;
    var inner := InitSubclassChain(w, cls, p + 1, fuel - 1);
    InstallMarksOwner(inner.world, cls);
  }

  /**
   * A new non-pydantic subclass whose nearest inherited `__init_subclass__` is a
   * `_patched_init_subclass` is installed on itself once its class statement completes.
   */
  lemma SubclassInstalled(w: World, rec: ClassRec, names: seq<Name>, k: nat, owner: ClassId)
    requires NewClassOk(w, rec) && !rec.isPydantic
    requires Defining(w + [rec], rec.mro, InitSubclassName, 1) == Some(k)
    requires HookFunc((w + [rec])[rec.mro[k]].own[InitSubclassName]) == PatchedInitSubclass(owner)
    requires NewClass(w, rec, names).error.None?
    ensures Installed(NewClass(w, rec, names).world, |w|)
  {
    NewClassWellFormed(w, rec);
    var named := SetNames(w + [rec], |w|, rec.own, names);
    NamesKeepHook(w, rec, names, k, owner);
    assert named.error.None? && NewClass(w, rec, names) == InitSubclassChain(named.world, |w|, 1, |rec.mro|);
    ChainInstalls(named.world, |w|, 1, |rec.mro|, k, owner);
  }

  /** The `__set_name__` calls leave the new class's inherited `__init_subclass__` where it was. */
  lemma NamesKeepHook(w: World, rec: ClassRec, names: seq<Name>, k: nat, owner: ClassId)
    requires NewClassOk(w, rec) && !rec.isPydantic
    requires Defining(w + [rec], rec.mro, InitSubclassName, 1) == Some(k)
    requires HookFunc((w + [rec])[rec.mro[k]].own[InitSubclassName]) == PatchedInitSubclass(owner)
    ensures WellFormed(w + [rec])
    ensures var nw := SetNames(w + [rec], |w|, rec.own, names).world;
      && |w| < |nw| && nw[|w|].mro == rec.mro && !nw[|w|].isPydantic
      && Defining(nw, nw[|w|].mro, InitSubclassName, 1) == Some(k)
      && HookFunc(nw[nw[|w|].mro[k]].own[InitSubclassName]) == PatchedInitSubclass(owner)
  {
    NewClassWellFormed(w, rec);
    var w1 := w + [rec];
    var nw := SetNames(w1, |w|, rec.own, names).world;
    assert nw[|w|].mro == rec.mro;
    DefiningAgrees(w1, nw, rec.mro, InitSubclassName, 1);
    assert nw[rec.mro[k]] == w1[rec.mro[k]];
  }


  /**
   * A class that only inherits another class's marker is not installed, so its first
   * `_install_ga_proxy` call goes ahead.
   */
  lemma InheritedMarkerNotInstalled(w: World, c: ClassId, parent: ClassId)
    requires WellFormed(w) && c < |w| && parent != c
    requires StaticLookup(w, c, MarkerName) == Some(ClassRef(parent))
    ensures !Installed(w, c)
  {
  }

  /**
   * Installing on a class whose inherited `__class_getitem__` is `typing.Generic`'s hook under
   * any number of patches makes `owner[key]` a single proxy over `owner`'s own alias, whether
   * or not the later `__init_subclass__` step raises.
   */
  lemma InstalledSubscript(w: World, owner: ClassId, m: nat, flag: bool, key: seq<Arg>)
    requires WellFormed(w) && owner < |w| && !w[owner].isPydantic && !Installed(w, owner)
    requires StaticLookup(w, owner, ClassGetitemName) == Some(ClassMethod(PatchedLayers(m), flag))
    ensures Subscript(InstallOutcome(w, owner).world, owner, key) == Ok(Proxy(GenericAlias(owner, key)))
  {
    var w' := InstallOutcome(w, owner).world;
    InstalledHookEntry(w, owner, m, flag);
    OwnEntryFound(w', owner, ClassGetitemName, ClassMethod(PatchedLayers(m + 1), false));
    PatchedHookReturnsProxy(w', m + 1, owner, key);
  }

  /** Installation puts one more `_patched_cgi` layer on the owner itself, whether or not it then raises. */
  lemma InstalledHookEntry(w: World, owner: ClassId, m: nat, flag: bool)
    requires WellFormed(w) && owner < |w| && !w[owner].isPydantic && !Installed(w, owner)
    requires StaticLookup(w, owner, ClassGetitemName) == Some(ClassMethod(PatchedLayers(m), flag))
    ensures var own := InstallOutcome(w, owner).world[owner].own;
      ClassGetitemName in own && own[ClassGetitemName] == ClassMethod(PatchedLayers(m + 1), false)
  {
    InstallSteps(w, owner);
    assert PatchedLayers(m + 1) == PatchedCgi(PatchedLayers(m));
    assert BaseCgi(w, owner) == Some(PatchedLayers(m));
    assert MakePatchedCgi(w, owner) == Some(PatchedLayers(m + 1));
    var own1 := Put(w[owner].own, ClassGetitemName, AsClassMethod(MakePatchedCgi(w, owner)));
    assert own1[ClassGetitemName] == ClassMethod(PatchedLayers(m + 1), false);
  }
}
