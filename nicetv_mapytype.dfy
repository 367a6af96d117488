/**
 * `src/nicetv/mapytype.py`, the prototype of the installation in
 * `src/nicetv/aliasclassmethod.py`: the same one-time installation tracked by the marker,
 * except that `C[args]` returns the wrapper `_GAProxy`, that `__init_subclass__` is always
 * wrapped again, and that the original hook is read as `owner.__init_subclass__.__func__`.
 */
module NicetvMapytype {
  import opened Wrappers
  import opened PyTypes
  import opened PyObjects
  import opened Subscription
  import ACM = AliasClassMethod

  /** `_make_patched_cgi(owner, parent)`: a `_patched_cgi` over the same base hook as the library's, or none. */
  function MakePatchedCgi(w: World, owner: ClassId): (r: Option<Obj>)
    requires WellFormed(w) && owner < |w|
    ensures r.None? <==> StaticLookup(w, owner, ClassGetitemName).None? && ClassGetitemName !in w[owner].dynamic
    ensures r.Some? ==> r.value.WrapCgi? && Some(r.value.base) == ACM.BaseCgi(w, owner)
  {
    match ACM.BaseCgi(w, owner)
    case Some(base) => Some(WrapCgi(base))
    case None => None
  }

  /**
   * `owner.__init_subclass__.__func__`: the function of the bound hook; a C-level method
   * such as `object.__init_subclass__` has no `__func__`, and neither has a plain function.
   */
  function InitFunc(w: World, owner: ClassId): (r: Result<Obj, PyError>)
    requires WellFormed(w) && owner < |w|
    ensures StaticLookup(w, owner, InitSubclassName) == Some(BuiltinHook) ==> r == Err(AttributeError)
    ensures StaticLookup(w, owner, InitSubclassName).Some? && StaticLookup(w, owner, InitSubclassName).value.ClassMethod?
      && !StaticLookup(w, owner, InitSubclassName).value.func.BuiltinHook?
      ==> r == Ok(StaticLookup(w, owner, InitSubclassName).value.func)
  {
    match ClassGetattr(w, owner, InitSubclassName)
    case Err(e) => Err(e)
    case Ok(Bound(f, _)) => if f.BuiltinHook? then Err(AttributeError) else Ok(f)
    case Ok(Stored(o)) => if HasFunc(o) then Ok(o.func) else Err(AttributeError)
    case Ok(AliasField(_, _)) => Err(AttributeError)
  }

  /**
   * `_install_ga_proxy(owner)`: unless pydantic or already marked, set the patched
   * `__class_getitem__` (when there is a hook to wrap), then always a new
   * `__init_subclass__` closing over the original hook's function, then the marker.
   */
  function InstallOutcome(w: World, owner: ClassId): (o: ACM.Outcome)
    requires WellFormed(w) && owner < |w|
    ensures SameShape(w, o.world) && WellFormed(o.world)
    ensures forall d :: 0 <= d < |w| && d != owner ==> o.world[d] == w[d]
  {
    if w[owner].isPydantic || ACM.Installed(w, owner) then ACM.Outcome(w, None)
    else
      var own1 := ACM.Put(w[owner].own, ClassGetitemName, ACM.AsClassMethod(MakePatchedCgi(w, owner)));
      var w1 := ACM.WithOwn(w, owner, own1);
      match InitFunc(w1, owner)
      case Err(e) => ACM.Outcome(w1, Some(e))
      case Ok(f) =>
        var own2 := own1[InitSubclassName := ClassMethod(OrigHookPatch(owner, f), false)][MarkerName := ClassRef(owner)];
        ACM.Outcome(ACM.WithOwn(w, owner, own2), None)
  }

  /** `_install_ga_proxy(owner)`, assignment by assignment, on the program's class table. */
  method InstallGAProxy(t: ClassTable, owner: ClassId) returns (err: Option<PyError>)
    requires WellFormed(t.classes) && owner < |t.classes|
    modifies t
    ensures ACM.Outcome(t.classes, err) == InstallOutcome(old(t.classes), owner)
  {
    if t.classes[owner].isPydantic || ACM.Installed(t.classes, owner) {
      return None;
    }
    ghost var w0 := t.classes;
    var patchedCgi := MakePatchedCgi(t.classes, owner);
    ghost var own1 := ACM.Put(w0[owner].own, ClassGetitemName, ACM.AsClassMethod(patchedCgi));
    ACM.WithOwnSelf(w0, owner);
    if patchedCgi.Some? {
      t.SetAttr(owner, ClassGetitemName, ClassMethod(patchedCgi.value, false));
      ACM.SetOwnWithOwn(w0, owner, w0[owner].own, ClassGetitemName, ClassMethod(patchedCgi.value, false));
    }
    assert t.classes == ACM.WithOwn(w0, owner, own1);
    var orig := InitFunc(t.classes, owner);
    if orig.Err? {
      return Some(orig.error);
    }
    var hook := ClassMethod(OrigHookPatch(owner, orig.value), false);
    t.SetAttr(owner, InitSubclassName, hook);
    ACM.SetOwnWithOwn(w0, owner, own1, InitSubclassName, hook);
    t.SetAttr(owner, MarkerName, ClassRef(owner));
    ACM.SetOwnWithOwn(w0, owner, own1[InitSubclassName := hook], MarkerName, ClassRef(owner));
    return None;
  }

  /** A pydantic class, and a class already marked as its own, are left untouched. */
  lemma InstallSkips(w: World, owner: ClassId)
    requires WellFormed(w) && owner < |w| && (w[owner].isPydantic || ACM.Installed(w, owner))
    ensures InstallOutcome(w, owner) == ACM.Outcome(w, None)
  {
  }

  /** An installation that raised nothing leaves the owner marked as its own. */
  lemma InstallMarksOwner(w: World, owner: ClassId)
    requires WellFormed(w) && owner < |w| && !w[owner].isPydantic
    requires InstallOutcome(w, owner).error.None?
    ensures ACM.Installed(InstallOutcome(w, owner).world, owner)
  {
    var w' := InstallOutcome(w, owner).world;
    if !ACM.Installed(w, owner) {
      ACM.OwnEntryFound(w', owner, MarkerName, ClassRef(owner));
    }
  }

  /** With no `__class_getitem__` to wrap, `owner[key]` behaves as before. */
  lemma NoHookNoGetitemPatch(w: World, owner: ClassId, key: seq<Arg>)
    requires WellFormed(w) && owner < |w| && MakePatchedCgi(w, owner).None?
    ensures var w' := InstallOutcome(w, owner).world;
      ClassGetitemName !in w'[owner].own && Subscript(w', owner, key) == Subscript(w, owner, key)
  {
  }

  /**
   * Unlike the library, an inherited hook that is already patched is wrapped once more,
   * closing over the inherited patch's function.
   */
  lemma InitAlwaysRewrapped(w: World, owner: ClassId, parent: ClassId, orig: Obj, flag: bool)
    requires WellFormed(w) && owner < |w| && !w[owner].isPydantic && !ACM.Installed(w, owner)
    requires StaticLookup(w, owner, InitSubclassName) == Some(ClassMethod(OrigHookPatch(parent, orig), flag))
    ensures var o := InstallOutcome(w, owner);
      o.error.None? && o.world[owner].own[InitSubclassName] == ClassMethod(OrigHookPatch(owner, OrigHookPatch(parent, orig)), false)
  {
    var own1 := ACM.Put(w[owner].own, ClassGetitemName, ACM.AsClassMethod(MakePatchedCgi(w, owner)));
    ACM.LookupUnchangedByOtherName(w, owner, own1, InitSubclassName);
  }

  /**
   * Each installation along an inheritance line wraps the inherited patched hook again, so
   * `owner[key]` is the native alias inside one wrapper per installation; the hook is set
   * before the `__init_subclass__` step, so this holds even when that step raises.
   */
  lemma InstalledSubscriptNests(w: World, owner: ClassId, m: nat, flag: bool, key: seq<Arg>)
    requires WellFormed(w) && owner < |w| && !w[owner].isPydantic && !ACM.Installed(w, owner)
    requires StaticLookup(w, owner, ClassGetitemName) == Some(ClassMethod(WrappedLayers(m), flag))
    ensures Subscript(InstallOutcome(w, owner).world, owner, key) == Ok(Nest(m + 1, GA(GenericAlias(owner, key))))
  {
    var w' := InstallOutcome(w, owner).world;
    WrappedHookEntry(w, owner, m, flag);
    ACM.OwnEntryFound(w', owner, ClassGetitemName, ClassMethod(WrappedLayers(m + 1), false));
    WrappedHookNests(w', m + 1, owner, key);
  }

  /** Installation puts one more `_patched_cgi` wrapper on the owner itself, whether or not it then raises. */
  lemma WrappedHookEntry(w: World, owner: ClassId, m: nat, flag: bool)
    requires WellFormed(w) && owner < |w| && !w[owner].isPydantic && !ACM.Installed(w, owner)
    requires StaticLookup(w, owner, ClassGetitemName) == Some(ClassMethod(WrappedLayers(m), flag))
    ensures var own := InstallOutcome(w, owner).world[owner].own;
      ClassGetitemName in own && own[ClassGetitemName] == ClassMethod(WrappedLayers(m + 1), false)
  {
    assert WrappedLayers(m + 1) == WrapCgi(WrappedLayers(m));
    assert MakePatchedCgi(w, owner) == Some(WrappedLayers(m + 1));
    var own1 := ACM.Put(w[owner].own, ClassGetitemName, ACM.AsClassMethod(MakePatchedCgi(w, owner)));
    assert own1[ClassGetitemName] == ClassMethod(WrappedLayers(m + 1), false);
  }

  /**
   * When the inherited `__init_subclass__` is a C-level method (`object`'s, or
   * `typing.Generic`'s since Python 3.12), installation raises `AttributeError` after
   * `__class_getitem__` has been replaced and before the marker is set.
   */
  lemma BuiltinHookBreaksInstall(w: World, owner: ClassId)
    requires WellFormed(w) && owner < |w| && !w[owner].isPydantic && !ACM.Installed(w, owner)
    requires StaticLookup(w, owner, InitSubclassName) == Some(BuiltinHook)
    ensures var o := InstallOutcome(w, owner);
      && o.error == Some(AttributeError)
      && !ACM.Installed(o.world, owner)
      && (MakePatchedCgi(w, owner).Some? ==> o.world[owner].own[ClassGetitemName] == ClassMethod(MakePatchedCgi(w, owner).value, false))
  {
    var own1 := ACM.Put(w[owner].own, ClassGetitemName, ACM.AsClassMethod(MakePatchedCgi(w, owner)));
    ACM.LookupUnchangedByOtherName(w, owner, own1, InitSubclassName);
    ACM.LookupUnchangedByOtherName(w, owner, own1, MarkerName);
  }

  /**
   * The original hook as `getattr(owner.__init_subclass__, "__func__", None)` reads it: a
   * C-level hook without `__func__` is kept as itself.
   */
  function FixedInitFunc(w: World, owner: ClassId): (r: Result<Obj, PyError>)
    requires WellFormed(w) && owner < |w|
    ensures r.Err? <==> ClassGetattr(w, owner, InitSubclassName).Err?
    ensures InitFunc(w, owner).Ok? ==> r == InitFunc(w, owner)
  {
    match ClassGetattr(w, owner, InitSubclassName)
    case Err(e) => Err(e)
    case Ok(Bound(f, _)) => Ok(f)
    case Ok(Stored(o)) => Ok(if HasFunc(o) then o.func else o)
    case Ok(AliasField(_, _)) => Ok(BuiltinHook)
  }

  /** `_install_ga_proxy(owner)` with the original hook read by `FixedInitFunc`. */
  function FixedInstallOutcome(w: World, owner: ClassId): (o: ACM.Outcome)
    requires WellFormed(w) && owner < |w|
    ensures SameShape(w, o.world) && WellFormed(o.world)
    ensures forall d :: 0 <= d < |w| && d != owner ==> o.world[d] == w[d]
  {
    if w[owner].isPydantic || ACM.Installed(w, owner) then ACM.Outcome(w, None)
    else
      var own1 := ACM.Put(w[owner].own, ClassGetitemName, ACM.AsClassMethod(MakePatchedCgi(w, owner)));
      var w1 := ACM.WithOwn(w, owner, own1);
      match FixedInitFunc(w1, owner)
      case Err(e) => ACM.Outcome(w1, Some(e))
      case Ok(f) =>
        var own2 := own1[InitSubclassName := ClassMethod(OrigHookPatch(owner, f), false)][MarkerName := ClassRef(owner)];
        ACM.Outcome(ACM.WithOwn(w, owner, own2), None)
  }

  /**
   * With the original hook read that way, installation on any non-pydantic class raises
   * nothing and marks the owner, whatever kind of hook it inherits (`object`'s at the latest).
   * This covers installation only: the kept C-level hook is still called as
   * `orig_init_subclass(cls)` when a subclass is created, which is not modelled.
   */
  lemma FixedInstallSucceeds(w: World, owner: ClassId)
    requires WellFormed(w) && owner < |w| && !w[owner].isPydantic
    ensures var o := FixedInstallOutcome(w, owner); o.error.None? && ACM.Installed(o.world, owner)
  {
    if !ACM.Installed(w, owner) {
      var own1 := ACM.Put(w[owner].own, ClassGetitemName, ACM.AsClassMethod(MakePatchedCgi(w, owner)));
      var w1 := ACM.WithOwn(w, owner, own1);
      ACM.LookupUnchangedByOtherName(w, owner, own1, InitSubclassName);
      assert ClassGetattr(w1, owner, InitSubclassName).Ok?;
      var f := FixedInitFunc(w1, owner).value;
      var own2 := own1[InitSubclassName := ClassMethod(OrigHookPatch(owner, f), false)][MarkerName := ClassRef(owner)];
      var w' := ACM.WithOwn(w, owner, own2);
      assert FixedInstallOutcome(w, owner) == ACM.Outcome(w', None);
      ACM.OwnEntryFound(w', owner, MarkerName, ClassRef(owner));
    }
  }
}
