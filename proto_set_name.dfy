/**
 * `aliasclassmethod.__set_name__` of the two earliest prototypes, `mapytype.py` and
 * `tvfind/mapytype.py`, which are the same code apart from the wrapper class they return
 * (given here by the prototype): while the inherited `_ga_proxy_installed__` flag is falsy,
 * `__class_getitem__` is replaced by a hook that calls the previously looked-up one and wraps
 * its result, and the flag is set to `True`.
 */
module PrototypeSetName {
  import opened Wrappers
  import opened PyTypes
  import opened PyObjects
  import opened Subscription
  import ACM = AliasClassMethod

  /** `getattr(owner, "_ga_proxy_installed__", False)`, taken for its truth value. */
  predicate Flagged(w: World, owner: ClassId)
    requires WellFormed(w) && owner < |w|
  {
    match ClassGetattr(w, owner, MarkerName)
    case Err(_) => false
    case Ok(Stored(Flag(b))) => b
    case Ok(_) => true
  }

  /** `getattr(owner, "__class_getitem__", None)`: the hook bound to `owner`, if there is one. */
  function RawLookup(w: World, owner: ClassId): (r: Option<Attr>)
    requires WellFormed(w) && owner < |w|
    ensures r.Some? <==> ClassGetattr(w, owner, ClassGetitemName).Ok?
    ensures r.Some? ==> r.value == ClassGetattr(w, owner, ClassGetitemName).value
  {
    match ClassGetattr(w, owner, ClassGetitemName)
    case Ok(a) => Some(a)
    case Err(_) => None
  }

  /** `owner.__class_getitem__ = classmethod(hook)` and then `owner._ga_proxy_installed__ = True`. */
  function SetHook(w: World, owner: ClassId, hook: Obj): (w': World)
    requires WellFormed(w) && owner < |w|
    ensures SameShape(w, w') && WellFormed(w')
    ensures w'[owner].own == w[owner].own[ClassGetitemName := ClassMethod(hook, false)][MarkerName := Flag(true)]
    ensures forall d :: 0 <= d < |w| && d != owner ==> w'[d] == w[d]
  {
    ACM.WithOwn(w, owner, w[owner].own[ClassGetitemName := ClassMethod(hook, false)][MarkerName := Flag(true)])
  }

  /**
   * `aliasclassmethod.__set_name__(owner, name)`: nothing once the flag is truthy; otherwise
   * the hook `_patched_cgi` over `_base_cgi`, which calls the looked-up bound hook with the
   * key alone (or, with none, a zero-argument `super()` that cannot succeed there).
   */
  function SetName(w: World, owner: ClassId, proto: Proto): (w': World)
    requires WellFormed(w) && owner < |w|
    ensures SameShape(w, w') && WellFormed(w')
    ensures forall d :: 0 <= d < |w| && d != owner ==> w'[d] == w[d]
  {
    if Flagged(w, owner) then w else SetHook(w, owner, RawCgi(RawLookup(w, owner), proto))
  }

  /** `aliasclassmethod.__set_name__(owner, name)`, assignment by assignment, on the program's class table. */
  method SetNameOn(t: ClassTable, owner: ClassId, proto: Proto)
    requires WellFormed(t.classes) && owner < |t.classes|
    modifies t
    ensures t.classes == SetName(old(t.classes), owner, proto)
  {
    if !Flagged(t.classes, owner) {
      ghost var w0 := t.classes;
      var raw := RawLookup(t.classes, owner);
      var hook := ClassMethod(RawCgi(raw, proto), false);
      ACM.WithOwnSelf(w0, owner);
      t.SetAttr(owner, ClassGetitemName, hook);
      ACM.SetOwnWithOwn(w0, owner, w0[owner].own, ClassGetitemName, hook);
      t.SetAttr(owner, MarkerName, Flag(true));
      ACM.SetOwnWithOwn(w0, owner, w0[owner].own[ClassGetitemName := hook], MarkerName, Flag(true));
    }
  }

  /** After `__set_name__`, the owner's flag is truthy. */
  lemma SetNameSetsFlag(w: World, owner: ClassId, proto: Proto)
    requires WellFormed(w) && owner < |w|
    ensures Flagged(SetName(w, owner, proto), owner)
  {
    if !Flagged(w, owner) {
      var w' := SetName(w, owner, proto);
      ACM.OwnEntryFound(w', owner, MarkerName, Flag(true));
    }
  }

  /** A second `__set_name__` on the same class changes nothing. */
  lemma SetNameOnce(w: World, owner: ClassId, proto: Proto, proto2: Proto)
    requires WellFormed(w) && owner < |w|
    ensures SetName(SetName(w, owner, proto), owner, proto2) == SetName(w, owner, proto)
  {
    SetNameSetsFlag(w, owner, proto);
  }

  /**
   * The flag set on `owner` is inherited: a subclass that had no flag of its own or from
   * elsewhere sees it truthy, so `__set_name__` on the subclass changes nothing.
   */
  lemma FlagInherited(w: World, owner: ClassId, d: ClassId, proto: Proto, proto2: Proto)
    requires WellFormed(w) && owner < |w| && d < |w| && !Flagged(w, owner)
    requires owner in w[d].mro && StaticLookup(w, d, MarkerName).None?
    ensures Flagged(SetName(w, owner, proto), d)
    ensures SetName(SetName(w, owner, proto), d, proto2) == SetName(w, owner, proto)
  {
    var w' := SetName(w, owner, proto);
    var mro := w[d].mro;
    var i :| 0 <= i < |mro| && mro[i] == owner;
    assert MarkerName in w'[mro[i]].own;
    match Defining(w', mro, MarkerName, 0)
    case None =>
      assert false;
    case Some(k) =>
      assert mro[k] == owner;
      assert StaticLookup(w', d, MarkerName) == Some(Flag(true));
  }

  /**
   * A call of the installed hook `C[key]`, for whatever class receives it: the previously
   * looked-up hook, bound to the class it was looked up on, is called with the key and its
   * result wrapped; the receiving class plays no part.
   */
  lemma RawHookIgnoresReceiver(w: World, d: ClassId, c: ClassId, hook: Obj, proto: Proto, flag: bool, key: seq<Arg>)
    requires WellFormed(w) && d < |w|
    requires MroLookup(w, d, ClassGetitemName) == Some(ClassMethod(RawCgi(Some(Bound(hook, Cls(c))), proto), flag))
    ensures Subscript(w, d, key) == match CallHook(w, hook, c, key)
                                   case Ok(alias) => Ok(Wrapped(alias, proto))
                                   case Err(e) => Err(e)
    ensures hook == GenericHook ==> Subscript(w, d, key) == Ok(Wrapped(GA(GenericAlias(c, key)), proto))
  {
    var h := RawCgi(Some(Bound(hook, Cls(c))), proto);
    assert ClassGetattr(w, d, ClassGetitemName) == Ok(Bound(h, Cls(d)));
    assert Subscript(w, d, key) == CallHook(w, h, d, key);
    assert CallAttr(w, Bound(hook, Cls(c)), key) == CallHook(w, hook, c, key);
  }

  /**
   * The prototype's hook as evidently intended: a bound hook's `__func__` is called with the
   * receiving class, as `_make_patched_cgi` of the later versions does.
   */
  function FixedSetName(w: World, owner: ClassId, proto: Proto): (w': World)
    requires WellFormed(w) && owner < |w|
    ensures SameShape(w, w') && WellFormed(w')
    ensures forall d :: 0 <= d < |w| && d != owner ==> w'[d] == w[d]
  {
    if Flagged(w, owner) then w else SetHook(w, owner, FixedRawCgi(RawLookup(w, owner), proto))
  }

  /** With that hook, `D[key]` wraps the alias `typing.Generic` builds for `D` itself, for every class `D` inheriting it. */
  lemma FixedHookUsesReceiver(w: World, d: ClassId, c: ClassId, proto: Proto, flag: bool, key: seq<Arg>)
    requires WellFormed(w) && d < |w|
    requires MroLookup(w, d, ClassGetitemName) == Some(ClassMethod(FixedRawCgi(Some(Bound(GenericHook, Cls(c))), proto), flag))
    ensures Subscript(w, d, key) == Ok(Wrapped(GA(GenericAlias(d, key)), proto))
  {
    var h := FixedRawCgi(Some(Bound(GenericHook, Cls(c))), proto);
    assert ClassGetattr(w, d, ClassGetitemName) == Ok(Bound(h, Cls(d)));
    assert Subscript(w, d, key) == CallHook(w, h, d, key);
    assert CallHook(w, GenericHook, d, key) == Ok(GA(GenericAlias(d, key)));
  }
}
