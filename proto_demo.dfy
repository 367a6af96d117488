/**
 * The demonstration at the end of `tvfind/mapytype.py`, repeated in `tests/test_acm.py` over
 * `mapytype.py`: `class C[T: float = int]` with an `aliasclassmethod` `check_class` and a
 * plain classmethod `normal`. The lemmas take the prototype and the subscript key as
 * parameters; the demonstration uses `int`.
 */
module PrototypeDemo {
  import opened Wrappers
  import opened PyTypes
  import opened PyObjects
  import opened Subscription
  import opened WrapperProxy
  import opened PrototypeSetName

  const CheckClassName: Name := "check_class"
  const NormalName: Name := "normal"
  const CheckClassFunc := Function(CheckClassName, 1, false, false)
  const NormalFunc := Function(NormalName, 1, false, false)

  /** The prototypes whose `__set_name__` is modelled here. */
  predicate EarlyProto(proto: Proto) {
    proto == RootProto || proto == TvfindProto
  }

  /**
   * The class table while `type.__new__` builds `C`, before `__set_name__` runs:
   * 0 `typing.Generic`, 1 `C`, and 2 a subclass `class D[T](C): ...`, none of whose own
   * attributes plays a part here (`object` is not listed in any MRO; lookups fall back on its entries).
   */
  function Before(proto: Proto): World {
    [
      ClassRec(map[ClassGetitemName := ClassMethod(GenericHook, false)], [0], false, None, map[], map[]),
      ClassRec(map[CheckClassName := Acm(CheckClassFunc, proto), NormalName := ClassMethod(NormalFunc, false)], [1, 0], false, None, map[], map[]),
      ClassRec(map[], [2, 1, 0], false, None, map[], map[])
    ]
  }

  /** The table once `check_class.__set_name__(C, "check_class")` has run. */
  function After(proto: Proto): (w: World)
    ensures WellFormed(w) && |w| == 3
  {
    assert WellFormed(Before(proto));
    SetName(Before(proto), 1, proto)
  }

  /** `C` had no flag, so the hook is installed: it calls `Generic.__class_getitem__` bound to `C`. */
  lemma InstallOnC(proto: Proto)
    ensures WellFormed(Before(proto)) && !Flagged(Before(proto), 1)
    ensures After(proto)[1].own[ClassGetitemName] == ClassMethod(RawCgi(Some(Bound(GenericHook, Cls(1))), proto), false)
    ensures After(proto)[1].own[MarkerName] == Flag(true)
  {
    var w := Before(proto);
    assert WellFormed(w);
    assert StaticLookup(w, 1, MarkerName).None?;
    assert StaticLookup(w, 1, ClassGetitemName) == Some(ClassMethod(GenericHook, false));
  }

  /** `C[key]` is the wrapper around `C[key]`. */
  lemma SubscriptOnC(proto: Proto, key: seq<Arg>)
    ensures Subscript(After(proto), 1, key) == Ok(Wrapped(GA(GenericAlias(1, key)), proto))
  {
    InstallOnC(proto);
    RawHookIgnoresReceiver(After(proto), 1, 1, GenericHook, proto, false, key);
  }

  /** `C.check_class()` receives `C`. */
  lemma CheckClassOnC(proto: Proto)
    ensures ClassGetattr(After(proto), 1, CheckClassName) == Ok(Bound(CheckClassFunc, Cls(1)))
  {
    InstallOnC(proto);
    assert After(proto)[1].own[CheckClassName] == Acm(CheckClassFunc, proto);
  }

  /**
   * Through the wrapper, `C[key].check_class()` receives the alias `C[key]`, while
   * `C[key].normal()` receives `C`.
   */
  lemma ThroughWrapper(proto: Proto, key: seq<Arg>)
    ensures WrapperGetattr(After(proto), GA(GenericAlias(1, key)), proto, CheckClassName) == Ok(Bound(CheckClassFunc, GA(GenericAlias(1, key))))
    ensures WrapperGetattr(After(proto), GA(GenericAlias(1, key)), proto, NormalName) == Ok(Bound(NormalFunc, Cls(1)))
  {
    InstallOnC(proto);
    var w := After(proto);
    assert StaticLookup(w, 1, CheckClassName) == Some(Acm(CheckClassFunc, proto));
    assert StaticLookup(w, 1, NormalName) == Some(ClassMethod(NormalFunc, false));
  }

  /**
   * `c = C[key]()` is an instance of `C` whose `__orig_class__` is the bare alias; then
   * `c.check_class()` receives that alias in `mapytype.py` and `C` in `tvfind/mapytype.py`,
   * whose `__get__` ignores the instance, and `c.normal()` receives `C` in both.
   */
  lemma OnInstance(proto: Proto, key: seq<Arg>)
    requires EarlyProto(proto)
    ensures var ga := GA(GenericAlias(1, key));
      var c := PyObjects.Instance(1, Some(ga));
      && CallTarget(Wrapped(ga, proto)) == Ok(Inst(c))
      && InstanceGetattr(After(proto), c, CheckClassName) == Ok(Bound(CheckClassFunc, if proto == RootProto then ga else Cls(1)))
      && InstanceGetattr(After(proto), c, NormalName) == Ok(Bound(NormalFunc, Cls(1)))
  {
    InstallOnC(proto);
    var w := After(proto);
    assert StaticLookup(w, 1, CheckClassName) == Some(Acm(CheckClassFunc, proto));
    assert StaticLookup(w, 1, NormalName) == Some(ClassMethod(NormalFunc, false));
  }

  /** `D` inherits `C`'s flag, so a further `__set_name__` on `D` would change nothing. */
  lemma SubclassNotReinstalled(proto: Proto, proto2: Proto)
    ensures Flagged(After(proto), 2) && SetName(After(proto), 2, proto2) == After(proto)
  {
    var w := Before(proto);
    InstallOnC(proto);
    assert StaticLookup(w, 2, MarkerName).None?;
    assert 1 in w[2].mro;
    FlagInherited(w, 1, 2, proto, proto2);
  }

  /**
   * As written, `D[key]` wraps `C[key]`: the inherited hook calls the hook bound to `C` and
   * never sees `D`.
   */
  lemma SubclassSubscriptAsWritten(proto: Proto, key: seq<Arg>)
    ensures Subscript(After(proto), 2, key) == Ok(Wrapped(GA(GenericAlias(1, key)), proto))
  {
    InstallOnC(proto);
    var w := After(proto);
    assert MroLookup(w, 2, ClassGetitemName) == Some(ClassMethod(RawCgi(Some(Bound(GenericHook, Cls(1))), proto), false));
    RawHookIgnoresReceiver(w, 2, 1, GenericHook, proto, false, key);
  }

  /** With the corrected hook, `D[key]` wraps `D[key]`. */
  lemma SubclassSubscriptFixed(proto: Proto, key: seq<Arg>)
    ensures WellFormed(Before(proto))
    ensures Subscript(FixedSetName(Before(proto), 1, proto), 2, key) == Ok(Wrapped(GA(GenericAlias(2, key)), proto))
  {
    InstallOnC(proto);
    var w := FixedSetName(Before(proto), 1, proto);
    assert w[1].own[ClassGetitemName] == ClassMethod(FixedRawCgi(Some(Bound(GenericHook, Cls(1))), proto), false);
    assert MroLookup(w, 2, ClassGetitemName) == Some(ClassMethod(FixedRawCgi(Some(Bound(GenericHook, Cls(1))), proto), false));
    FixedHookUsesReceiver(w, 2, 1, proto, false, key);
  }
}
