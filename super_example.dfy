/**
 * The override chain of tests/test_typevar_resolution_hypothesis.py, end to end:
 * `CheckPlainSuper[t].check()` overrides `CheckTVCls.check` and calls `super().check()`, and
 * the inherited method still receives the proxy for `CheckPlainSuper[t]`, which resolves
 * against `CheckTVCls` to `(t,)`. Class ids agree with `ParamExamples.Tests`.
 */
module SuperExample {
  import opened Wrappers
  import opened PyTypes
  import opened PyObjects
  import opened GAProxy
  import opened AliasSuper
  import opened ParamResolve
  import opened ParamExamples

  const CheckName: Name := "check"

  /** The function objects of `CheckTVCls.check` and `CheckPlainSuper.check`, as `takes_alias` leaves them. */
  const CheckTVFunc := Function(CheckName, 1, false, true)
  const CheckSuperFunc := Function(CheckName, 4, false, true)

  function PlainClass(own: map<Name, Obj>, mro: seq<ClassId>): ClassRec {
    ClassRec(own, mro, false, None, map[], map[])
  }

  /**
   * 0 `typing.Generic`, 1 `CheckTVCls`, 2 `CheckPlain`, 3 `CheckPlain2`, 4 `CheckPlainSuper`,
   * each with the `__dict__` entries the chain uses (`object` is not listed in any MRO; lookups fall back on its entries).
   */
  const Classes: World := [
    PlainClass(map[ClassGetitemName := ClassMethod(GenericHook, false)], [0]),
    PlainClass(map[CheckName := TakesAlias(CheckTVFunc)], [1, 0]),
    PlainClass(map[], [2, 1, 0]),
    PlainClass(map[], [3, 2, 1, 0]),
    PlainClass(map[CheckName := TakesAlias(CheckSuperFunc)], [4, 1, 0])
  ]

  /** The frame of `CheckPlainSuper.check(cls, arg=2)` called with receiver `cls`. */
  function CheckFrame(cls: Target): Frame {
    Frame(["cls", "arg"], map["cls" := cls, "arg" := Inst(PyObjects.Instance(0, None)), ClassCellName := Cls(4)])
  }

  lemma ClassesWellFormed()
    ensures WellFormed(Classes)
  {
  }

  /** The proxy for `CheckPlainSuper[t]`. */
  function SuperProxy(x: Value): AliasObj {
    GenericAlias(4, [Concrete(x)])
  }

  /** `CheckPlainSuper[t].check` is the override bound to the proxy. */
  lemma ProxyFindsOverride(x: Value)
    ensures WellFormed(Classes)
    ensures ProxyAttribute(Classes, SuperProxy(x), CheckName) == Ok(Bound(CheckSuperFunc, Proxy(SuperProxy(x))))
  {
    assert CheckName in Classes[4].own;
    assert StaticLookup(Classes, 4, CheckName) == Some(TakesAlias(CheckSuperFunc));
    assert CheckName !in GaFields;
  }

  /** `super()` inside the override, called on the proxy, is a `wsuper` over `CheckPlainSuper`. */
  lemma SuperInOverride(x: Value)
    ensures WellFormed(Classes)
    ensures Super(Classes, None, None, Some(CheckFrame(Proxy(SuperProxy(x))))) == Ok(Wrapper(WSuper(SuperObj(4, 4, None), Proxy(SuperProxy(x)))))
  {
    var f := CheckFrame(Proxy(SuperProxy(x)));
    assert f.locals[f.varnames[0]] == Proxy(SuperProxy(x));
    assert f.locals[ClassCellName] == Cls(4);
    assert 4 in Classes[4].mro;
  }

  /** `super().check` through that `wsuper` is `CheckTVCls.check` bound to the same proxy. */
  lemma WSuperFindsParent(x: Value)
    ensures WellFormed(Classes)
    ensures WSuperGetattr(Classes, WSuper(SuperObj(4, 4, None), Proxy(SuperProxy(x))), CheckName) == Ok(Bound(CheckTVFunc, Proxy(SuperProxy(x))))
  {
    assert IndexOf([4, 1, 0], 4) == Some(0);
    assert Defining(Classes, [4, 1, 0], CheckName, 1) == Some(1);
  }

  /**
   * `CheckPlainSuper[t].check()`: the override is bound to the proxy, `super()` inside it is a
   * `wsuper` whose `check` is `CheckTVCls.check` bound to the same proxy, and that method's
   * `get_resolved_typevars_for_base(cls, CheckTVCls)` gives `(t,)`.
   */
  lemma OverrideChainKeepsAlias(x: Value, flag: bool)
    requires x != PyNone
    ensures WellFormed(Classes)
    ensures var p := SuperProxy(x);
      && ProxyAttribute(Classes, p, CheckName) == Ok(Bound(CheckSuperFunc, Proxy(p)))
      && Super(Classes, None, None, Some(CheckFrame(Proxy(p)))) == Ok(Wrapper(WSuper(SuperObj(4, 4, None), Proxy(p))))
      && WSuperGetattr(Classes, WSuper(SuperObj(4, 4, None), Proxy(p)), CheckName) == Ok(Bound(CheckTVFunc, Proxy(p)))
      && ValidTable(Tests)
      && ResolvedForBase(Tests, Alias(p.origin, p.args), 1, flag) == Ok([x])
  {
    ProxyFindsOverride(x);
    SuperInOverride(x);
    WSuperFindsParent(x);
    PlainSuperRoutes(x, flag);
  }

  /**
   * The same call made with the builtin `super` and the bare class loses the alias:
   * `CheckTVCls.check` is bound to the class `CheckPlainSuper` itself.
   */
  lemma BuiltinSuperLosesAlias()
    ensures WellFormed(Classes)
    ensures Super(Classes, None, None, Some(CheckFrame(Cls(4)))) == Ok(Builtin(SuperObj(4, 4, None)))
    ensures SuperGetattr(Classes, SuperObj(4, 4, None), CheckName) == Ok(Bound(CheckTVFunc, Cls(4)))
  {
    assert Defining(Classes, [4, 1, 0], CheckName, 1) == Some(1);
    var f := CheckFrame(Cls(4));
    assert f.locals[f.varnames[0]] == Cls(4);
    assert f.locals[ClassCellName] == Cls(4);
    assert 4 in Classes[4].mro;
  }
}
