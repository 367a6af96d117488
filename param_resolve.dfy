/**
 * Turning the trace paths of `src/paramsight/paramsight.py` into values:
 * `TypeVarTracePath.resolve_to_value`, `GenericAliasNode.get_resolved_typevars_for_base`
 * and the two module-level entry points.
 */
module ParamResolve {
  import opened Wrappers
  import opened PyTypes
  import opened ParamGraph
  import opened ParamFind
  import opened AliasFind

  /** A path whose node sequence exists and whose root argument (for an alias root) exists. */
  ghost predicate Resolvable(p: TracePath) {
    && TypevarSequence(p).Some?
    && (p.root.ga.Some? ==> p.rootIdx < |ArgsOf(p.root.ga.value)|)
  }

  /** `_get_typevar_default` for a type-variable argument; the value itself otherwise. */
  function ArgValue(a: Arg): Value {
    match a
    case TypeVarRef(tv) => tv.default
    case Concrete(v) => v
  }

  /** The first truthy bound along a node sequence, or `None`. */
  function FirstTruthyBound(nodes: seq<TypeVarNode>): (r: Value)
    ensures r.PyNone? <==> forall j :: 0 <= j < |nodes| ==> !Truthy(nodes[j].bound)
    ensures !r.PyNone? ==>
      exists j :: 0 <= j < |nodes| && nodes[j].bound == r && forall i :: 0 <= i < j ==> !Truthy(nodes[i].bound)
  {
    if nodes == [] then PyNone
    else if Truthy(nodes[0].bound) then nodes[0].bound
    else
      var r := FirstTruthyBound(nodes[1..]);
      assert !r.PyNone? ==> exists j :: 1 <= j < |nodes| && nodes[j].bound == r && forall i :: 0 <= i < j ==> !Truthy(nodes[i].bound) by {
        if !r.PyNone? {
          var j :| 0 <= j < |nodes[1..]| && nodes[1..][j].bound == r && forall i :: 0 <= i < j ==> !Truthy(nodes[1..][i].bound);
          assert nodes[j + 1].bound == r;
          forall i | 0 <= i < j + 1 ensures !Truthy(nodes[i].bound) {
            if i > 0 {
              assert nodes[i] == nodes[1..][i - 1];
            }
          }
        }
      }
      assert r.PyNone? ==> forall j :: 0 <= j < |nodes| ==> !Truthy(nodes[j].bound) by {
        if r.PyNone? {
          forall j | 0 <= j < |nodes| ensures !Truthy(nodes[j].bound) {
            if j > 0 {
              assert nodes[j] == nodes[1..][j - 1];
            }
          }
        }
      }
      r
  }

  /** `resolve_to_value` as a function. */
  function ResolvedValue(p: TracePath, boundFallback: bool): Value
    requires Resolvable(p)
  {
    if p.root.ga.Some? && ArgsOf(p.root.ga.value)[p.rootIdx] != Concrete(PyNone) then
      ArgValue(ArgsOf(p.root.ga.value)[p.rootIdx])
    else
      var nodes := TypevarSequence(p).value;
      if Truthy(nodes[0].default) then nodes[0].default
      else if boundFallback then FirstTruthyBound(nodes)
      else PyNone
  }

  /**
   * The precedence `resolve_to_value` follows: an argument the root alias supplies (other
   * than `None`) wins; else the default of the root slot's own type variable, when truthy;
   * else, with the fallback flag, the first truthy bound met along the path; else `None`.
   */
  lemma ResolvedValuePrecedence(p: TracePath, boundFallback: bool)
    requires Resolvable(p)
    ensures var v := ResolvedValue(p, boundFallback);
      var nodes := TypevarSequence(p).value;
      var supplied := p.root.ga.Some? && ArgsOf(p.root.ga.value)[p.rootIdx] != Concrete(PyNone);
      && (supplied ==> v == ArgValue(ArgsOf(p.root.ga.value)[p.rootIdx]))
      && (!supplied && Truthy(nodes[0].default) ==> v == nodes[0].default)
      && (!supplied && !Truthy(nodes[0].default) && !boundFallback ==> v == PyNone)
      && (!supplied && !Truthy(nodes[0].default) && boundFallback ==>
            && (v.PyNone? <==> forall j :: 0 <= j < |nodes| ==> !Truthy(nodes[j].bound))
            && (!v.PyNone? ==> exists j :: 0 <= j < |nodes| && nodes[j].bound == v
                                 && forall i :: 0 <= i < j ==> !Truthy(nodes[i].bound)))
  {
  }

  /** `resolve_to_value`: the alias-argument test, the default test and the loop over bounds. */
  method ResolveToValue(p: TracePath, boundFallback: bool) returns (v: Value)
    requires Resolvable(p)
    ensures v == ResolvedValue(p, boundFallback)
  {
    if p.root.ga.Some? {
      var arg := ArgsOf(p.root.ga.value)[p.rootIdx];
      if arg != Concrete(PyNone) {
        if arg.TypeVarRef? {
          return arg.tv.default;
        }
        return arg.v;
      }
    }
    var nodes := GetTypevarSequence(p);
    var node := nodes.value[0];
    if Truthy(node.default) {
      return node.default;
    }
    assert ResolvedValue(p, boundFallback) == if boundFallback then FirstTruthyBound(nodes.value) else PyNone;
    if boundFallback {
      var i := 0;
      while i < |nodes.value|
        invariant 0 <= i <= |nodes.value|
        invariant FirstTruthyBound(nodes.value) == FirstTruthyBound(nodes.value[i..])
      {
        if Truthy(nodes.value[i].bound) {
          return nodes.value[i].bound;
        }
        assert nodes.value[i..][1..] == nodes.value[i + 1..];
        i := i + 1;
      }
    }
    return PyNone;
  }

  // ---------------------------------------------------------------------------
  // get_resolved_typevars_for_base
  // ---------------------------------------------------------------------------

  /** The indices `0 .. n - 1`. */
  function Range(n: nat): (r: set<nat>)
    ensures forall i: int :: i in r <==> 0 <= i < n
  {
    if n == 0 then {} else Range(n - 1) + {n - 1}
  }

  lemma {:induction false} RangeCard(n: nat)
    ensures |Range(n)| == n
  {
    if n > 0 {
      RangeCard(n - 1);
    }
  }

  /** Keys below `n`: there are at most `n` of them, and exactly `n` only when all are present. */
  lemma KeysBelow(keys: set<nat>, n: nat)
    requires forall x :: x in keys ==> x < n
    ensures |keys| <= n
    ensures |keys| == n ==> forall i :: 0 <= i < n ==> i in keys
  {
    RangeCard(n);
    assert keys <= Range(n);
    assert |Range(n) - keys| == n - |keys|;
    if |keys| == n {
      assert Range(n) - keys == {};
      forall i | 0 <= i < n ensures i in keys {
        assert i in Range(n);
      }
    }
  }

  lemma ReachesResolvable(t: Table, p: TracePath, target: ClassId, x: nat)
    requires Reaches(t, p, target, x)
    ensures Resolvable(p)
    ensures x < NumTypevars(t, target)
  {
  }

  /** When the search finds as many slots as the target has parameters, it found every one of them. */
  lemma CompleteSearch(t: Table, g: GenericAliasNode, target: ClassId)
    requires target < |t| && GAOk(t, g)
    requires FindFromAlias(t, g, target).Ok?
    requires |FindFromAlias(t, g, target).value| == NumTypevars(t, target)
    ensures var search := FindFromAlias(t, g, target).value;
      forall i :: 0 <= i < NumTypevars(t, target) ==> i in search && Reaches(t, search[i], target, i)
  {
    var search := FindFromAlias(t, g, target).value;
    FindFromAliasKeys(t, g, target);
    KeysBelow(search.Keys, NumTypevars(t, target));
    forall i | 0 <= i < NumTypevars(t, target) ensures Reaches(t, search[i], target, i) {
      FindFromAliasSound(t, g, target, i);
    }
  }

  /** `GenericAliasNode.get_resolved_typevars_for_base` as a function. */
  function ResolvedTypevars(t: Table, g: GenericAliasNode, target: ClassId, boundFallback: bool)
    : Result<seq<Value>, ResolveError>
    requires target < |t| && GAOk(t, g)
  {
    var num := NumTypevars(t, target);
    match FindFromAlias(t, g, target)
    case Err(e) => Err(e)
    case Ok(search) =>
      if |search| != num then Err(MissingTypevars(|search|, num))
      else
        CompleteSearch(t, g, target);
        assert forall i :: 0 <= i < num ==> Resolvable(search[i]) by {
          forall i | 0 <= i < num ensures Resolvable(search[i]) {
            ReachesResolvable(t, search[i], target, i);
          }
        }
        Ok(seq(num, i requires 0 <= i < num => ResolvedValue(search[i], boundFallback)))
  }

  /**
   * The resolved tuple exists exactly when the search succeeds and reaches every parameter
   * of the target; it then has one entry per parameter, entry `i` being the value of a path
   * that really ends at parameter `i`. A `MissingTypevars` error always reports fewer slots
   * found than expected.
   */
  lemma ResolvedTypevarsChar(t: Table, g: GenericAliasNode, target: ClassId, boundFallback: bool)
    requires target < |t| && GAOk(t, g)
    ensures var r := ResolvedTypevars(t, g, target, boundFallback);
      var s := FindFromAlias(t, g, target);
      && (r.Ok? <==> s.Ok? && forall i :: 0 <= i < NumTypevars(t, target) ==> i in s.value)
      && (r.Ok? ==>
            && |r.value| == NumTypevars(t, target)
            && forall i :: 0 <= i < |r.value| ==>
                 Reaches(t, s.value[i], target, i) && r.value[i] == ResolvedValue(s.value[i], boundFallback))
      && (s.Ok? && |s.value| != NumTypevars(t, target) ==>
            r == Err(MissingTypevars(|s.value|, NumTypevars(t, target))) && |s.value| < NumTypevars(t, target))
      && (s.Err? ==> r == Err(s.error))
  {
    var num := NumTypevars(t, target);
    var s := FindFromAlias(t, g, target);
    if s.Ok? {
      FindFromAliasKeys(t, g, target);
      KeysBelow(s.value.Keys, num);
      assert |s.value.Keys| == |s.value|;
      if |s.value| == num {
        CompleteSearch(t, g, target);
      } else {
        AllKeysCount(s.value.Keys, num);
      }
    }
  }

  /** If every index below `n` is a key and every key is below `n`, there are exactly `n` keys. */
  lemma AllKeysCount(keys: set<nat>, n: nat)
    requires forall x :: x in keys ==> x < n
    ensures (forall i :: 0 <= i < n ==> i in keys) ==> |keys| == n
  {
    if forall i :: 0 <= i < n ==> i in keys {
      assert keys == Range(n);
      RangeCard(n);
    }
  }

  /** A complete search: its entries can be resolved, and the tuple holds their values in order. */
  lemma ResolvedEntries(t: Table, g: GenericAliasNode, target: ClassId, boundFallback: bool)
    requires target < |t| && GAOk(t, g)
    requires FindFromAlias(t, g, target).Ok? && |FindFromAlias(t, g, target).value| == NumTypevars(t, target)
    ensures var s := FindFromAlias(t, g, target).value;
      var r := ResolvedTypevars(t, g, target, boundFallback);
      && (forall i :: 0 <= i < NumTypevars(t, target) ==> i in s && Resolvable(s[i]))
      && r.Ok? && |r.value| == NumTypevars(t, target)
      && forall i :: 0 <= i < NumTypevars(t, target) ==> r.value[i] == ResolvedValue(s[i], boundFallback)
  {
    var s := FindFromAlias(t, g, target).value;
    CompleteSearch(t, g, target);
    forall i | 0 <= i < NumTypevars(t, target) ensures Resolvable(s[i]) {
      ReachesResolvable(t, s[i], target, i);
    }
  }

  /** `GenericAliasNode.get_resolved_typevars_for_base`: the search, the count check, the loop. */
  method GetResolvedTypevarsForBase(t: Table, g: GenericAliasNode, target: ClassId, boundFallback: bool)
    returns (r: Result<seq<Value>, ResolveError>)
    requires target < |t| && GAOk(t, g)
    ensures r == ResolvedTypevars(t, g, target, boundFallback)
  {
    var num := NumTypevars(t, target);
    var search := FindTypeGA(t, g, target);
    if search.Err? {
      return Err(search.error);
    }
    if |search.value| != num {
      return Err(MissingTypevars(|search.value|, num));
    }
    ResolvedEntries(t, g, target, boundFallback);
    var values := ResolveEach(search.value, num, boundFallback);
    assert values == ResolvedTypevars(t, g, target, boundFallback).value;
    return Ok(values);
  }

  /** The tuple comprehension: `resolve_to_value` of the paths filed under `0 .. num - 1`, in order. */
  method ResolveEach(search: Found, num: nat, boundFallback: bool) returns (values: seq<Value>)
    requires forall i :: 0 <= i < num ==> i in search && Resolvable(search[i])
    ensures |values| == num
    ensures forall i :: 0 <= i < num ==> values[i] == ResolvedValue(search[i], boundFallback)
  {
    values := [];
    for i := 0 to num
      invariant |values| == i
      invariant forall j :: 0 <= j < i ==> values[j] == ResolvedValue(search[j], boundFallback)
    {
      var v := ResolveToValue(search[i], boundFallback);
      values := values + [v];
    }
  }

  // ---------------------------------------------------------------------------
  // Module-level entry points
  // ---------------------------------------------------------------------------

  /** Module-level `get_resolved_typevars_for_base` as a function: build the alias tree of `cls`, then resolve. */
  function ResolvedForBase(t: Table, cls: TypeForm, target: ClassId, boundFallback: bool)
    : Result<seq<Value>, ResolveError>
    requires ValidTable(t) && ValidForm(t, cls, |t|) && target < |t|
  {
    MakeGAOk(t, cls);
    ResolvedTypevars(t, MakeGA(t, cls), target, boundFallback)
  }

  /** Module-level `get_resolved_typevars_for_base`. */
  method ResolveForBase(t: Table, cls: TypeForm, target: ClassId, boundFallback: bool)
    returns (r: Result<seq<Value>, ResolveError>)
    requires ValidTable(t) && ValidForm(t, cls, |t|) && target < |t|
    ensures r == ResolvedForBase(t, cls, target, boundFallback)
  {
    MakeGAOk(t, cls);
    var ga := MakeGA(t, cls);
    r := GetResolvedTypevarsForBase(t, ga, target, boundFallback);
  }

  /** An instance: its class, and the `__orig_class__` that `typing` set if it was built through an alias. */
  datatype Instance = Instance(cls: ClassId, origClass: Option<TypeForm>)

  /** The type form `get_resolved_typevars_for_base_inst` resolves against. */
  function InstanceForm(inst: Instance): (f: TypeForm)
    ensures inst.origClass.Some? ==> f == inst.origClass.value
    ensures inst.origClass.None? ==> f == Plain(inst.cls)
  {
    match inst.origClass
    case Some(oc) => oc
    case None => Plain(inst.cls)
  }

  /** Module-level `get_resolved_typevars_for_base_inst`: `__orig_class__` if present, else `__class__`. */
  method ResolveForInstance(t: Table, inst: Instance, target: ClassId, boundFallback: bool)
    returns (r: Result<seq<Value>, ResolveError>)
    requires ValidTable(t) && ValidForm(t, InstanceForm(inst), |t|) && target < |t|
    ensures r == ResolvedForBase(t, InstanceForm(inst), target, boundFallback)
  {
    var cls := if inst.origClass.Some? then inst.origClass.value else Plain(inst.cls);
    r := ResolveForBase(t, cls, target, boundFallback);
  }
}
