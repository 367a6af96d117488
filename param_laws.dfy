/**
 * Consequences of the resolution model that the repository's tests exercise: resolving an
 * alias or a bare class against its own class.
 */
module ParamLaws {
  import opened Wrappers
  import opened PyTypes
  import opened ParamGraph
  import opened ParamFind
  import opened AliasFind
  import opened ParamResolve

  /** What a slot's own type variable resolves to: its default if truthy, else (with the flag) its bound, else `None`. */
  function OwnValue(tv: TypeVar, boundFallback: bool): (v: Value)
    ensures Truthy(tv.default) ==> v == tv.default
    ensures !Truthy(tv.default) && boundFallback ==> v == tv.bound
    ensures !Truthy(tv.default) && !boundFallback ==> v == PyNone
  {
    if Truthy(tv.default) then tv.default else if boundFallback && Truthy(tv.bound) then tv.bound else PyNone
  }

  /** The alias's own parameter nodes are all homed at the target, each at its own index. */
  ghost predicate SelfHomed(g: GenericAliasNode, target: ClassId) {
    forall j :: 0 <= j < |g.orig.typevars| ==>
      g.orig.typevars[j].home == target && g.orig.typevars[j].homeIdx == j
  }

  /** Searching for the alias's own class: each slot finds itself with an empty chain, and nothing else. */
  lemma {:induction false} RootSelf(g: GenericAliasNode, target: ClassId, i: nat)
    requires SelfHomed(g, target) && i <= |g.orig.typevars|
    ensures |RootHits(g, target, i)| == |g.orig.typevars| - i
    ensures forall k :: 0 <= k < |RootHits(g, target, i)| ==> RootHits(g, target, i)[k] == Hit([], i + k)
    ensures forall j :: j in RootMap(g, target, i) <==> i <= j < |g.orig.typevars|
    ensures forall j :: i <= j < |g.orig.typevars| ==> RootMap(g, target, i)[j] == TracePath(g, j, [])
    decreases |g.orig.typevars| - i
  {
    if i < |g.orig.typevars| {
      RootSelf(g, target, i + 1);
      var n := g.orig.typevars[i];
      assert Hits(n, target) == [Hit([], i)];
      assert [Hit([], i)][1..] == [];
      assert Extend(TracePath(g, i, []), []) == TracePath(g, i, []);
      assert HitMap([Hit([], i)], TracePath(g, i, [])) == map[i := TracePath(g, i, [])] + map[];
      var rest := RootHits(g, target, i + 1);
      forall k | 0 <= k < |RootHits(g, target, i)| ensures RootHits(g, target, i)[k] == Hit([], i + k) {
        if k > 0 {
          assert RootHits(g, target, i)[k] == rest[k - 1];
        }
      }
    }
  }

  /** An alias searched for its own class reaches every slot through its own node. */
  lemma SelfSearch(t: Table, g: GenericAliasNode, target: ClassId)
    requires target < |t| && SelfHomed(g, target) && |g.orig.typevars| == NumTypevars(t, target)
    ensures FindFromAlias(t, g, target).Ok? && |FindFromAlias(t, g, target).value| == NumTypevars(t, target)
    ensures forall j :: j in FindFromAlias(t, g, target).value <==> 0 <= j < NumTypevars(t, target)
    ensures forall j :: 0 <= j < NumTypevars(t, target) ==> FindFromAlias(t, g, target).value[j] == TracePath(g, j, [])
  {
    RootSelf(g, target, 0);
    var hs := RootHits(g, target, 0);
    assert DistinctIdx(hs) by {
      forall a, b | 0 <= a < b < |hs| ensures hs[a].idx != hs[b].idx {
        assert hs[a] == Hit([], a) && hs[b] == Hit([], b);
      }
    }
    var m := RootMap(g, target, 0);
    assert m.Keys == Range(NumTypevars(t, target));
    RangeCard(NumTypevars(t, target));
    assert |m| == |m.Keys|;
    SaturatedSkipsBases(t, g, target);
  }

  /** Resolving an alias node against its own class: entry `i` is the value of slot `i`'s own one-node path. */
  lemma SelfValues(t: Table, g: GenericAliasNode, target: ClassId, boundFallback: bool)
    requires target < |t| && GAOk(t, g) && SelfHomed(g, target) && |g.orig.typevars| == NumTypevars(t, target)
    ensures var r := ResolvedTypevars(t, g, target, boundFallback);
      && r.Ok? && |r.value| == NumTypevars(t, target)
      && forall i :: 0 <= i < |r.value| ==>
           Resolvable(TracePath(g, i, [])) && r.value[i] == ResolvedValue(TracePath(g, i, []), boundFallback)
  {
    SelfSearch(t, g, target);
    ResolvedEntries(t, g, target, boundFallback);
    var s := FindFromAlias(t, g, target).value;
    var r := ResolvedTypevars(t, g, target, boundFallback).value;
    forall i | 0 <= i < |r|
      ensures Resolvable(TracePath(g, i, [])) && r[i] == ResolvedValue(TracePath(g, i, []), boundFallback)
    {
      assert s[i] == TracePath(g, i, []);
    }
  }

  /** The value of a one-node path: the alias argument unless it is `None`, else the node's own value. */
  lemma OneNodeValue(g: GenericAliasNode, i: nat, boundFallback: bool)
    requires Resolvable(TracePath(g, i, []))
    ensures var n := g.orig.typevars[i];
      ResolvedValue(TracePath(g, i, []), boundFallback) ==
        if g.ga.Some? && ArgsOf(g.ga.value)[i] != Concrete(PyNone) then ArgValue(ArgsOf(g.ga.value)[i])
        else OwnValue(TypeVar(n.typevar.name, n.default, n.bound), boundFallback)
  {
    assert TypevarSequence(TracePath(g, i, [])) == Some([g.orig.typevars[i]]);
  }

  /**
   * Resolving `D[args]` against `D` itself gives back the arguments, except that a `None`
   * argument falls back to the parameter's own default (and, with the flag, its bound).
   */
  lemma AliasSelfResolution(t: Table, d: ClassId, args: seq<Arg>, boundFallback: bool)
    requires ValidTable(t) && d < |t| && |args| == NumTypevars(t, d)
    ensures var r := ResolvedForBase(t, Alias(d, args), d, boundFallback);
      && r.Ok? && |r.value| == NumTypevars(t, d)
      && forall i :: 0 <= i < |r.value| ==>
           r.value[i] == if args[i] != Concrete(PyNone) then ArgValue(args[i]) else OwnValue(t[d].params[i], boundFallback)
  {
    var f := Alias(d, args);
    MakeGAOk(t, f);
    var g := MakeGA(t, f);
    SelfValues(t, g, d, boundFallback);
    forall i | 0 <= i < NumTypevars(t, d) ensures ResolvedValue(TracePath(g, i, []), boundFallback) ==
      if args[i] != Concrete(PyNone) then ArgValue(args[i]) else OwnValue(t[d].params[i], boundFallback)
    {
      OneNodeValue(g, i, boundFallback);
    }
  }

  /**
   * Resolving a bare class against itself gives each parameter's own value; an unspecialised
   * class whose parameters have no default therefore resolves to `NoDefault` throughout.
   */
  lemma PlainSelfResolution(t: Table, d: ClassId, boundFallback: bool)
    requires ValidTable(t) && d < |t|
    ensures var r := ResolvedForBase(t, Plain(d), d, boundFallback);
      && r.Ok? && |r.value| == NumTypevars(t, d)
      && forall i :: 0 <= i < |r.value| ==> r.value[i] == OwnValue(t[d].params[i], boundFallback)
  {
    var f := Plain(d);
    MakeGAOk(t, f);
    var g := MakeGA(t, f);
    SelfValues(t, g, d, boundFallback);
    forall i | 0 <= i < NumTypevars(t, d)
      ensures ResolvedValue(TracePath(g, i, []), boundFallback) == OwnValue(t[d].params[i], boundFallback)
    {
      OneNodeValue(g, i, boundFallback);
    }
  }
}
