/**
 * The class hierarchy of tests/test_typevar_resolution_hypothesis.py and
 * scripts/check_tvnode.py, written as a class table, and the resolutions those files
 * expect. Each class declared with PEP 695 parameters also lists `Generic[...]` of its
 * parameters as its last original base, as Python records it.
 */
module ParamExamples {
  import opened Wrappers
  import opened PyTypes
  import opened ParamGraph
  import opened ParamFind
  import opened AliasFind
  import opened ParamResolve

  // Each class's type parameters are distinct objects (PEP 695 scoping).
  const A := TypeVar(10, NoDefault, PyNone)
  const B := TypeVar(20, NoDefault, PyNone)
  const C1 := TypeVar(30, NoDefault, PyNone)
  const C2 := TypeVar(31, NoDefault, PyNone)
  const D := TypeVar(40, NoDefault, PyNone)
  const E1 := TypeVar(50, NoDefault, PyNone)
  const E2 := TypeVar(51, NoDefault, PyNone)
  const Str := Type(101)
  const P := TypeVar(60, Str, PyNone)
  const L := TypeVar(70, NoDefault, PyNone)

  /**
   * 0 `typing.Generic`; 1 `CheckTVCls[T]`; 2 `CheckPlain[T](CheckTVCls[T])`;
   * 3 `CheckPlain2[T1, T2](CheckPlain[T2])`; 4 `CheckPlainSuper[T](CheckTVCls[T])`;
   * 5 `CheckPlainSuperDuper_1[T1, T2](CheckPlainSuper[T1])`;
   * 6 `CheckPlainDefault[T = str](CheckTVCls[T])`;
   * 7 a diamond `Leaf[T](CheckPlain[T], CheckPlainSuper[T])` whose two routes agree.
   */
  const Tests: Table := [
    ClassInfo([], []),
    ClassInfo([A], [Alias(0, [TypeVarRef(A)])]),
    ClassInfo([B], [Alias(1, [TypeVarRef(B)]), Alias(0, [TypeVarRef(B)])]),
    ClassInfo([C1, C2], [Alias(2, [TypeVarRef(C2)]), Alias(0, [TypeVarRef(C1), TypeVarRef(C2)])]),
    ClassInfo([D], [Alias(1, [TypeVarRef(D)]), Alias(0, [TypeVarRef(D)])]),
    ClassInfo([E1, E2], [Alias(4, [TypeVarRef(E1)]), Alias(0, [TypeVarRef(E1), TypeVarRef(E2)])]),
    ClassInfo([P], [Alias(1, [TypeVarRef(P)]), Alias(0, [TypeVarRef(P)])]),
    ClassInfo([L], [Alias(2, [TypeVarRef(L)]), Alias(4, [TypeVarRef(L)]), Alias(0, [TypeVarRef(L)])])
  ]

  // The trees the builder makes for these classes.
  const T0 := TypeNode(0, [], [])
  const NA := TypeVarNode(A, NoDefault, 1, 0, [], PyNone)
  const T1 := TypeNode(1, [GenericAliasNode(Some(Alias(0, [TypeVarRef(A)])), T0)], [NA])

  /** The tree of a class `[X](CheckTVCls[X])` with parameter node `n`. */
  function OverTVCls(c: ClassId, x: TypeVar, n: TypeVarNode): TypeNode {
    TypeNode(c, [GenericAliasNode(Some(Alias(1, [TypeVarRef(x)])), T1),
                 GenericAliasNode(Some(Alias(0, [TypeVarRef(x)])), T0)], [n])
  }

  const NB := TypeVarNode(B, NoDefault, 2, 0, [NA], PyNone)
  const T2 := OverTVCls(2, B, NB)
  const ND := TypeVarNode(D, NoDefault, 4, 0, [NA], PyNone)
  const T4 := OverTVCls(4, D, ND)
  const NP := TypeVarNode(P, Str, 6, 0, [NA], PyNone)
  const T6 := OverTVCls(6, P, NP)

  const NC1 := TypeVarNode(C1, NoDefault, 3, 0, [], PyNone)
  const NC2 := TypeVarNode(C2, NoDefault, 3, 1, [NB], PyNone)
  const T3 := TypeNode(3, [GenericAliasNode(Some(Alias(2, [TypeVarRef(C2)])), T2),
                           GenericAliasNode(Some(Alias(0, [TypeVarRef(C1), TypeVarRef(C2)])), T0)], [NC1, NC2])

  const NE1 := TypeVarNode(E1, NoDefault, 5, 0, [ND], PyNone)
  const NE2 := TypeVarNode(E2, NoDefault, 5, 1, [], PyNone)
  const T5 := TypeNode(5, [GenericAliasNode(Some(Alias(4, [TypeVarRef(E1)])), T4),
                           GenericAliasNode(Some(Alias(0, [TypeVarRef(E1), TypeVarRef(E2)])), T0)], [NE1, NE2])

  const NL := TypeVarNode(L, NoDefault, 7, 0, [NB, ND], PyNone)
  const T7 := TypeNode(7, [GenericAliasNode(Some(Alias(2, [TypeVarRef(L)])), T2),
                           GenericAliasNode(Some(Alias(4, [TypeVarRef(L)])), T4),
                           GenericAliasNode(Some(Alias(0, [TypeVarRef(L)])), T0)], [NL])

  lemma TestsValid()
    ensures ValidTable(Tests)
  {
  }

  // ---------------------------------------------------------------------------
  // The builder on this table
  // ---------------------------------------------------------------------------

  /** `typing.Generic` has no parameters and no bases, so its node is empty. */
  lemma {:induction false} MakeGeneric(t: Table)
    requires ValidTable(t) && t[0] == ClassInfo([], [])
    ensures MakeType(t, 0) == T0
  {
  }

  /** A base `B[X]` of a class whose only parameter is `X` gives the one edge `(0, 0)`. */
  lemma OneEdge(x: TypeVar)
    ensures BaseEdges([x], [TypeVarRef(x)]) == [Edge(0, 0)]
  {
    assert Matches(x, [TypeVarRef(x)], 0, 1) == [];
    assert Matches(x, [TypeVarRef(x)], 0, 0) == [Edge(0, 0)];
    assert EdgesFrom([x], [TypeVarRef(x)], 1) == [];
  }

  /** A class `[X]` whose only original base is `Generic[X]`: its parameter chains nowhere. */
  lemma {:induction false} MakeRoot(t: Table, c: ClassId, x: TypeVar)
    requires ValidTable(t) && t[0] == ClassInfo([], []) && 0 < c < |t|
    requires t[c] == ClassInfo([x], [Alias(0, [TypeVarRef(x)])])
    ensures MakeType(t, c) == TypeNode(c, [GenericAliasNode(Some(Alias(0, [TypeVarRef(x)])), T0)],
                                          [TypeVarNode(x, x.default, c, 0, [], x.bound)])
  {
    MakeGeneric(t);
    OneEdge(x);
    var el := EdgesList(t, c);
    assert |el| == 1 && el[0] == [Edge(0, 0)];
    var g0 := MakeGA(t, Alias(0, [TypeVarRef(x)]));
    assert g0 == GenericAliasNode(Some(Alias(0, [TypeVarRef(x)])), T0);
    var n := MakeType(t, c);
    assert n.bases == [g0];
    assert EdgeTargets(g0, [Edge(0, 0)], 0) == [];
    assert [g0][1..] == [] && el[1..] == [];
    assert ChainsTo([g0], el, 0) == [];
  }

  /** A class `[X](B[X])` over a one-parameter class `B`: its parameter chains to `B`'s. */
  lemma {:induction false} MakeOverOne(t: Table, c: ClassId, x: TypeVar, b: ClassId)
    requires ValidTable(t) && t[0] == ClassInfo([], []) && 0 < b < c < |t| && |t[b].params| == 1
    requires t[c] == ClassInfo([x], [Alias(b, [TypeVarRef(x)]), Alias(0, [TypeVarRef(x)])])
    ensures var tb := MakeType(t, b);
      MakeType(t, c) == TypeNode(c,
        [GenericAliasNode(Some(Alias(b, [TypeVarRef(x)])), tb), GenericAliasNode(Some(Alias(0, [TypeVarRef(x)])), T0)],
        [TypeVarNode(x, x.default, c, 0, [tb.typevars[0]], x.bound)])
  {
    OverOneParts(t, c, x, b);
    var g1 := GenericAliasNode(Some(Alias(b, [TypeVarRef(x)])), MakeType(t, b));
    var g0 := GenericAliasNode(Some(Alias(0, [TypeVarRef(x)])), T0);
    var n := MakeType(t, c);
    NodeShape(t, c);
    OverOneChains(g1, g0);
    assert n.typevars[0] == TypeVarNode(x, x.default, c, 0, [g1.orig.typevars[0]], x.bound);
  }

  /** The base nodes and edge lists of `[X](B[X], Generic[X])`. */
  lemma OverOneParts(t: Table, c: ClassId, x: TypeVar, b: ClassId)
    requires ValidTable(t) && t[0] == ClassInfo([], []) && 0 < b < c < |t| && |t[b].params| == 1
    requires t[c] == ClassInfo([x], [Alias(b, [TypeVarRef(x)]), Alias(0, [TypeVarRef(x)])])
    ensures MakeType(t, c).bases ==
      [GenericAliasNode(Some(Alias(b, [TypeVarRef(x)])), MakeType(t, b)), GenericAliasNode(Some(Alias(0, [TypeVarRef(x)])), T0)]
    ensures EdgesList(t, c) == [[Edge(0, 0)], [Edge(0, 0)]]
  {
    OverOneBases(t, c, x, b);
    OneEdge(x);
    var el := EdgesList(t, c);
    assert |el| == 2 && el[0] == [Edge(0, 0)] && el[1] == [Edge(0, 0)];
  }

  lemma OverOneBases(t: Table, c: ClassId, x: TypeVar, b: ClassId)
    requires ValidTable(t) && t[0] == ClassInfo([], []) && 0 < b < c < |t| && |t[b].params| == 1
    requires t[c] == ClassInfo([x], [Alias(b, [TypeVarRef(x)]), Alias(0, [TypeVarRef(x)])])
    ensures MakeType(t, c).bases ==
      [GenericAliasNode(Some(Alias(b, [TypeVarRef(x)])), MakeType(t, b)), GenericAliasNode(Some(Alias(0, [TypeVarRef(x)])), T0)]
  {
    MakeGeneric(t);
    var n := MakeType(t, c);
    NodeShape(t, c);
    assert n.bases[0] == MakeGA(t, Alias(b, [TypeVarRef(x)])) == GenericAliasNode(Some(Alias(b, [TypeVarRef(x)])), MakeType(t, b));
    assert n.bases[1] == MakeGA(t, Alias(0, [TypeVarRef(x)])) == GenericAliasNode(Some(Alias(0, [TypeVarRef(x)])), T0);
  }

  /** In `[X](B[X], Generic[X])`, the parameter chains to `B`'s parameter alone. */
  lemma OverOneChains(g1: GenericAliasNode, g0: GenericAliasNode)
    requires g0.orig.cls == GenericId && g1.orig.cls != GenericId && |g1.orig.typevars| == 1
    ensures var es := [Edge(0, 0)];
      && EdgesInRange([g1, g0], [es, es])
      && ChainsTo([g1, g0], [es, es], 0) == [g1.orig.typevars[0]]
  {
    var es := [Edge(0, 0)];
    assert es[1..] == [];
    GenericOnlyChainsNowhere(g0, es, 0);
    assert [g1, g0][1..] == [g0] && [es, es][1..] == [es];
    assert EdgeTargets(g1, es, 0) == [g1.orig.typevars[0]];
  }

  /** The edges of a class `[X1, X2](B[Xk], Generic[X1, X2])`. */
  lemma {:induction false} PassOneEdges(t: Table, c: ClassId, x1: TypeVar, x2: TypeVar, b: ClassId, second: bool)
    requires c < |t| && x1 != x2
    requires t[c] == ClassInfo([x1, x2],
      [Alias(b, [TypeVarRef(if second then x2 else x1)]), Alias(0, [TypeVarRef(x1), TypeVarRef(x2)])])
    ensures EdgesList(t, c) == [[if second then Edge(1, 0) else Edge(0, 0)], [Edge(0, 0), Edge(1, 1)]]
  {
    var sel := if second then x2 else x1;
    var ps := [x1, x2];
    var ba := [TypeVarRef(sel)];
    assert Matches(x1, ba, 0, 1) == [] && Matches(x2, ba, 1, 1) == [];
    assert EdgesFrom(ps, ba, 2) == [];
    if second {
      assert Matches(x1, ba, 0, 0) == [];
      assert Matches(x2, ba, 1, 0) == [Edge(1, 0)];
      assert EdgesFrom(ps, ba, 1) == [Edge(1, 0)];
    } else {
      assert Matches(x1, ba, 0, 0) == [Edge(0, 0)];
      assert Matches(x2, ba, 1, 0) == [];
      assert EdgesFrom(ps, ba, 1) == [];
    }
    var ga := [TypeVarRef(x1), TypeVarRef(x2)];
    assert Matches(x1, ga, 0, 2) == [] && Matches(x2, ga, 1, 2) == [];
    assert Matches(x1, ga, 0, 1) == [];
    assert Matches(x1, ga, 0, 0) == [Edge(0, 0)];
    assert Matches(x2, ga, 1, 1) == [Edge(1, 1)];
    assert Matches(x2, ga, 1, 0) == [Edge(1, 1)];
    assert EdgesFrom(ps, ga, 2) == [];
    assert EdgesFrom(ps, ga, 1) == [Edge(1, 1)];
    assert BaseEdges(ps, ba) == [if second then Edge(1, 0) else Edge(0, 0)];
    assert BaseEdges(ps, ga) == [Edge(0, 0), Edge(1, 1)];
    var el := EdgesList(t, c);
    assert |el| == 2 && el[0] == BaseEdges(ps, ba) && el[1] == BaseEdges(ps, ga);
  }

  /** The node the builder makes for class `c`, field by field. */
  lemma {:induction false} NodeShape(t: Table, c: ClassId)
    requires ValidTable(t) && c < |t|
    ensures var n := MakeType(t, c);
      && EdgesInRange(n.bases, EdgesList(t, c))
      && (forall k :: 0 <= k < |n.bases| ==> n.bases[k] == MakeGA(t, t[c].bases[k]))
      && forall i :: 0 <= i < |n.typevars| ==>
           n.typevars[i] == TypeVarNode(t[c].params[i], t[c].params[i].default, c, i,
                                        ChainsTo(n.bases, EdgesList(t, c), i), t[c].params[i].bound)
  {
    BasesInRange(t, c, MakeType(t, c).bases);
  }

  /** Where the two parameters of `[X1, X2](B[Xk], Generic[X1, X2])` chain to, given its base nodes. */
  lemma {:induction false} PassOneChains(gb: GenericAliasNode, g0: GenericAliasNode, second: bool)
    requires g0.orig.cls == GenericId && gb.orig.cls != GenericId && |gb.orig.typevars| == 1
    ensures var el := [[if second then Edge(1, 0) else Edge(0, 0)], [Edge(0, 0), Edge(1, 1)]];
      && EdgesInRange([gb, g0], el)
      && ChainsTo([gb, g0], el, 0) == (if second then [] else [gb.orig.typevars[0]])
      && ChainsTo([gb, g0], el, 1) == (if second then [gb.orig.typevars[0]] else [])
  {
    var e := if second then Edge(1, 0) else Edge(0, 0);
    var es: seq<Edge> := [Edge(0, 0), Edge(1, 1)];
    var el := [[e], es];
    assert [gb, g0][1..] == [g0] && el[1..] == [es];
    assert [g0][1..] == [];
    GenericOnlyChainsNowhere(g0, es, 0);
    GenericOnlyChainsNowhere(g0, es, 1);
    assert EdgeTargets(gb, [e], 0) == if second then [] else [gb.orig.typevars[0]];
    assert EdgeTargets(gb, [e], 1) == if second then [gb.orig.typevars[0]] else [];
  }

  /** `typing.Generic` as the only base contributes nothing to `chains_to`. */
  lemma GenericOnlyChainsNowhere(g0: GenericAliasNode, es: seq<Edge>, i: nat)
    requires g0.orig.cls == GenericId
    ensures EdgesInRange([g0], [es]) && ChainsTo([g0], [es], i) == []
  {
    GenericTargetsEmpty(g0, es, i);
    assert [g0][1..] == [] && [es][1..] == [];
  }

  lemma {:induction false} GenericTargetsEmpty(g0: GenericAliasNode, es: seq<Edge>, i: nat)
    requires g0.orig.cls == GenericId
    ensures EdgeTargets(g0, es, i) == []
    decreases |es|
  {
    if es != [] {
      GenericTargetsEmpty(g0, es[1..], i);
    }
  }

  lemma PassOneBases(t: Table, c: ClassId, x1: TypeVar, x2: TypeVar, b: ClassId, second: bool)
    requires ValidTable(t) && t[0] == ClassInfo([], []) && 0 < b < c < |t| && |t[b].params| == 1
    requires t[c] == ClassInfo([x1, x2],
      [Alias(b, [TypeVarRef(if second then x2 else x1)]), Alias(0, [TypeVarRef(x1), TypeVarRef(x2)])])
    ensures MakeType(t, c).bases ==
      [GenericAliasNode(Some(Alias(b, [TypeVarRef(if second then x2 else x1)])), MakeType(t, b)),
       GenericAliasNode(Some(Alias(0, [TypeVarRef(x1), TypeVarRef(x2)])), T0)]
  {
    MakeGeneric(t);
    var sel := if second then x2 else x1;
    var n := MakeType(t, c);
    NodeShape(t, c);
    assert n.bases[0] == MakeGA(t, Alias(b, [TypeVarRef(sel)])) == GenericAliasNode(Some(Alias(b, [TypeVarRef(sel)])), MakeType(t, b));
    assert n.bases[1] == MakeGA(t, Alias(0, [TypeVarRef(x1), TypeVarRef(x2)])) == GenericAliasNode(Some(Alias(0, [TypeVarRef(x1), TypeVarRef(x2)])), T0);
  }

  /** A class `[X1, X2](B[Xk])` over a one-parameter class `B`: only `Xk` chains, to `B`'s parameter. */
  lemma {:induction false} MakePassOne(t: Table, c: ClassId, x1: TypeVar, x2: TypeVar, b: ClassId, second: bool)
    requires ValidTable(t) && t[0] == ClassInfo([], []) && 0 < b < c < |t| && |t[b].params| == 1 && x1 != x2
    requires t[c] == ClassInfo([x1, x2],
      [Alias(b, [TypeVarRef(if second then x2 else x1)]), Alias(0, [TypeVarRef(x1), TypeVarRef(x2)])])
    ensures var sel := if second then x2 else x1;
      var tb := MakeType(t, b);
      MakeType(t, c) == TypeNode(c,
        [GenericAliasNode(Some(Alias(b, [TypeVarRef(sel)])), tb),
         GenericAliasNode(Some(Alias(0, [TypeVarRef(x1), TypeVarRef(x2)])), T0)],
        [TypeVarNode(x1, x1.default, c, 0, if second then [] else [tb.typevars[0]], x1.bound),
         TypeVarNode(x2, x2.default, c, 1, if second then [tb.typevars[0]] else [], x2.bound)])
  {
    PassOneEdges(t, c, x1, x2, b, second);
    PassOneBases(t, c, x1, x2, b, second);
    var sel := if second then x2 else x1;
    var gb := GenericAliasNode(Some(Alias(b, [TypeVarRef(sel)])), MakeType(t, b));
    var g0 := GenericAliasNode(Some(Alias(0, [TypeVarRef(x1), TypeVarRef(x2)])), T0);
    var n := MakeType(t, c);
    NodeShape(t, c);
    PassOneChains(gb, g0, second);
    var tb := MakeType(t, b);
    assert n.typevars[0] == TypeVarNode(x1, x1.default, c, 0, if second then [] else [tb.typevars[0]], x1.bound);
    assert n.typevars[1] == TypeVarNode(x2, x2.default, c, 1, if second then [tb.typevars[0]] else [], x2.bound);
  }

  /** A class `[X](B1[X], B2[X])` over two one-parameter classes: its parameter chains to both. */
  lemma {:induction false} MakeDiamond(t: Table, c: ClassId, x: TypeVar, b1: ClassId, b2: ClassId)
    requires ValidTable(t) && t[0] == ClassInfo([], []) && 0 < b1 < c && 0 < b2 < c && c < |t|
    requires |t[b1].params| == 1 && |t[b2].params| == 1
    requires t[c] == ClassInfo([x], [Alias(b1, [TypeVarRef(x)]), Alias(b2, [TypeVarRef(x)]), Alias(0, [TypeVarRef(x)])])
    ensures var n := MakeType(t, c);
      && n.bases == [GenericAliasNode(Some(Alias(b1, [TypeVarRef(x)])), MakeType(t, b1)),
                     GenericAliasNode(Some(Alias(b2, [TypeVarRef(x)])), MakeType(t, b2)),
                     GenericAliasNode(Some(Alias(0, [TypeVarRef(x)])), T0)]
      && n.typevars == [TypeVarNode(x, x.default, c, 0, [MakeType(t, b1).typevars[0], MakeType(t, b2).typevars[0]], x.bound)]
  {
    MakeGeneric(t);
    OneEdge(x);
    var es := [Edge(0, 0)];
    var el := EdgesList(t, c);
    assert |el| == 3 && el[0] == es && el[1] == es && el[2] == es;
    assert el == [es, es, es];
    var g1 := MakeGA(t, Alias(b1, [TypeVarRef(x)]));
    var g2 := MakeGA(t, Alias(b2, [TypeVarRef(x)]));
    var g0 := MakeGA(t, Alias(0, [TypeVarRef(x)]));
    var n := MakeType(t, c);
    NodeShape(t, c);
    assert n.bases == [g1, g2, g0];
    DiamondChains(g1, g2, g0);
    assert n.typevars[0] == TypeVarNode(x, x.default, c, 0, [g1.orig.typevars[0], g2.orig.typevars[0]], x.bound);
  }

  /** In `[X](B1[X], B2[X], Generic[X])`, the parameter chains to both bases' parameters, in base order. */
  lemma DiamondChains(g1: GenericAliasNode, g2: GenericAliasNode, g0: GenericAliasNode)
    requires g0.orig.cls == GenericId && g1.orig.cls != GenericId && g2.orig.cls != GenericId
    requires |g1.orig.typevars| == 1 && |g2.orig.typevars| == 1
    ensures var es := [Edge(0, 0)];
      && EdgesInRange([g1, g2, g0], [es, es, es])
      && ChainsTo([g1, g2, g0], [es, es, es], 0) == [g1.orig.typevars[0], g2.orig.typevars[0]]
  {
    var es := [Edge(0, 0)];
    assert es[1..] == [];
    GenericOnlyChainsNowhere(g0, es, 0);
    assert [g1, g2, g0][1..] == [g2, g0] && [g2, g0][1..] == [g0];
    assert [es, es, es][1..] == [es, es] && [es, es][1..] == [es];
    assert EdgeTargets(g1, es, 0) == [g1.orig.typevars[0]];
    assert EdgeTargets(g2, es, 0) == [g2.orig.typevars[0]];
    assert ChainsTo([g2, g0], [es, es], 0) == [g2.orig.typevars[0]];
  }

  // The trees of the table's classes.

  lemma Make1()
    ensures ValidTable(Tests) && MakeType(Tests, 1) == T1
  {
    TestsValid();
    MakeRoot(Tests, 1, A);
  }

  lemma Make2()
    ensures ValidTable(Tests) && MakeType(Tests, 2) == T2
  {
    Make1();
    MakeOverOne(Tests, 2, B, 1);
  }

  lemma Make4()
    ensures ValidTable(Tests) && MakeType(Tests, 4) == T4
  {
    Make1();
    MakeOverOne(Tests, 4, D, 1);
  }

  lemma Make6()
    ensures ValidTable(Tests) && MakeType(Tests, 6) == T6
  {
    Make1();
    MakeOverOne(Tests, 6, P, 1);
  }

  lemma Make3()
    ensures ValidTable(Tests) && MakeType(Tests, 3) == T3
  {
    Make2();
    MakePassOne(Tests, 3, C1, C2, 2, true);
  }

  lemma Make5()
    ensures ValidTable(Tests) && MakeType(Tests, 5) == T5
  {
    Make4();
    MakePassOne(Tests, 5, E1, E2, 4, false);
  }

  lemma Make7()
    ensures ValidTable(Tests) && MakeType(Tests, 7) == T7
  {
    Make2();
    Make4();
    MakeDiamond(Tests, 7, L, 2, 4);
  }

  // ---------------------------------------------------------------------------
  // Hits on these trees
  // ---------------------------------------------------------------------------

  /** A node whose only child is `CheckTVCls`'s parameter reaches it through child 0. */
  lemma HitsOverTVCls(n: TypeVarNode)
    requires n.home != 1 && n.chainsTo == [NA]
    ensures Hits(n, 1) == [Hit([0], 0)]
  {
    assert Hits(NA, 1) == [Hit([], 0)];
    assert [0] + [] == [0];
    assert Prefixed(0, [Hit([], 0)]) == [Hit([0], 0)];
    assert ChildHits(n, 1, 1) == [];
  }

  /** A node whose only child is `m`, which reaches `CheckTVCls` through child 0. */
  lemma HitsTwoLevels(n: TypeVarNode, m: TypeVarNode)
    requires n.home != 1 && n.chainsTo == [m] && m.home != 1 && m.chainsTo == [NA]
    ensures Hits(n, 1) == [Hit([0, 0], 0)]
  {
    HitsOverTVCls(m);
    assert [0] + [0] == [0, 0];
    assert Prefixed(0, [Hit([0], 0)]) == [Hit([0, 0], 0)];
    assert ChildHits(n, 1, 1) == [];
  }

  /** The search from a two-slot alias whose slot `k` alone reaches `CheckTVCls` through a two-step chain. */
  lemma TwoSlotSearch(g: GenericAliasNode, k: nat)
    requires k < 2 && |g.orig.typevars| == 2
    requires Hits(g.orig.typevars[k], 1) == [Hit([0, 0], 0)] && Hits(g.orig.typevars[1 - k], 1) == []
    ensures FindFromAlias(Tests, g, 1) == Ok(map[0 := TracePath(g, k, [0, 0])])
  {
    var one := map[0 := TracePath(g, k, [0, 0])];
    assert RootHits(g, 1, 2) == [] && RootMap(g, 1, 2) == map[];
    HitMapSingle(Hit([0, 0], 0), TracePath(g, k, []));
    assert Extend(TracePath(g, k, []), [0, 0]) == TracePath(g, k, [0, 0]);
    if k == 0 {
      assert RootHits(g, 1, 1) == [];
      assert RootMap(g, 1, 1) == map[];
      assert RootHits(g, 1, 0) == [Hit([0, 0], 0)];
      assert RootMap(g, 1, 0) == one + map[];
    } else {
      assert RootHits(g, 1, 1) == [Hit([0, 0], 0)];
      assert RootMap(g, 1, 1) == one + map[];
      assert RootHits(g, 1, 0) == [Hit([0, 0], 0)];
      assert RootMap(g, 1, 0) == map[] + one;
    }
    assert RootMap(g, 1, 0) == one;
    assert NumTypevars(Tests, 1) == 1;
    SaturatedSkipsBases(Tests, g, 1);
  }

  /** A single hit gives a one-entry dictionary. */
  lemma HitMapSingle(h: Hit, p: TracePath)
    ensures HitMap([h], p) == map[h.idx := Extend(p, h.chain)]
  {
    assert [h][1..] == [];
  }

  /** Reading off a one-entry result whose only path starts at an alias argument that is a value. */
  lemma ReadSingle(t: Table, target: ClassId, g: GenericAliasNode, k: nat, chain: seq<nat>, y: Value, flag: bool)
    requires target < |t| && GAOk(t, g) && NumTypevars(t, target) == 1
    requires FindFromAlias(t, g, target) == Ok(map[0 := TracePath(g, k, chain)])
    requires g.ga.Some? && k < |ArgsOf(g.ga.value)| && ArgsOf(g.ga.value)[k] == Concrete(y) && y != PyNone
    ensures ResolvedTypevars(t, g, target, flag) == Ok([y])
  {
    ResolvedEntries(t, g, target, flag);
    var r := ResolvedTypevars(t, g, target, flag);
    assert r.value[0] == ResolvedValue(TracePath(g, k, chain), flag) == y;
    assert r.value == [y];
  }

  // ---------------------------------------------------------------------------
  // The resolutions the tests expect
  // ---------------------------------------------------------------------------

  /** `CheckPlain2[t1, t2]` resolved against `CheckTVCls` gives `(t2,)`. */
  lemma Plain2RoutesSecond(x: Value, y: Value, flag: bool)
    requires y != PyNone
    ensures ValidTable(Tests) && ResolvedForBase(Tests, Alias(3, [Concrete(x), Concrete(y)]), 1, flag) == Ok([y])
  {
    Make3();
    var f := Alias(3, [Concrete(x), Concrete(y)]);
    var g := GenericAliasNode(Some(f), T3);
    assert MakeGA(Tests, f) == g;
    HitsTwoLevels(NC2, NB);
    assert Hits(NC1, 1) == [];
    TwoSlotSearch(g, 1);
    MakeGAOk(Tests, f);
    ReadSingle(Tests, 1, g, 1, [0, 0], y, flag);
  }

  /** `CheckPlainSuperDuper_1[t1, t2]` resolved against `CheckTVCls` gives `(t1,)`. */
  lemma SuperDuper1RoutesFirst(x: Value, y: Value, flag: bool)
    requires x != PyNone
    ensures ValidTable(Tests) && ResolvedForBase(Tests, Alias(5, [Concrete(x), Concrete(y)]), 1, flag) == Ok([x])
  {
    Make5();
    var f := Alias(5, [Concrete(x), Concrete(y)]);
    var g := GenericAliasNode(Some(f), T5);
    assert MakeGA(Tests, f) == g;
    HitsTwoLevels(NE1, ND);
    assert Hits(NE2, 1) == [];
    TwoSlotSearch(g, 0);
    MakeGAOk(Tests, f);
    ReadSingle(Tests, 1, g, 0, [0, 0], x, flag);
  }

  /** `CheckPlain[t]` resolved against `CheckTVCls` gives `(t,)`. */
  lemma PlainRoutes(x: Value, flag: bool)
    requires x != PyNone
    ensures ValidTable(Tests) && ResolvedForBase(Tests, Alias(2, [Concrete(x)]), 1, flag) == Ok([x])
  {
    Make2();
    var f := Alias(2, [Concrete(x)]);
    var g := GenericAliasNode(Some(f), T2);
    OneSlotSearch(g);
    assert MakeGA(Tests, f) == g;
    MakeGAOk(Tests, f);
    ReadSingle(Tests, 1, g, 0, [0], x, flag);
  }

  /** `CheckPlainSuper[t]` resolved against `CheckTVCls` gives `(t,)`. */
  lemma PlainSuperRoutes(x: Value, flag: bool)
    requires x != PyNone
    ensures ValidTable(Tests) && ResolvedForBase(Tests, Alias(4, [Concrete(x)]), 1, flag) == Ok([x])
  {
    Make4();
    var f := Alias(4, [Concrete(x)]);
    var g := GenericAliasNode(Some(f), T4);
    OneSlotSearch(g);
    assert MakeGA(Tests, f) == g;
    MakeGAOk(Tests, f);
    ReadSingle(Tests, 1, g, 0, [0], x, flag);
  }

  /** The search from a one-slot alias over `CheckTVCls`. */
  lemma OneSlotSearch(g: GenericAliasNode)
    requires |g.orig.typevars| == 1 && g.orig.typevars[0].home != 1 && g.orig.typevars[0].chainsTo == [NA]
    ensures FindFromAlias(Tests, g, 1) == Ok(map[0 := TracePath(g, 0, [0])])
  {
    HitsOverTVCls(g.orig.typevars[0]);
    assert RootHits(g, 1, 1) == [] && RootMap(g, 1, 1) == map[];
    assert RootHits(g, 1, 0) == [Hit([0], 0)];
    assert [] + [0] == [0];
    assert Extend(TracePath(g, 0, []), [0]) == TracePath(g, 0, [0]);
    assert [Hit([0], 0)][1..] == [];
    assert HitMap([Hit([0], 0)], TracePath(g, 0, [])) == map[0 := TracePath(g, 0, [0])] + map[];
    assert RootMap(g, 1, 0) == map[0 := TracePath(g, 0, [0])];
    SaturatedSkipsBases(Tests, g, 1);
  }

  /**
   * Unspecialised `CheckPlain2` resolved against `CheckTVCls` gives `(NoDefault,)`: with no
   * alias at the root, the root slot's own default, the truthy sentinel, is returned.
   */
  lemma Plain2Unspecialised(flag: bool)
    ensures ValidTable(Tests) && ResolvedForBase(Tests, Plain(3), 1, flag) == Ok([NoDefault])
  {
    Make3();
    var g := GenericAliasNode(None, T3);
    assert MakeGA(Tests, Plain(3)) == g;
    HitsTwoLevels(NC2, NB);
    assert Hits(NC1, 1) == [];
    TwoSlotSearch(g, 1);
    MakeGAOk(Tests, Plain(3));
    ResolvedEntries(Tests, g, 1, flag);
    var r := ResolvedTypevars(Tests, g, 1, flag);
    assert TypevarSequence(TracePath(g, 1, [0, 0])).value[0] == NC2;
    assert r.value[0] == NoDefault;
    assert r.value == [NoDefault];
  }

  /** `CheckPlainDefault`, whose parameter defaults to `str`, resolves to `(str,)` unspecialised. */
  lemma DefaultUsedWhenUnspecialised(flag: bool)
    ensures ValidTable(Tests) && ResolvedForBase(Tests, Plain(6), 1, flag) == Ok([Str])
  {
    Make6();
    var g := GenericAliasNode(None, T6);
    assert MakeGA(Tests, Plain(6)) == g;
    OneSlotSearch(g);
    MakeGAOk(Tests, Plain(6));
    ResolvedEntries(Tests, g, 1, flag);
    var r := ResolvedTypevars(Tests, g, 1, flag);
    assert TypevarSequence(TracePath(g, 0, [0])).value[0] == NP;
    assert r.value[0] == Str;
    assert r.value == [Str];
  }

  /** `CheckPlainDefault[int]`: an argument supplied at the root overrides the default. */
  lemma ArgumentOverridesDefault(x: Value, flag: bool)
    requires x != PyNone
    ensures ValidTable(Tests) && ResolvedForBase(Tests, Alias(6, [Concrete(x)]), 1, flag) == Ok([x])
  {
    Make6();
    var f := Alias(6, [Concrete(x)]);
    var g := GenericAliasNode(Some(f), T6);
    OneSlotSearch(g);
    assert MakeGA(Tests, f) == g;
    MakeGAOk(Tests, f);
    ReadSingle(Tests, 1, g, 0, [0], x, flag);
  }

  /**
   * The diamond `Leaf[t]`: both routes give `CheckTVCls` the same argument, yet the search
   * raises, because two chains of the root slot reach the same slot of the target.
   */
  lemma AgreeingDiamondRaises(x: Value, flag: bool)
    ensures ValidTable(Tests) && ResolvedForBase(Tests, Alias(7, [Concrete(x)]), 1, flag) == Err(DuplicatePaths)
  {
    Make7();
    var f := Alias(7, [Concrete(x)]);
    var g := GenericAliasNode(Some(f), T7);
    assert MakeGA(Tests, f) == g;
    HitsOverTVCls(NB);
    HitsOverTVCls(ND);
    assert [0] + [0] == [0, 0] && [1] + [0] == [1, 0];
    assert Prefixed(0, [Hit([0], 0)]) == [Hit([0, 0], 0)];
    assert Prefixed(1, [Hit([0], 0)]) == [Hit([1, 0], 0)];
    assert ChildHits(NL, 1, 2) == [];
    assert ChildHits(NL, 1, 1) == [Hit([1, 0], 0)];
    assert Hits(NL, 1) == [Hit([0, 0], 0), Hit([1, 0], 0)];
    assert RootHits(g, 1, 1) == [];
    assert RootHits(g, 1, 0) == [Hit([0, 0], 0), Hit([1, 0], 0)];
    assert RootHits(g, 1, 0)[0].idx == RootHits(g, 1, 0)[1].idx;
    assert !DistinctIdx(RootHits(g, 1, 0));
    RootCollisionRaises(Tests, g, 1);
    MakeGAOk(Tests, f);
    ResolvedTypevarsChar(Tests, g, 1, flag);
  }
}
