/**
 * The parameter graph of `src/paramsight/paramsight.py`: for a class or an alias, a tree
 * of `GenericAliasNode` / `TypeNode` / `TypeVarNode` records in which each type-variable
 * node lists, in `chainsTo`, the parameter nodes of the direct bases it is passed to
 * unchanged. The Python builder shares base nodes by reference; here they are values, so a
 * node reached along two routes is two equal copies, which changes nothing for the pure
 * traversal that reads them.
 */
module ParamGraph {
  import opened Wrappers
  import opened PyTypes

  datatype TypeVarNode = TypeVarNode(
    typevar: TypeVar,
    default: Value,
    home: ClassId,
    homeIdx: nat,
    chainsTo: seq<TypeVarNode>,
    bound: Value)

  datatype TypeNode = TypeNode(cls: ClassId, bases: seq<GenericAliasNode>, typevars: seq<TypeVarNode>)

  /** `ga` is the alias the node was made from, `None` for a bare class. */
  datatype GenericAliasNode = GenericAliasNode(ga: Option<TypeForm>, orig: TypeNode)

  /** One substitution edge `(src, dst)`: parameter `src` is argument `dst` of a base. */
  datatype Edge = Edge(src: nat, dst: nat)

  // ---------------------------------------------------------------------------
  // _get_typevar_subst_edges_list
  // ---------------------------------------------------------------------------

  /** The argument positions `d >= from` at which `args` holds exactly `p`, as edges from `s`. */
  function Matches(p: TypeVar, args: seq<Arg>, s: nat, from: nat): seq<Edge>
    decreases |args| - from
  {
    if from >= |args| then []
    else (if args[from] == TypeVarRef(p) then [Edge(s, from)] else []) + Matches(p, args, s, from + 1)
  }

  /** Edges of one base for the parameters `params[s..]`, parameter-major as the comprehension. */
  function EdgesFrom(params: seq<TypeVar>, args: seq<Arg>, s: nat): seq<Edge>
    decreases |params| - s
  {
    if s >= |params| then []
    else Matches(params[s], args, s, 0) + EdgesFrom(params, args, s + 1)
  }

  /** The substitution edges of one base whose arguments are `args`. */
  function BaseEdges(params: seq<TypeVar>, args: seq<Arg>): seq<Edge> {
    EdgesFrom(params, args, 0)
  }

  /** One edge list per original base of class `c`. */
  function EdgesList(t: Table, c: ClassId): (r: seq<seq<Edge>>)
    requires c < |t|
    ensures |r| == |t[c].bases|
  {
    seq(|t[c].bases|, k requires 0 <= k < |t[c].bases| => BaseEdges(t[c].params, ArgsOf(t[c].bases[k])))
  }

  /** An edge `(s, d)` of a base means: argument `d` of that base is parameter `s` itself. */
  ghost predicate IsEdgeOf(params: seq<TypeVar>, args: seq<Arg>, e: Edge) {
    e.src < |params| && e.dst < |args| && args[e.dst] == TypeVarRef(params[e.src])
  }

  /** Lexicographic order of edges, the order in which the comprehension produces them. */
  predicate EdgeBefore(a: Edge, b: Edge) {
    a.src < b.src || (a.src == b.src && a.dst < b.dst)
  }

  ghost predicate StrictlySorted(es: seq<Edge>) {
    forall i, j :: 0 <= i < j < |es| ==> EdgeBefore(es[i], es[j])
  }

  lemma {:induction false} MatchesChar(p: TypeVar, args: seq<Arg>, s: nat, from: nat)
    ensures forall e :: e in Matches(p, args, s, from) <==>
      e.src == s && from <= e.dst < |args| && args[e.dst] == TypeVarRef(p)
    ensures forall e :: e in Matches(p, args, s, from) ==> e.src == s && from <= e.dst
    ensures StrictlySorted(Matches(p, args, s, from))
    decreases |args| - from
  {
    if from < |args| {
      MatchesChar(p, args, s, from + 1);
    }
  }

  lemma {:induction false} EdgesFromChar(params: seq<TypeVar>, args: seq<Arg>, s: nat)
    ensures forall e :: e in EdgesFrom(params, args, s) <==> s <= e.src && IsEdgeOf(params, args, e)
    ensures StrictlySorted(EdgesFrom(params, args, s))
    decreases |params| - s
  {
    if s < |params| {
      MatchesChar(params[s], args, s, 0);
      EdgesFromChar(params, args, s + 1);
      var m := Matches(params[s], args, s, 0);
      var rest := EdgesFrom(params, args, s + 1);
      assert EdgesFrom(params, args, s) == m + rest;
      forall i, j | 0 <= i < j < |m + rest|
        ensures EdgeBefore((m + rest)[i], (m + rest)[j])
      {
        if j < |m| {
        } else if i < |m| {
          assert m[i] in m && rest[j - |m|] in rest;
        } else {
        }
      }
    }
  }

  /**
   * `_get_typevar_subst_edges_list`: there is one edge list per original base; edge `(s, d)`
   * is in the list of base `k` exactly when that base's top-level argument `d` is parameter
   * `s` itself (a nested argument such as `list[T]` gives no edge), and each list is ordered
   * by parameter, then by argument position.
   */
  lemma EdgesListChar(t: Table, c: ClassId, k: nat)
    requires c < |t| && k < |t[c].bases|
    ensures |EdgesList(t, c)| == |t[c].bases|
    ensures forall e :: e in EdgesList(t, c)[k] <==> IsEdgeOf(t[c].params, ArgsOf(t[c].bases[k]), e)
    ensures StrictlySorted(EdgesList(t, c)[k])
  {
    EdgesFromChar(t[c].params, ArgsOf(t[c].bases[k]), 0);
  }

  // ---------------------------------------------------------------------------
  // GenericAliasNode.make, TypeNode.make, TypeVarNode.make_nodes
  // ---------------------------------------------------------------------------

  /** The nodes of `base` that the edges `es` with source `i` lead to; none into `typing.Generic`. */
  function EdgeTargets(base: GenericAliasNode, es: seq<Edge>, i: nat): seq<TypeVarNode>
    requires base.orig.cls != GenericId ==> forall e :: e in es ==> e.dst < |base.orig.typevars|
  {
    if es == [] then []
    else
      (if es[0].src == i && base.orig.cls != GenericId then [base.orig.typevars[es[0].dst]] else [])
      + EdgeTargets(base, es[1..], i)
  }

  /** The edges leave every base in range: a base node has one parameter node per argument slot. */
  ghost predicate EdgesInRange(bases: seq<GenericAliasNode>, edges: seq<seq<Edge>>) {
    && |bases| == |edges|
    && forall k, e :: 0 <= k < |bases| && e in edges[k] && bases[k].orig.cls != GenericId ==>
         e.dst < |bases[k].orig.typevars|
  }

  /** `chains_to` of node `i`: base by base (the strict `zip`), edge by edge. */
  function ChainsTo(bases: seq<GenericAliasNode>, edges: seq<seq<Edge>>, i: nat): seq<TypeVarNode>
    requires EdgesInRange(bases, edges)
  {
    if bases == [] then []
    else EdgeTargets(bases[0], edges[0], i) + ChainsTo(bases[1..], edges[1..], i)
  }

  /** `TypeVarNode.make_nodes`: one node per parameter of `c`, homed at `c`. */
  function MakeNodes(t: Table, c: ClassId, bases: seq<GenericAliasNode>): (r: seq<TypeVarNode>)
    requires c < |t|
    requires EdgesInRange(bases, EdgesList(t, c))
    ensures |r| == |t[c].params|
    ensures forall i :: 0 <= i < |r| ==> r[i].home == c && r[i].homeIdx == i && r[i].typevar == t[c].params[i]
    ensures forall i :: 0 <= i < |r| ==> r[i].default == t[c].params[i].default && r[i].bound == t[c].params[i].bound
  {
    var params := t[c].params;
    var edges := EdgesList(t, c);
    seq(|params|, i requires 0 <= i < |params| =>
      TypeVarNode(params[i], params[i].default, c, i, ChainsTo(bases, edges, i), params[i].bound))
  }

  /** `TypeNode.make`: the base nodes, then the parameter nodes that chain into them. */
  function MakeType(t: Table, c: ClassId): (r: TypeNode)
    requires ValidTable(t) && c < |t|
    ensures r.cls == c && |r.bases| == |t[c].bases|
    ensures forall k :: 0 <= k < |r.bases| ==> r.bases[k].orig.cls == Origin(t[c].bases[k])
    ensures |r.typevars| == |t[c].params|
    ensures forall i :: 0 <= i < |r.typevars| ==> r.typevars[i].home == c && r.typevars[i].homeIdx == i
    ensures forall i :: 0 <= i < |r.typevars| ==>
      r.typevars[i].default == t[c].params[i].default && r.typevars[i].bound == t[c].params[i].bound
    decreases c, 0
  {
    var bs := t[c].bases;
    var bases := seq(|bs|, k requires 0 <= k < |bs| => MakeGA(t, bs[k]));
    BasesInRange(t, c, bases);
    TypeNode(c, bases, MakeNodes(t, c, bases))
  }

  /** `GenericAliasNode.make`: keep the alias (if any) and build the node of its origin. */
  function MakeGA(t: Table, f: TypeForm): (r: GenericAliasNode)
    requires ValidTable(t) && Origin(f) < |t|
    ensures r.orig.cls == Origin(f) && |r.orig.typevars| == |t[Origin(f)].params|
    ensures r.ga == if f.Alias? then Some(f) else None
    decreases Origin(f), 1
  {
    match f
    case Alias(o, _) => GenericAliasNode(Some(f), MakeType(t, o))
    case Plain(c) => GenericAliasNode(None, MakeType(t, c))
  }

  /** Every edge of a non-`Generic` base lands on one of that base's parameter nodes. */
  lemma BasesInRange(t: Table, c: ClassId, bases: seq<GenericAliasNode>)
    requires ValidTable(t) && c < |t| && |bases| == |t[c].bases|
    requires forall k :: 0 <= k < |bases| ==>
      bases[k].orig.cls == Origin(t[c].bases[k]) && |bases[k].orig.typevars| == |t[Origin(t[c].bases[k])].params|
    ensures EdgesInRange(bases, EdgesList(t, c))
  {
    forall k, e | 0 <= k < |bases| && e in EdgesList(t, c)[k] && bases[k].orig.cls != GenericId
      ensures e.dst < |bases[k].orig.typevars|
    {
      EdgesListChar(t, c, k);
      assert ValidForm(t, t[c].bases[k], c);
    }
  }

  // ---------------------------------------------------------------------------
  // What the builder produces
  // ---------------------------------------------------------------------------

  lemma {:induction false} EdgeTargetsMem(base: GenericAliasNode, es: seq<Edge>, i: nat, m: TypeVarNode)
    requires base.orig.cls != GenericId ==> forall e :: e in es ==> e.dst < |base.orig.typevars|
    ensures m in EdgeTargets(base, es, i) <==>
      base.orig.cls != GenericId && exists e :: e in es && e.src == i && m == base.orig.typevars[e.dst]
  {
    if es != [] {
      EdgeTargetsMem(base, es[1..], i, m);
      if base.orig.cls != GenericId && m in EdgeTargets(base, es[1..], i) {
        var e: Edge :| e in es[1..] && e.src == i && m == base.orig.typevars[e.dst];
        assert e in es;
      }
      if base.orig.cls != GenericId && (exists e :: e in es && e.src == i && m == base.orig.typevars[e.dst]) {
        var e: Edge :| e in es && e.src == i && m == base.orig.typevars[e.dst];
        if e != es[0] {
          assert e in es[1..];
        }
      }
    }
  }

  lemma {:induction false} ChainsToMem(bases: seq<GenericAliasNode>, edges: seq<seq<Edge>>, i: nat, m: TypeVarNode)
    requires EdgesInRange(bases, edges)
    ensures m in ChainsTo(bases, edges, i) <==>
      exists k :: 0 <= k < |bases| && m in EdgeTargets(bases[k], edges[k], i)
  {
    if bases != [] {
      assert EdgesInRange(bases[1..], edges[1..]) by {
        forall k, e | 0 <= k < |bases[1..]| && e in edges[1..][k] && bases[1..][k].orig.cls != GenericId
          ensures e.dst < |bases[1..][k].orig.typevars|
        {
          assert e in edges[k + 1];
        }
      }
      ChainsToMem(bases[1..], edges[1..], i, m);
      if m in ChainsTo(bases[1..], edges[1..], i) {
        var k :| 0 <= k < |bases[1..]| && m in EdgeTargets(bases[1..][k], edges[1..][k], i);
        assert m in EdgeTargets(bases[k + 1], edges[k + 1], i);
      }
      if exists k :: 0 <= k < |bases| && m in EdgeTargets(bases[k], edges[k], i) {
        var k :| 0 <= k < |bases| && m in EdgeTargets(bases[k], edges[k], i);
        if k > 0 {
          assert m in EdgeTargets(bases[1..][k - 1], edges[1..][k - 1], i);
        }
      }
    }
  }

  /**
   * `make_nodes`: node `i` of class `c` chains to parameter node `d` of the node built for
   * base `k` exactly when that base is not `typing.Generic` and its top-level argument `d` is
   * parameter `i` of `c` passed through unchanged.
   */
  lemma ChainsToChar(t: Table, c: ClassId, i: nat, m: TypeVarNode)
    requires ValidTable(t) && c < |t| && i < |t[c].params|
    ensures var n := MakeType(t, c);
      m in n.typevars[i].chainsTo <==>
        exists k: nat, d: nat :: k < |n.bases| && n.bases[k].orig.cls != GenericId
          && IsEdgeOf(t[c].params, ArgsOf(t[c].bases[k]), Edge(i, d))
          && d < |n.bases[k].orig.typevars| && m == n.bases[k].orig.typevars[d]
  {
    var n := MakeType(t, c);
    var edges := EdgesList(t, c);
    BasesInRange(t, c, n.bases);
    assert n.typevars[i].chainsTo == ChainsTo(n.bases, edges, i);
    ChainsToMem(n.bases, edges, i, m);
    if m in n.typevars[i].chainsTo {
      var k :| 0 <= k < |n.bases| && m in EdgeTargets(n.bases[k], edges[k], i);
      EdgeTargetsMem(n.bases[k], edges[k], i, m);
      var e: Edge :| e in edges[k] && e.src == i && m == n.bases[k].orig.typevars[e.dst];
      EdgesListChar(t, c, k);
      assert IsEdgeOf(t[c].params, ArgsOf(t[c].bases[k]), Edge(i, e.dst));
    }
    if exists k: nat, d: nat :: k < |n.bases| && n.bases[k].orig.cls != GenericId
        && IsEdgeOf(t[c].params, ArgsOf(t[c].bases[k]), Edge(i, d))
        && d < |n.bases[k].orig.typevars| && m == n.bases[k].orig.typevars[d]
    {
      var k: nat, d: nat :| k < |n.bases| && n.bases[k].orig.cls != GenericId
        && IsEdgeOf(t[c].params, ArgsOf(t[c].bases[k]), Edge(i, d))
        && d < |n.bases[k].orig.typevars| && m == n.bases[k].orig.typevars[d];
      EdgesListChar(t, c, k);
      assert Edge(i, d) in edges[k];
      EdgeTargetsMem(n.bases[k], edges[k], i, m);
    }
  }

  /** A parameter node of a well-formed tree: its home slot exists, and so do its successors'. */
  ghost predicate NodeOk(t: Table, n: TypeVarNode) {
    && n.home < |t|
    && n.homeIdx < |t[n.home].params|
    && forall m :: m in n.chainsTo ==> NodeOk(t, m)
  }

  /**
   * A well-formed alias node: one parameter node per parameter of its class, at its own
   * index; an alias with at least as many arguments as parameter nodes; well-formed bases.
   */
  ghost predicate GAOk(t: Table, g: GenericAliasNode) {
    && g.orig.cls < |t|
    && |g.orig.typevars| == |t[g.orig.cls].params|
    && (forall i :: 0 <= i < |g.orig.typevars| ==>
          g.orig.typevars[i].home == g.orig.cls && g.orig.typevars[i].homeIdx == i && NodeOk(t, g.orig.typevars[i]))
    && (g.ga.Some? ==> |g.orig.typevars| <= |ArgsOf(g.ga.value)|)
    && forall b :: b in g.orig.bases ==> GAOk(t, b)
  }

  /** Every tree the builder makes from a valid type form is well formed. */
  lemma {:induction false} MakeGAOk(t: Table, f: TypeForm)
    requires ValidTable(t) && ValidForm(t, f, |t|)
    ensures GAOk(t, MakeGA(t, f))
    decreases Origin(f), 1
  {
    MakeTypeOk(t, Origin(f));
  }

  lemma {:induction false} MakeTypeOk(t: Table, c: ClassId)
    requires ValidTable(t) && c < |t|
    ensures var n := MakeType(t, c);
      && (forall i :: 0 <= i < |n.typevars| ==> NodeOk(t, n.typevars[i]))
      && (forall b :: b in n.bases ==> GAOk(t, b))
    decreases c, 0
  {
    var n := MakeType(t, c);
    forall k | 0 <= k < |n.bases|
      ensures GAOk(t, n.bases[k])
    {
      assert ValidForm(t, t[c].bases[k], c);
      MakeGAOk(t, t[c].bases[k]);
    }
    forall i | 0 <= i < |n.typevars|
      ensures NodeOk(t, n.typevars[i])
    {
      forall m | m in n.typevars[i].chainsTo
        ensures NodeOk(t, m)
      {
        ChainsToChar(t, c, i, m);
        var k: nat, d: nat :| k < |n.bases| && n.bases[k].orig.cls != GenericId
          && IsEdgeOf(t[c].params, ArgsOf(t[c].bases[k]), Edge(i, d))
          && d < |n.bases[k].orig.typevars| && m == n.bases[k].orig.typevars[d];
        assert n.bases[k] in n.bases;
        assert GAOk(t, n.bases[k]);
      }
    }
  }
}
