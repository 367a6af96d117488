/**
 * The traversal half of `src/paramsight/paramsight.py`: trace paths, `TypeVarNode.find_type`
 * and `GenericAliasNode.find_type`. Each search is given twice: as a function that is its
 * specification and as a method with the loops of the Python code, proved to compute it.
 * The function over a single node is then characterised by `Hits`, an independent
 * description of which chains reach the target class.
 */
module ParamFind {
  import opened Wrappers
  import opened PyTypes
  import opened ParamGraph

  /**
   * The two `ValueError`s of resolution: two trace paths claim the same ancestor slot, or
   * the search found fewer slots than the target class has parameters.
   */
  datatype ResolveError = DuplicatePaths | MissingTypevars(found: nat, expected: nat)

  /** `TypeVarTracePath`: a root alias node, one of its parameter slots, and chain indices. */
  datatype TracePath = TracePath(root: GenericAliasNode, rootIdx: nat, chain: seq<nat>)

  type Found = map<nat, TracePath>

  /** `add_link`: the same root and slot, one more index on the chain. */
  function AddLink(p: TracePath, link: nat): (r: TracePath)
    ensures r.root == p.root && r.rootIdx == p.rootIdx && r.chain == p.chain + [link]
  {
    TracePath(p.root, p.rootIdx, p.chain + [link])
  }

  /** The path `p` continued by a whole chain. */
  function Extend(p: TracePath, chain: seq<nat>): TracePath {
    TracePath(p.root, p.rootIdx, p.chain + chain)
  }

  // ---------------------------------------------------------------------------
  // get_typevar_sequence
  // ---------------------------------------------------------------------------

  /** The nodes visited from `n` along `chain`; `None` where the Python loop raises `IndexError`. */
  function Walk(n: TypeVarNode, chain: seq<nat>): (r: Option<seq<TypeVarNode>>)
    ensures r.Some? ==> |r.value| == |chain| + 1 && r.value[0] == n
    decreases |chain|
  {
    if chain == [] then Some([n])
    else if chain[0] < |n.chainsTo| then
      match Walk(n.chainsTo[chain[0]], chain[1..])
      case None => None
      case Some(rest) => Some([n] + rest)
    else None
  }

  /** `get_typevar_sequence` as a value: `None` where Python raises `IndexError`. */
  function TypevarSequence(p: TracePath): (r: Option<seq<TypeVarNode>>)
    ensures r.Some? ==>
      p.rootIdx < |p.root.orig.typevars| && |r.value| == |p.chain| + 1 && r.value[0] == p.root.orig.typevars[p.rootIdx]
  {
    if p.rootIdx < |p.root.orig.typevars| then Walk(p.root.orig.typevars[p.rootIdx], p.chain) else None
  }

  lemma {:induction false} WalkSnoc(n: TypeVarNode, chain: seq<nat>, link: nat)
    requires Walk(n, chain).Some?
    ensures var ns := Walk(n, chain).value;
      Walk(n, chain + [link]) ==
        if link < |ns[|ns| - 1].chainsTo| then Some(ns + [ns[|ns| - 1].chainsTo[link]]) else None
    decreases |chain|
  {
    if chain != [] {
      var child := n.chainsTo[chain[0]];
      assert (chain + [link])[1..] == chain[1..] + [link];
      WalkSnoc(child, chain[1..], link);
      var rest := Walk(child, chain[1..]).value;
      var ns := Walk(n, chain).value;
      assert ns == [n] + rest;
      assert ns[|ns| - 1] == rest[|rest| - 1];
      if link < |rest[|rest| - 1].chainsTo| {
        var x := rest[|rest| - 1].chainsTo[link];
        assert Walk(child, chain[1..] + [link]) == Some(rest + [x]);
        assert [n] + (rest + [x]) == ns + [x];
      }
    }
  }

  /**
   * `add_link` then `get_typevar_sequence`: the sequence grows by exactly the successor
   * node at the new index, or the lookup fails when that index is out of range.
   */
  lemma AddLinkSequence(p: TracePath, link: nat)
    requires TypevarSequence(p).Some?
    ensures var ns := TypevarSequence(p).value;
      TypevarSequence(AddLink(p, link)) ==
        if link < |ns[|ns| - 1].chainsTo| then Some(ns + [ns[|ns| - 1].chainsTo[link]]) else None
  {
    WalkSnoc(p.root.orig.typevars[p.rootIdx], p.chain, link);
  }

  /** `get_typevar_sequence`: the loop that follows the chain from the root slot's node. */
  method GetTypevarSequence(p: TracePath) returns (r: Option<seq<TypeVarNode>>)
    ensures r == TypevarSequence(p)
  {
    if p.rootIdx >= |p.root.orig.typevars| {
      return None;
    }
    var node := p.root.orig.typevars[p.rootIdx];
    var nodes := [node];
    var j := 0;
    while j < |p.chain|
      invariant 0 <= j <= |p.chain|
      invariant |nodes| == j + 1 && nodes[j] == node
      invariant Walk(p.root.orig.typevars[p.rootIdx], p.chain[..j]) == Some(nodes)
    {
      assert p.chain[..j + 1] == p.chain[..j] + [p.chain[j]];
      WalkSnoc(p.root.orig.typevars[p.rootIdx], p.chain[..j], p.chain[j]);
      if p.chain[j] >= |node.chainsTo| {
        PrefixFails(p.root.orig.typevars[p.rootIdx], p.chain, j + 1);
        return None;
      }
      node := node.chainsTo[p.chain[j]];
      nodes := nodes + [node];
      j := j + 1;
    }
    assert p.chain[..j] == p.chain;
    return Some(nodes);
  }

  /** Once a prefix of the chain leaves the graph, the whole chain does. */
  lemma {:induction false} PrefixFails(n: TypeVarNode, chain: seq<nat>, j: nat)
    requires j <= |chain| && Walk(n, chain[..j]).None?
    ensures Walk(n, chain).None?
    decreases j
  {
    if j > 0 && chain[0] < |n.chainsTo| {
      assert chain[..j][1..] == chain[1..][..j - 1];
      PrefixFails(n.chainsTo[chain[0]], chain[1..], j - 1);
    }
  }

  // ---------------------------------------------------------------------------
  // Hits: which chains from a node reach the target class
  // ---------------------------------------------------------------------------

  /** A chain from a node that stops at the first node homed at the target, and that node's slot. */
  datatype Hit = Hit(chain: seq<nat>, idx: nat)

  /**
   * The chains from `n` that the traversal takes to the target, in traversal order: a node
   * homed at the target is a hit by itself and is not followed further.
   */
  function Hits(n: TypeVarNode, target: ClassId): seq<Hit>
    decreases n, 1
  {
    if n.home == target then [Hit([], n.homeIdx)] else ChildHits(n, target, 0)
  }

  function ChildHits(n: TypeVarNode, target: ClassId, i: nat): seq<Hit>
    decreases n, 0, |n.chainsTo| - i
  {
    if i >= |n.chainsTo| then [] else Prefixed(i, Hits(n.chainsTo[i], target)) + ChildHits(n, target, i + 1)
  }

  function Prefixed(i: nat, hs: seq<Hit>): (r: seq<Hit>)
    ensures |r| == |hs|
    ensures forall j :: 0 <= j < |hs| ==> r[j] == Hit([i] + hs[j].chain, hs[j].idx)
  {
    seq(|hs|, j requires 0 <= j < |hs| => Hit([i] + hs[j].chain, hs[j].idx))
  }

  /** The ancestor slots that a list of hits reaches. */
  function Idxs(hs: seq<Hit>): set<nat> {
    set h | h in hs :: h.idx
  }

  /** No two hits reach the same ancestor slot. */
  ghost predicate DistinctIdx(hs: seq<Hit>) {
    forall a, b :: 0 <= a < b < |hs| ==> hs[a].idx != hs[b].idx
  }

  /** The slot-to-path dictionary that a list of hits from path `p` gives. */
  function HitMap(hs: seq<Hit>, p: TracePath): Found {
    if hs == [] then map[] else map[hs[0].idx := Extend(p, hs[0].chain)] + HitMap(hs[1..], p)
  }

  lemma {:induction false} HitMapKeys(hs: seq<Hit>, p: TracePath)
    ensures HitMap(hs, p).Keys == Idxs(hs)
  {
    if hs != [] {
      HitMapKeys(hs[1..], p);
      assert hs == [hs[0]] + hs[1..];
      assert Idxs(hs) == {hs[0].idx} + Idxs(hs[1..]);
    }
  }

  /** Every entry of the dictionary is the extension of `p` by the chain of a hit for that slot. */
  lemma {:induction false} HitMapValue(hs: seq<Hit>, p: TracePath, x: nat)
    requires x in HitMap(hs, p)
    ensures exists j :: 0 <= j < |hs| && hs[j].idx == x && HitMap(hs, p)[x] == Extend(p, hs[j].chain)
  {
    if x in HitMap(hs[1..], p) {
      HitMapValue(hs[1..], p, x);
      var j :| 0 <= j < |hs[1..]| && hs[1..][j].idx == x && HitMap(hs[1..], p)[x] == Extend(p, hs[1..][j].chain);
      assert hs[j + 1] == hs[1..][j];
    } else {
      assert HitMap(hs, p)[x] == Extend(p, hs[0].chain);
    }
  }

  lemma {:induction false} HitMapConcat(a: seq<Hit>, b: seq<Hit>, p: TracePath)
    ensures HitMap(a + b, p) == HitMap(a, p) + HitMap(b, p)
  {
    if a == [] {
      assert a + b == b;
    } else {
      var h := map[a[0].idx := Extend(p, a[0].chain)];
      assert (a + b)[0] == a[0] && (a + b)[1..] == a[1..] + b;
      assert HitMap(a + b, p) == h + HitMap(a[1..] + b, p);
      HitMapConcat(a[1..], b, p);
      UnionAssoc(h, HitMap(a[1..], p), HitMap(b, p));
    }
  }

  lemma UnionAssoc(x: Found, y: Found, z: Found)
    ensures (x + y) + z == x + (y + z)
  {
  }

  lemma {:induction false} HitMapPrefixed(i: nat, hs: seq<Hit>, p: TracePath)
    ensures HitMap(Prefixed(i, hs), p) == HitMap(hs, AddLink(p, i))
  {
    if hs != [] {
      assert Prefixed(i, hs)[1..] == Prefixed(i, hs[1..]);
      HitMapPrefixed(i, hs[1..], p);
      assert p.chain + ([i] + hs[0].chain) == (p.chain + [i]) + hs[0].chain;
    }
  }

  lemma IdxsConcat(a: seq<Hit>, b: seq<Hit>)
    ensures Idxs(a + b) == Idxs(a) + Idxs(b)
  {
    forall x | x in Idxs(a + b) ensures x in Idxs(a) + Idxs(b) {
      var h :| h in a + b && h.idx == x;
    }
    forall x | x in Idxs(a) + Idxs(b) ensures x in Idxs(a + b) {
      if x in Idxs(a) {
        var h :| h in a && h.idx == x;
        assert h in a + b;
      } else {
        var h :| h in b && h.idx == x;
        assert h in a + b;
      }
    }
  }

  lemma IdxsPrefixed(i: nat, hs: seq<Hit>)
    ensures Idxs(Prefixed(i, hs)) == Idxs(hs)
    ensures DistinctIdx(Prefixed(i, hs)) <==> DistinctIdx(hs)
  {
    var ps := Prefixed(i, hs);
    forall x | x in Idxs(ps) ensures x in Idxs(hs) {
      var h :| h in ps && h.idx == x;
      var j :| 0 <= j < |ps| && ps[j] == h;
      assert hs[j] in hs;
    }
    forall x | x in Idxs(hs) ensures x in Idxs(ps) {
      var h :| h in hs && h.idx == x;
      var j :| 0 <= j < |hs| && hs[j] == h;
      assert ps[j] in ps;
    }
  }

  lemma DistinctConcat(a: seq<Hit>, b: seq<Hit>)
    ensures DistinctIdx(a + b) <==> DistinctIdx(a) && DistinctIdx(b) && Idxs(a) !! Idxs(b)
  {
    var ab := a + b;
    if DistinctIdx(ab) {
      forall i, j | 0 <= i < |a| && 0 <= j < |b| ensures a[i].idx != b[j].idx {
        assert ab[i] == a[i] && ab[|a| + j] == b[j];
      }
      forall x | x in Idxs(a) ensures x !in Idxs(b) {
        var h :| h in a && h.idx == x;
        var i :| 0 <= i < |a| && a[i] == h;
        forall h' | h' in b ensures h'.idx != x {
          var j :| 0 <= j < |b| && b[j] == h';
        }
      }
      forall i, j | 0 <= i < j < |a| ensures a[i].idx != a[j].idx {
        assert ab[i] == a[i] && ab[j] == a[j];
      }
      forall i, j | 0 <= i < j < |b| ensures b[i].idx != b[j].idx {
        assert ab[|a| + i] == b[i] && ab[|a| + j] == b[j];
      }
    }
    if DistinctIdx(a) && DistinctIdx(b) && Idxs(a) !! Idxs(b) {
      forall i, j | 0 <= i < j < |ab| ensures ab[i].idx != ab[j].idx {
        if j < |a| {
          assert ab[i] == a[i] && ab[j] == a[j];
        } else if i >= |a| {
          assert ab[i] == b[i - |a|] && ab[j] == b[j - |a|];
        } else {
          assert ab[i] == a[i] && ab[j] == b[j - |a|];
          assert a[i] in a && b[j - |a|] in b;
          assert a[i].idx in Idxs(a) && b[j - |a|].idx in Idxs(b);
        }
      }
    }
  }

  /**
   * A hit names a real route: following its chain from `n` ends at a node homed at the
   * target with the hit's slot, and every node before that end lies outside the target.
   */
  lemma {:induction false} HitsSound(n: TypeVarNode, target: ClassId, h: Hit)
    requires h in Hits(n, target)
    ensures var w := Walk(n, h.chain);
      && w.Some?
      && w.value[|w.value| - 1].home == target
      && w.value[|w.value| - 1].homeIdx == h.idx
      && forall j :: 0 <= j < |w.value| - 1 ==> w.value[j].home != target
    decreases n, 1
  {
    if n.home != target {
      ChildHitsSound(n, target, 0, h);
    }
  }

  lemma {:induction false} ChildHitsSound(n: TypeVarNode, target: ClassId, i: nat, h: Hit)
    requires n.home != target && h in ChildHits(n, target, i)
    ensures var w := Walk(n, h.chain);
      && w.Some?
      && w.value[|w.value| - 1].home == target
      && w.value[|w.value| - 1].homeIdx == h.idx
      && forall j :: 0 <= j < |w.value| - 1 ==> w.value[j].home != target
    decreases n, 0, |n.chainsTo| - i
  {
    var ps := Prefixed(i, Hits(n.chainsTo[i], target));
    if h in ps {
      var j :| 0 <= j < |ps| && ps[j] == h;
      var h' := Hits(n.chainsTo[i], target)[j];
      HitsSound(n.chainsTo[i], target, h');
      assert h.chain == [i] + h'.chain && h.chain[1..] == h'.chain;
    } else {
      ChildHitsSound(n, target, i + 1, h);
    }
  }

  // ---------------------------------------------------------------------------
  // TypeVarNode.find_type
  // ---------------------------------------------------------------------------

  /** `TypeVarNode.find_type` as a function. */
  function FindFromNode(n: TypeVarNode, target: ClassId, path: TracePath): Result<Found, ResolveError>
    decreases n, 1
  {
    if n.home == target then Ok(map[n.homeIdx := path])
    else FindFromChildren(n, target, path, 0, map[])
  }

  /** The loop over `chains_to`, from child `i` on, with the dictionary `found` built so far. */
  function FindFromChildren(n: TypeVarNode, target: ClassId, path: TracePath, i: nat, found: Found)
    : Result<Found, ResolveError>
    decreases n, 0, |n.chainsTo| - i
  {
    if i >= |n.chainsTo| then Ok(found)
    else
      match FindFromNode(n.chainsTo[i], target, AddLink(path, i))
      case Err(e) => Err(e)
      case Ok(result) =>
        if result.Keys * found.Keys != {} then Err(DuplicatePaths)
        else FindFromChildren(n, target, path, i + 1, found + result)
  }

  /**
   * `TypeVarNode.find_type` fails exactly when two of the chains it follows reach the same
   * ancestor slot; otherwise it maps each reached slot to the path extended by its chain.
   */
  lemma {:induction false} FindFromNodeChar(n: TypeVarNode, target: ClassId, path: TracePath)
    ensures FindFromNode(n, target, path) ==
      if DistinctIdx(Hits(n, target)) then Ok(HitMap(Hits(n, target), path)) else Err(DuplicatePaths)
    decreases n, 1
  {
    if n.home == target {
      var hs := Hits(n, target);
      assert hs == [Hit([], n.homeIdx)] && hs[1..] == [];
      assert Extend(path, []) == path;
      assert HitMap([], path) == map[];
      assert HitMap(hs, path) == map[n.homeIdx := path] + map[];
      assert map[n.homeIdx := path] + map[] == map[n.homeIdx := path];
      assert DistinctIdx(hs);
    } else {
      FindFromChildrenChar(n, target, path, 0, map[]);
      assert map[] + HitMap(ChildHits(n, target, 0), path) == HitMap(ChildHits(n, target, 0), path);
    }
  }

  lemma {:induction false} FindFromChildrenChar(n: TypeVarNode, target: ClassId, path: TracePath, i: nat, found: Found)
    ensures FindFromChildren(n, target, path, i, found) ==
      var hs := ChildHits(n, target, i);
      if DistinctIdx(hs) && Idxs(hs) !! found.Keys then Ok(found + HitMap(hs, path)) else Err(DuplicatePaths)
    decreases n, 0, |n.chainsTo| - i
  {
    if i >= |n.chainsTo| {
      assert ChildHits(n, target, i) == [];
      assert Idxs([]) == {};
      assert found + HitMap([], path) == found;
    } else {
      var child := n.chainsTo[i];
      var ch := Hits(child, target);
      var ps := Prefixed(i, ch);
      var rest := ChildHits(n, target, i + 1);
      var hs := ps + rest;
      assert ChildHits(n, target, i) == hs;
      FindFromNodeChar(child, target, AddLink(path, i));
      IdxsPrefixed(i, ch);
      if !DistinctIdx(ch) {
        DistinctConcat(ps, rest);
      } else {
        var result := HitMap(ch, AddLink(path, i));
        HitMapKeys(ch, AddLink(path, i));
        if result.Keys * found.Keys != {} {
          CollisionStep(ps, rest, found, result);
        } else {
          assert FindFromChildren(n, target, path, i, found) == FindFromChildren(n, target, path, i + 1, found + result);
          var hr := HitMap(rest, path);
          CombineStep(ps, rest, found, result, hr);
          FindFromChildrenChar(n, target, path, i + 1, found + result);
          HitMapConcat(ps, rest, path);
          HitMapPrefixed(i, ch, path);
          assert HitMap(hs, path) == result + hr;
        }
      }
    }
  }

  lemma CollisionStep(ps: seq<Hit>, rest: seq<Hit>, found: Found, result: Found)
    requires result.Keys == Idxs(ps) && result.Keys * found.Keys != {}
    ensures !(Idxs(ps + rest) !! found.Keys)
  {
    IdxsConcat(ps, rest);
  }

  /** Merging one child's result: the collision tests before and after agree, and so do the dictionaries. */
  lemma CombineStep(ps: seq<Hit>, rest: seq<Hit>, found: Found, result: Found, later: Found)
    requires result.Keys == Idxs(ps) && DistinctIdx(ps) && result.Keys * found.Keys == {}
    ensures (DistinctIdx(ps + rest) && Idxs(ps + rest) !! found.Keys)
      <==> (DistinctIdx(rest) && Idxs(rest) !! (found + result).Keys)
    ensures found + result + later == found + (result + later)
  {
    DistinctConcat(ps, rest);
    IdxsConcat(ps, rest);
    var a, b, f := Idxs(ps), Idxs(rest), found.Keys;
    assert (found + result).Keys == f + a;
    forall x | x in a ensures x !in f {
      assert x !in result.Keys * found.Keys;
    }
    assert (a !! b && (a + b) !! f) <==> b !! (f + a);
  }

  /** `TypeVarNode.find_type`: the recursive search with the loop over `chains_to`. */
  method FindType(n: TypeVarNode, target: ClassId, path: TracePath) returns (r: Result<Found, ResolveError>)
    ensures r == FindFromNode(n, target, path)
    decreases n
  {
    if n.home == target {
      return Ok(map[n.homeIdx := path]);
    }
    var found: Found := map[];
    var i := 0;
    while i < |n.chainsTo|
      invariant 0 <= i <= |n.chainsTo|
      invariant FindFromNode(n, target, path) == FindFromChildren(n, target, path, i, found)
    {
      var result := FindType(n.chainsTo[i], target, AddLink(path, i));
      if result.Err? {
        return Err(result.error);
      }
      if result.value.Keys * found.Keys != {} {
        return Err(DuplicatePaths);
      }
      found := found + result.value;
      i := i + 1;
    }
    return Ok(found);
  }
}
