/**
 * `GenericAliasNode.find_type` (src/paramsight/paramsight.py): search the alias's own
 * parameter slots first, and only if they reach fewer slots of the target than it has
 * parameters, ask each original base for the slots still missing.
 */
module AliasFind {
  import opened Wrappers
  import opened PyTypes
  import opened ParamGraph
  import opened ParamFind

  /** The loop over the alias's own parameter nodes, from slot `i` on. */
  function RootSearch(g: GenericAliasNode, target: ClassId, i: nat, found: Found): Result<Found, ResolveError>
    decreases |g.orig.typevars| - i
  {
    if i >= |g.orig.typevars| then Ok(found)
    else
      match FindFromNode(g.orig.typevars[i], target, TracePath(g, i, []))
      case Err(e) => Err(e)
      case Ok(result) =>
        if result.Keys * found.Keys != {} then Err(DuplicatePaths)
        else RootSearch(g, target, i + 1, found + result)
  }

  /** `m` cut down to the keys in `s`. */
  function Restrict(m: Found, s: set<nat>): (r: Found)
    ensures r.Keys == m.Keys * s
    ensures forall x :: x in r ==> r[x] == m[x]
  {
    map x | x in m && x in s :: m[x]
  }

  /** The loop over the original bases, from base `k` on, with the root dictionary `found`. */
  function BaseSearch(t: Table, g: GenericAliasNode, target: ClassId, k: nat, found: Found, resD: Found)
    : Result<Found, ResolveError>
    requires target < |t|
    decreases g, 0, |g.orig.bases| - k
  {
    if k >= |g.orig.bases| then Ok(resD)
    else
      match FindFromAlias(t, g.orig.bases[k], target)
      case Err(e) => Err(e)
      case Ok(result) =>
        var rk := result.Keys - found.Keys;
        if rk * resD.Keys != {} then Err(DuplicatePaths)
        else BaseSearch(t, g, target, k + 1, found, resD + Restrict(result, rk))
  }

  /** `GenericAliasNode.find_type` as a function (the optional `found` argument at its default). */
  function FindFromAlias(t: Table, g: GenericAliasNode, target: ClassId): Result<Found, ResolveError>
    requires target < |t|
    decreases g, 1
  {
    match RootSearch(g, target, 0, map[])
    case Err(e) => Err(e)
    case Ok(found) =>
      if |found| < NumTypevars(t, target) then
        match BaseSearch(t, g, target, 0, found, map[])
        case Err(e) => Err(e)
        case Ok(resD) => Ok(found + resD)
      else Ok(found)
  }

  // ---------------------------------------------------------------------------
  // The root phase, characterised by hits
  // ---------------------------------------------------------------------------

  /** The hits of the alias's own parameter nodes from slot `i` on, in search order. */
  function RootHits(g: GenericAliasNode, target: ClassId, i: nat): seq<Hit>
    decreases |g.orig.typevars| - i
  {
    if i >= |g.orig.typevars| then [] else Hits(g.orig.typevars[i], target) + RootHits(g, target, i + 1)
  }

  /** The dictionary the root phase builds from slot `i` on, when it does not raise. */
  function RootMap(g: GenericAliasNode, target: ClassId, i: nat): Found
    decreases |g.orig.typevars| - i
  {
    if i >= |g.orig.typevars| then map[]
    else HitMap(Hits(g.orig.typevars[i], target), TracePath(g, i, [])) + RootMap(g, target, i + 1)
  }

  lemma {:induction false} RootMapKeys(g: GenericAliasNode, target: ClassId, i: nat)
    ensures RootMap(g, target, i).Keys == Idxs(RootHits(g, target, i))
    decreases |g.orig.typevars| - i
  {
    if i < |g.orig.typevars| {
      RootMapKeys(g, target, i + 1);
      HitMapKeys(Hits(g.orig.typevars[i], target), TracePath(g, i, []));
      IdxsConcat(Hits(g.orig.typevars[i], target), RootHits(g, target, i + 1));
    } else {
      assert Idxs([]) == {};
    }
  }

  /**
   * The root phase raises exactly when two of the alias's own trace paths reach the same
   * slot of the target (or one reaches a slot already in `found`).
   */
  lemma {:induction false} RootSearchChar(g: GenericAliasNode, target: ClassId, i: nat, found: Found)
    ensures RootSearch(g, target, i, found) ==
      var hs := RootHits(g, target, i);
      if DistinctIdx(hs) && Idxs(hs) !! found.Keys then Ok(found + RootMap(g, target, i)) else Err(DuplicatePaths)
    decreases |g.orig.typevars| - i
  {
    if i >= |g.orig.typevars| {
      assert Idxs([]) == {};
      assert found + map[] == found;
    } else {
      var ch := Hits(g.orig.typevars[i], target);
      var rest := RootHits(g, target, i + 1);
      var hs := ch + rest;
      var p := TracePath(g, i, []);
      FindFromNodeChar(g.orig.typevars[i], target, p);
      if !DistinctIdx(ch) {
        DistinctConcat(ch, rest);
      } else {
        var result := HitMap(ch, p);
        HitMapKeys(ch, p);
        if result.Keys * found.Keys != {} {
          CollisionStep(ch, rest, found, result);
        } else {
          assert RootSearch(g, target, i, found) == RootSearch(g, target, i + 1, found + result);
          var later := RootMap(g, target, i + 1);
          CombineStep(ch, rest, found, result, later);
          RootSearchChar(g, target, i + 1, found + result);
        }
      }
    }
  }

  /** Distinct hits for the whole root phase: its dictionary is `RootMap`, otherwise it raises. */
  lemma RootPhase(g: GenericAliasNode, target: ClassId)
    ensures RootSearch(g, target, 0, map[]) ==
      if DistinctIdx(RootHits(g, target, 0)) then Ok(RootMap(g, target, 0)) else Err(DuplicatePaths)
  {
    RootSearchChar(g, target, 0, map[]);
    assert map[] + RootMap(g, target, 0) == RootMap(g, target, 0);
  }

  // ---------------------------------------------------------------------------
  // Properties of GenericAliasNode.find_type
  // ---------------------------------------------------------------------------

  /** Two of the alias's own trace paths reaching the same slot make the search raise. */
  lemma RootCollisionRaises(t: Table, g: GenericAliasNode, target: ClassId)
    requires target < |t|
    requires !DistinctIdx(RootHits(g, target, 0))
    ensures FindFromAlias(t, g, target) == Err(DuplicatePaths)
  {
    RootPhase(g, target);
  }

  /**
   * The bases are consulted only when the alias's own slots reach fewer slots than the
   * target has parameters: once they reach enough, the result is exactly the root dictionary.
   */
  lemma SaturatedSkipsBases(t: Table, g: GenericAliasNode, target: ClassId)
    requires target < |t|
    requires DistinctIdx(RootHits(g, target, 0))
    requires |RootMap(g, target, 0)| >= NumTypevars(t, target)
    ensures FindFromAlias(t, g, target) == Ok(RootMap(g, target, 0))
  {
    RootPhase(g, target);
  }

  /** Base entries are added only for keys the root phase (and earlier bases) left open. */
  lemma {:induction false} BaseSearchKeeps(t: Table, g: GenericAliasNode, target: ClassId, k: nat, found: Found, resD: Found)
    requires target < |t|
    requires resD.Keys !! found.Keys
    requires BaseSearch(t, g, target, k, found, resD).Ok?
    ensures var r := BaseSearch(t, g, target, k, found, resD).value;
      r.Keys !! found.Keys && forall x :: x in resD ==> x in r && r[x] == resD[x]
    decreases |g.orig.bases| - k
  {
    if k < |g.orig.bases| {
      var result := FindFromAlias(t, g.orig.bases[k], target).value;
      var rk := result.Keys - found.Keys;
      var next := resD + Restrict(result, rk);
      assert rk * resD.Keys == {};
      assert next.Keys !! found.Keys;
      assert forall x :: x in resD ==> x in next && next[x] == resD[x];
      assert BaseSearch(t, g, target, k, found, resD) == BaseSearch(t, g, target, k + 1, found, next);
      BaseSearchKeeps(t, g, target, k + 1, found, next);
    }
  }

  /**
   * Results from the bases never replace what the alias's own slots found: every root
   * entry is in the final dictionary, unchanged. (The Python code asserts this disjointness.)
   */
  lemma RootEntriesKept(t: Table, g: GenericAliasNode, target: ClassId)
    requires target < |t|
    requires FindFromAlias(t, g, target).Ok?
    ensures DistinctIdx(RootHits(g, target, 0))
    ensures var r := FindFromAlias(t, g, target).value;
      forall x :: x in RootMap(g, target, 0) ==> x in r && r[x] == RootMap(g, target, 0)[x]
  {
    RootPhase(g, target);
    var found := RootMap(g, target, 0);
    if |found| < NumTypevars(t, target) {
      BaseSearchKeeps(t, g, target, 0, found, map[]);
    }
  }

  /** A key already taken by an earlier base makes any later base that also reaches it raise. */
  lemma {:induction false} BaseConflictFrom(t: Table, g: GenericAliasNode, target: ClassId, k: nat, found: Found,
                                            resD: Found, l: nat, x: nat)
    requires target < |t|
    requires k <= l < |g.orig.bases|
    requires x in resD && x !in found
    requires FindFromAlias(t, g.orig.bases[l], target).Ok? && x in FindFromAlias(t, g.orig.bases[l], target).value
    ensures BaseSearch(t, g, target, k, found, resD) == Err(DuplicatePaths)
      || (exists m :: k <= m < l && FindFromAlias(t, g.orig.bases[m], target).Err?)
    decreases l - k
  {
    match FindFromAlias(t, g.orig.bases[k], target)
    case Err(_) =>
    case Ok(result) =>
      var rk := result.Keys - found.Keys;
      if rk * resD.Keys == {} {
        if k < l {
          BaseConflictFrom(t, g, target, k + 1, found, resD + Restrict(result, rk), l, x);
        }
      }
  }

  /**
   * Two bases that both reach a slot the root phase left open make the search raise (unless
   * a base in between raises first, which is an error as well).
   */
  lemma {:induction false} BaseConflict(t: Table, g: GenericAliasNode, target: ClassId, k: nat, found: Found,
                                        resD: Found, j: nat, l: nat, x: nat)
    requires target < |t|
    requires k <= j < l < |g.orig.bases|
    requires x !in found
    requires FindFromAlias(t, g.orig.bases[j], target).Ok? && x in FindFromAlias(t, g.orig.bases[j], target).value
    requires FindFromAlias(t, g.orig.bases[l], target).Ok? && x in FindFromAlias(t, g.orig.bases[l], target).value
    ensures BaseSearch(t, g, target, k, found, resD).Err?
    decreases j - k
  {
    match FindFromAlias(t, g.orig.bases[k], target)
    case Err(_) =>
    case Ok(result) =>
      var rk := result.Keys - found.Keys;
      if rk * resD.Keys == {} {
        var next := resD + Restrict(result, rk);
        if k == j {
          BaseConflictFrom(t, g, target, k + 1, found, next, l, x);
          if BaseSearch(t, g, target, k + 1, found, next) != Err(DuplicatePaths) {
            var m :| k + 1 <= m < l && FindFromAlias(t, g.orig.bases[m], target).Err?;
            BaseErrPropagates(t, g, target, k + 1, found, next, m);
          }
        } else {
          BaseConflict(t, g, target, k + 1, found, next, j, l, x);
        }
      }
  }

  /** A base whose own search raises makes the base loop raise, if the loop gets that far. */
  lemma {:induction false} BaseErrPropagates(t: Table, g: GenericAliasNode, target: ClassId, k: nat, found: Found,
                                             resD: Found, m: nat)
    requires target < |t|
    requires k <= m < |g.orig.bases|
    requires FindFromAlias(t, g.orig.bases[m], target).Err?
    ensures BaseSearch(t, g, target, k, found, resD).Err?
    decreases m - k
  {
    if k < m {
      match FindFromAlias(t, g.orig.bases[k], target)
      case Err(_) =>
      case Ok(result) =>
        var rk := result.Keys - found.Keys;
        if rk * resD.Keys == {} {
          BaseErrPropagates(t, g, target, k + 1, found, resD + Restrict(result, rk), m);
        }
    }
  }

  /** The search from an alias whose two bases share an open slot raises. */
  lemma TwoBasesConflict(t: Table, g: GenericAliasNode, target: ClassId, j: nat, l: nat, x: nat)
    requires target < |t|
    requires DistinctIdx(RootHits(g, target, 0))
    requires |RootMap(g, target, 0)| < NumTypevars(t, target)
    requires j < l < |g.orig.bases| && x !in RootMap(g, target, 0)
    requires FindFromAlias(t, g.orig.bases[j], target).Ok? && x in FindFromAlias(t, g.orig.bases[j], target).value
    requires FindFromAlias(t, g.orig.bases[l], target).Ok? && x in FindFromAlias(t, g.orig.bases[l], target).value
    ensures FindFromAlias(t, g, target).Err?
  {
    RootPhase(g, target);
    BaseConflict(t, g, target, 0, RootMap(g, target, 0), map[], j, l, x);
  }

  // ---------------------------------------------------------------------------
  // Soundness: every reported path really reaches the slot it is filed under
  // ---------------------------------------------------------------------------

  /**
   * Path `p` starts at a well-formed alias node, can be followed without `IndexError`, and
   * ends at parameter `x` of class `target`.
   */
  ghost predicate Reaches(t: Table, p: TracePath, target: ClassId, x: nat) {
    && GAOk(t, p.root)
    && TypevarSequence(p).Some?
    && var ns := TypevarSequence(p).value;
       && ns[|ns| - 1].home == target
       && ns[|ns| - 1].homeIdx == x
       && NodeOk(t, ns[|ns| - 1])
  }

  lemma {:induction false} WalkOk(t: Table, n: TypeVarNode, chain: seq<nat>)
    requires NodeOk(t, n) && Walk(n, chain).Some?
    ensures forall m :: m in Walk(n, chain).value ==> NodeOk(t, m)
    decreases |chain|
  {
    if chain != [] {
      assert n.chainsTo[chain[0]] in n.chainsTo;
      WalkOk(t, n.chainsTo[chain[0]], chain[1..]);
    }
  }

  lemma RootMapSound(t: Table, g: GenericAliasNode, target: ClassId, i: nat, x: nat)
    requires GAOk(t, g)
    requires x in RootMap(g, target, i)
    ensures Reaches(t, RootMap(g, target, i)[x], target, x)
    decreases |g.orig.typevars| - i
  {
    var p := TracePath(g, i, []);
    var hm := HitMap(Hits(g.orig.typevars[i], target), p);
    if x in RootMap(g, target, i + 1) {
      RootMapSound(t, g, target, i + 1, x);
    } else {
      assert x in hm && RootMap(g, target, i)[x] == hm[x];
      HitMapValue(Hits(g.orig.typevars[i], target), p, x);
      var j :| 0 <= j < |Hits(g.orig.typevars[i], target)| && Hits(g.orig.typevars[i], target)[j].idx == x
        && hm[x] == Extend(p, Hits(g.orig.typevars[i], target)[j].chain);
      var h := Hits(g.orig.typevars[i], target)[j];
      HitsSound(g.orig.typevars[i], target, h);
      assert [] + h.chain == h.chain;
      WalkOk(t, g.orig.typevars[i], h.chain);
      var ns := Walk(g.orig.typevars[i], h.chain).value;
      assert ns[|ns| - 1] in ns;
    }
  }

  lemma {:induction false} BaseSearchSound(t: Table, g: GenericAliasNode, target: ClassId, k: nat, found: Found,
                                           resD: Found, x: nat)
    requires target < |t| && GAOk(t, g)
    requires forall y :: y in resD ==> Reaches(t, resD[y], target, y)
    requires BaseSearch(t, g, target, k, found, resD).Ok?
    requires x in BaseSearch(t, g, target, k, found, resD).value
    ensures Reaches(t, BaseSearch(t, g, target, k, found, resD).value[x], target, x)
    decreases g, 0, |g.orig.bases| - k
  {
    if k < |g.orig.bases| {
      var b := g.orig.bases[k];
      assert b in g.orig.bases;
      var result := FindFromAlias(t, b, target).value;
      var rk := result.Keys - found.Keys;
      var next := resD + Restrict(result, rk);
      forall y | y in next ensures Reaches(t, next[y], target, y) {
        if y !in resD || y in Restrict(result, rk) {
          if y in Restrict(result, rk) {
            FindFromAliasSound(t, b, target, y);
          }
        }
      }
      BaseSearchSound(t, g, target, k + 1, found, next, x);
    }
  }

  /**
   * Every entry of a successful search is a path that can be followed and ends at the
   * parameter of the target class it is filed under.
   */
  lemma {:induction false} FindFromAliasSound(t: Table, g: GenericAliasNode, target: ClassId, x: nat)
    requires target < |t| && GAOk(t, g)
    requires FindFromAlias(t, g, target).Ok? && x in FindFromAlias(t, g, target).value
    ensures Reaches(t, FindFromAlias(t, g, target).value[x], target, x)
    decreases g, 1
  {
    RootPhase(g, target);
    var found := RootMap(g, target, 0);
    if x in found {
      RootMapSound(t, g, target, 0, x);
      RootEntriesKept(t, g, target);
    } else {
      var resD := BaseSearch(t, g, target, 0, found, map[]).value;
      BaseSearchSound(t, g, target, 0, found, map[], x);
    }
  }

  /** Every key of a successful search is a parameter index of the target class. */
  lemma FindFromAliasKeys(t: Table, g: GenericAliasNode, target: ClassId)
    requires target < |t| && GAOk(t, g)
    requires FindFromAlias(t, g, target).Ok?
    ensures forall x :: x in FindFromAlias(t, g, target).value ==> x < NumTypevars(t, target)
  {
    forall x | x in FindFromAlias(t, g, target).value ensures x < NumTypevars(t, target) {
      FindFromAliasSound(t, g, target, x);
    }
  }

  // ---------------------------------------------------------------------------
  // The method
  // ---------------------------------------------------------------------------

  /** `GenericAliasNode.find_type`: the root loop, then the base loop when slots are missing. */
  method FindTypeGA(t: Table, g: GenericAliasNode, target: ClassId) returns (r: Result<Found, ResolveError>)
    requires target < |t|
    ensures r == FindFromAlias(t, g, target)
    decreases g, 1
  {
    var num := NumTypevars(t, target);
    var found: Found := map[];
    var i := 0;
    while i < |g.orig.typevars|
      invariant 0 <= i <= |g.orig.typevars|
      invariant RootSearch(g, target, 0, map[]) == RootSearch(g, target, i, found)
    {
      var result := FindType(g.orig.typevars[i], target, TracePath(g, i, []));
      if result.Err? {
        return Err(result.error);
      }
      if result.value.Keys * found.Keys != {} {
        return Err(DuplicatePaths);
      }
      found := found + result.value;
      i := i + 1;
    }
    if |found| < num {
      var res := SearchBases(t, g, target, found);
      if res.Err? {
        return Err(res.error);
      }
      var resD := res.value;
      BaseSearchKeeps(t, g, target, 0, found, map[]);
      assert resD.Keys * found.Keys == {};
      found := found + resD;
    }
    return Ok(found);
  }

  /** The base loop of `GenericAliasNode.find_type`, given the root dictionary `found`. */
  method SearchBases(t: Table, g: GenericAliasNode, target: ClassId, found: Found) returns (r: Result<Found, ResolveError>)
    requires target < |t|
    ensures r == BaseSearch(t, g, target, 0, found, map[])
    decreases g, 0
  {
    var resD: Found := map[];
    var k := 0;
    while k < |g.orig.bases|
      invariant 0 <= k <= |g.orig.bases|
      invariant BaseSearch(t, g, target, 0, found, map[]) == BaseSearch(t, g, target, k, found, resD)
    {
      var result := FindTypeGA(t, g.orig.bases[k], target);
      if result.Err? {
        return Err(result.error);
      }
      var rk := result.value.Keys - found.Keys;
      if rk * resD.Keys != {} {
        return Err(DuplicatePaths);
      }
      resD := CopyKeys(resD, result.value, rk);
      k := k + 1;
    }
    return Ok(resD);
  }

  /** The inner `for k in rk` loop: copy the entries of `result` under the keys `rk` into `resD`. */
  method CopyKeys(resD: Found, result: Found, rk: set<nat>) returns (r: Found)
    requires rk <= result.Keys
    ensures r == resD + Restrict(result, rk)
  {
    r := resD;
    var rem := rk;
    while rem != {}
      invariant rem <= rk
      invariant r == resD + Restrict(result, rk - rem)
      decreases |rem|
    {
      var x :| x in rem;
      r := r[x := result[x]];
      rem := rem - {x};
    }
    assert rk - rem == rk;
  }
}
