# paramsight, modelled in Dafny

paramsight answers, at run time, "which concrete types did this class receive for the type
parameters of some generic ancestor?". For a class or an alias such as `CheckPlain2[int, str]`
it builds a tree over the class's chain of generic bases. In that tree each type-parameter
node records the parameter nodes of the direct bases it is passed to unchanged. It then
follows the chains from the alias's own parameters to the target ancestor's parameters. An
ancestor parameter reached twice is an error. Finally it reads off each ancestor slot's
value: the argument the root alias supplied, else the root parameter's default, else
(optionally) the first truthy bound on the chain, else `None`.

The second half of the repository makes this usable from inside a classmethod. `takes_alias`
marks a classmethod as alias-aware. Its `__set_name__` installs, once per class, a
`__class_getitem__` that turns `C[args]` into a `_GAProxy`, which is a `typing._GenericAlias`
subclass. The owner's `__init_subclass__` is patched so that every subclass is installed in
turn. The proxy binds alias-aware classmethods to itself rather than to the bare class. A
`_super` replacement for zero-argument `super()` keeps the proxy through overrides.

Three earlier prototypes are also modelled: `src/nicetv/mapytype.py`, `mapytype.py` and
`tvfind/mapytype.py`. Each has its own `aliasclassmethod` descriptor and a plain wrapper
object called `_GAProxy`.

The project's modules:

- **Resolution graph.** `PyTypes`, `ParamGraph`, `ParamFind`, `AliasFind`, `ParamResolve`,
  `ParamLaws` and `ParamExamples`.
  - Classes are numbered in definition order.
  - A type form is a bare class or an alias.
  - The trees are datatypes.
  - Each Python method with a loop is a Dafny `method`, proved equal to a specification
    function.
  - The properties of that function are proved as lemmas.
- **Python object model.** `PyObjects` holds the class table (`World`), static lookup along the
  MRO, the descriptor protocol, and a `ClassTable` class whose `SetAttr` mutates the table.
- **Library dispatch.** `AcmPredicate`, `GAProxy`, `Subscription`, `AliasClassMethod`,
  `AliasSuper` and `SuperExample`.
  - `src/paramsight/ga_proxy.py` is identical to `src/nicetv/ga_proxy.py` apart from its
    import and comments, and `GAProxy` models both.
- **Prototypes.** `WrapperProxy`, `NicetvMapytype`, `PrototypeSetName` and `PrototypeDemo`.

The code rejects even an agreeing diamond: a second chain to an already-found slot raises
`ValueError` (`src/paramsight/paramsight.py:119-122`), even when both routes give the
ancestor the same argument. `ParamExamples.AgreeingDiamondRaises` shows it.

## Model

| member | source | states |
|---|---|---|
| ParamGraph.EdgesListChar | src/paramsight/paramsight.py:242-256 | one edge list per original base; edge `(s, d)` is in base `k`'s list exactly when that base's top-level argument `d` is parameter `s` itself (nested aliases give none); each list is sorted by parameter, then by position |
| ParamGraph.MatchesChar | src/paramsight/paramsight.py:252-254 | the positions matched for one parameter are exactly the argument slots holding it, in increasing order |
| ParamGraph.EdgesFromChar | src/paramsight/paramsight.py:248-254 | the comprehension over parameters from index `s` on yields exactly the edges whose parameter index is at least `s`, strictly sorted |
| ParamGraph.MakeNodes | src/paramsight/paramsight.py:71-95 | one node per type parameter, homed at the class at its own index, carrying that parameter's default and bound |
| ParamGraph.MakeType | src/paramsight/paramsight.py:135-146 | one base node per original base with that base's origin, and one parameter node per parameter |
| ParamGraph.MakeGA | src/paramsight/paramsight.py:165-173 | the alias is kept (none for a bare class) and the tree of its origin is built |
| ParamGraph.ChainsToChar | src/paramsight/paramsight.py:84-91 | node `i` chains to slot `d` of base `k`'s node exactly when that base is not `typing.Generic` and its argument `d` is parameter `i` |
| ParamGraph.EdgeTargetsMem | src/paramsight/paramsight.py:85-90 | what one base contributes to `chains_to`: the `dst` nodes of its edges from `i`, none for `typing.Generic` |
| ParamGraph.ChainsToMem | src/paramsight/paramsight.py:84-91 | `chains_to` is the union, base by base, of those contributions |
| ParamGraph.BasesInRange | src/paramsight/paramsight.py:84-88 | within the modelled universe (every generic base is `typing.Generic` or a modelled class), every edge of a non-`Generic` base names an existing parameter node, so the strict `zip` and the indexing never fail |
| ParamGraph.MakeGAOk | src/paramsight/paramsight.py:165-173 | every tree built from a valid type form is well formed (slots at their own index, successors well formed, enough alias arguments) |
| ParamGraph.MakeTypeOk | src/paramsight/paramsight.py:135-146 | the parameter nodes and base trees of a class node are well formed |
| ParamFind.AddLink | src/paramsight/paramsight.py:26-31 | same root and slot, chain extended by the one new index |
| ParamFind.Walk | src/paramsight/paramsight.py:36-38 | a successful walk visits one node per link plus the start node |
| ParamFind.TypevarSequence | src/paramsight/paramsight.py:33-39 | the sequence starts at the root slot's node and has one more node than the chain has links |
| ParamFind.WalkSnoc | src/paramsight/paramsight.py:36-38 | one more link appends exactly that successor, or fails when the index is out of range |
| ParamFind.AddLinkSequence | src/paramsight/paramsight.py:26-39 | `add_link` then `get_typevar_sequence` grows the sequence by the successor at the new index, or raises `IndexError` |
| ParamFind.PrefixFails | src/paramsight/paramsight.py:36-38 | once a prefix of the chain leaves the graph, the whole chain does |
| ParamFind.GetTypevarSequence | src/paramsight/paramsight.py:33-39 | the loop returns the specified node sequence |
| ParamFind.HitsSound | src/paramsight/paramsight.py:111-124 | each chain the traversal reports reaches a node homed at the target with the reported slot, through nodes outside the target |
| ParamFind.ChildHitsSound | src/paramsight/paramsight.py:116-124 | the same for the chains found by the loop over `chains_to` |
| ParamFind.FindFromNodeChar | src/paramsight/paramsight.py:111-124 | `TypeVarNode.find_type` raises exactly when two followed chains reach the same target slot, otherwise maps each reached slot to the path extended by its chain |
| ParamFind.FindFromChildrenChar | src/paramsight/paramsight.py:116-124 | the child loop raises exactly on a repeated slot or one already found, otherwise adds the children's entries |
| ParamFind.FindType | src/paramsight/paramsight.py:111-124 | the recursive method with its loop computes `TypeVarNode.find_type` |
| AliasFind.RootSearchChar | src/paramsight/paramsight.py:192-204 | the root loop raises exactly when the alias's own paths collide (or hit a key already present), else adds the root dictionary |
| AliasFind.RootPhase | src/paramsight/paramsight.py:188-204 | from an empty dictionary the root phase gives the root dictionary or raises |
| AliasFind.RootCollisionRaises | src/paramsight/paramsight.py:200-203 | two of the alias's own paths to one target slot make `find_type` raise |
| AliasFind.SaturatedSkipsBases | src/paramsight/paramsight.py:206 | when the root phase finds enough slots, the bases are not consulted and the result is the root dictionary |
| AliasFind.BaseSearchKeeps | src/paramsight/paramsight.py:207-217 | the base loop adds only keys the root phase left open and never changes entries already taken |
| AliasFind.RootEntriesKept | src/paramsight/paramsight.py:219-220 | a successful search contains every root entry unchanged (the code's disjointness assertion holds) |
| AliasFind.BaseConflictFrom | src/paramsight/paramsight.py:210-215 | a base reaching a key taken by an earlier base raises, unless an intermediate base raised first |
| AliasFind.BaseConflict | src/paramsight/paramsight.py:208-215 | two bases reaching the same open slot make the base loop fail |
| AliasFind.BaseErrPropagates | src/paramsight/paramsight.py:208-209 | a base whose own search raises makes the base loop raise |
| AliasFind.TwoBasesConflict | src/paramsight/paramsight.py:206-215 | an unsaturated alias whose two bases share an open slot makes `find_type` fail |
| AliasFind.FindFromAliasSound | src/paramsight/paramsight.py:185-221 | every entry of a successful search is a followable path ending at the target parameter it is filed under |
| AliasFind.FindFromAliasKeys | src/paramsight/paramsight.py:185-221 | every key of a successful search is a parameter index of the target |
| AliasFind.FindTypeGA | src/paramsight/paramsight.py:185-221 | the method with both loops computes `GenericAliasNode.find_type` |
| AliasFind.SearchBases | src/paramsight/paramsight.py:207-220 | the base loop method computes the specified base search |
| AliasFind.CopyKeys | src/paramsight/paramsight.py:216-217 | the copy loop yields the old dictionary plus `result` restricted to `rk` |
| ParamResolve.FirstTruthyBound | src/paramsight/paramsight.py:54-58 | `None` exactly when no node on the path has a truthy bound, else the first truthy bound |
| ParamResolve.ResolvedValuePrecedence | src/paramsight/paramsight.py:41-58 | a supplied non-`None` argument wins (a type variable giving its default), then a truthy default, then with the flag the first truthy bound, then `None` |
| ParamResolve.ResolveToValue | src/paramsight/paramsight.py:41-58 | the method with its bound loop computes `resolve_to_value` |
| ParamResolve.CompleteSearch | src/paramsight/paramsight.py:226-233 | a search that finds as many slots as the target has parameters has found every one of them, each by a real path |
| ParamResolve.ResolvedTypevarsChar | src/paramsight/paramsight.py:223-239 | the tuple exists exactly when the search succeeds and covers every parameter; it then holds, in order, the value of a path ending at each parameter; `MissingTypevars` reports fewer found than expected |
| ParamResolve.ResolvedEntries | src/paramsight/paramsight.py:234-239 | for a complete search every entry is resolvable and the tuple lists their values in order |
| ParamResolve.ResolveEach | src/paramsight/paramsight.py:234-239 | the comprehension loop yields `resolve_to_value` of entries `0 .. num-1` |
| ParamResolve.GetResolvedTypevarsForBase | src/paramsight/paramsight.py:223-239 | the method computes the specified resolution, errors included |
| ParamResolve.ResolveForBase | src/paramsight/paramsight.py:259-263 | building the tree of `cls` then resolving gives the specified result |
| ParamResolve.InstanceForm | src/paramsight/paramsight.py:269-272 | an instance resolves through its `__orig_class__` when present, else its class |
| ParamResolve.ResolveForInstance | src/paramsight/paramsight.py:266-273 | the instance entry point resolves that form |
| ParamLaws.OwnValue | src/paramsight/paramsight.py:52-58 | a parameter's own value: its default when truthy, else with the flag its bound, else `None` |
| ParamLaws.RootSelf | src/paramsight/paramsight.py:114-115 | searching for the alias's own class, each slot finds itself with an empty chain and nothing else |
| ParamLaws.SelfSearch | src/paramsight/paramsight.py:185-206 | a class searched for itself finds every slot through its own node |
| ParamLaws.SelfValues | src/paramsight/paramsight.py:223-239 | resolving against the alias's own class gives, per slot, the value of its one-node path |
| ParamLaws.OneNodeValue | src/paramsight/paramsight.py:44-58 | a one-node path gives the supplied argument unless it is `None`, else the parameter's own value |
| ParamLaws.AliasSelfResolution | src/paramsight/paramsight.py:259-263 | `D[args]` resolved against `D` gives back `args`, a `None` argument falling back to the parameter's own value |
| ParamLaws.PlainSelfResolution | src/paramsight/paramsight.py:259-263 | a bare class resolved against itself gives each parameter's own default (or bound) |
| ParamExamples.PlainRoutes | tests/test_typevar_resolution_hypothesis.py:144-145 | `CheckPlain[t]` resolves against `CheckTVCls` to `(t,)` |
| ParamExamples.Plain2RoutesSecond | tests/test_typevar_resolution_hypothesis.py:150-151 | `CheckPlain2[t1, t2]` resolves to `(t2,)` |
| ParamExamples.PlainSuperRoutes | tests/test_typevar_resolution_hypothesis.py:156-157 | `CheckPlainSuper[t]` resolves to `(t,)` |
| ParamExamples.SuperDuper1RoutesFirst | tests/test_typevar_resolution_hypothesis.py:162-164 | `CheckPlainSuperDuper_1[t1, t2]` resolves to `(t1,)` |
| ParamExamples.Plain2Unspecialised | tests/test_typevar_resolution_hypothesis.py:185-199 | unspecialised `CheckPlain2` resolves to `(NoDefault,)` |
| ParamExamples.DefaultUsedWhenUnspecialised | src/paramsight/paramsight.py:50-53 | a parameter defaulting to `str` resolves to `(str,)` when unspecialised |
| ParamExamples.ArgumentOverridesDefault | src/paramsight/paramsight.py:44-49 | a supplied argument overrides the parameter's default |
| ParamExamples.AgreeingDiamondRaises | src/paramsight/paramsight.py:116-122 | a diamond whose two routes agree still raises the duplicate-paths error |
| ParamExamples.MakeDiamond | src/paramsight/paramsight.py:84-91 | in the diamond, the single parameter chains to both bases' parameters |
| AcmPredicate.TakesAliasAware | src/nicetv/_is_aliasclassmethod.py:9 | every `_TakesAlias` is alias-aware |
| AcmPredicate.FlaggedAware | src/nicetv/_is_aliasclassmethod.py:11 | anything flagged `_acm_takes_alias` is alias-aware |
| AcmPredicate.ClassMethodAware | src/nicetv/_is_aliasclassmethod.py:12-18 | a `classmethod` is alias-aware exactly when flagged or its `__func__` is a `_TakesAlias` or flagged |
| AcmPredicate.PlainNotAware | src/nicetv/_is_aliasclassmethod.py:7-19 | no other object is alias-aware |
| GAProxy.ReservedServedByAlias | src/nicetv/ga_proxy.py:82-84 | a name in `_ga_fields` is answered by the alias itself |
| GAProxy.AwareBoundToProxy | src/nicetv/ga_proxy.py:85-89 | an alias-aware attribute of the origin is its own `__get__(None, proxy)`, so a classmethod is bound to the proxy |
| GAProxy.OtherForwarded | src/nicetv/ga_proxy.py:91 | any other attribute is `getattr(origin, name)`; a plain classmethod is bound to the bare class; a name only the metaclass defines is the metaclass's entry as seen from the origin |
| GAProxy.MissingRaises | src/nicetv/ga_proxy.py:87 | a name that neither the origin's MRO (`object` included) nor its metaclass defines raises `AttributeError`, even when a metaclass `__getattr__` would supply it |
| GAProxy.GetattrSameRule | src/nicetv/ga_proxy.py:93-108 | `__getattr__` applies the same rule as `__getattribute__` to unreserved names |
| GAProxy.ChainedCallKeepsProxy | src/nicetv/ga_proxy.py:105-107 | an alias-aware classmethod calling another through `cls` reaches it bound to the same proxy |
| GAProxy.FreshAliasLosesAlias | src/nicetv/ga_proxy.py:98-106 | handing out a fresh plain alias instead would bind the second call to the bare class |
| AliasClassMethod.AliasesAreSpecialized | src/nicetv/aliasclassmethod.py:44-45 | every typing alias, the proxy included, counts as specialised |
| AliasClassMethod.PydanticSpecializedByMetadata | src/nicetv/aliasclassmethod.py:42-43 | a pydantic class is specialised exactly when its metadata origin is set |
| AliasClassMethod.BareClassNotSpecialized | src/nicetv/aliasclassmethod.py:41-53 | a bare non-pydantic class without `__origin__` is not specialised |
| AliasClassMethod.TakesAliasDecorator | src/nicetv/aliasclassmethod.py:132-141 | `ValueError` exactly for a non-classmethod; otherwise a `_TakesAlias` over the same function carrying the back-reference |
| AliasClassMethod.DecoratedIsAware | src/nicetv/aliasclassmethod.py:112-141 | what `takes_alias` returns is alias-aware |
| AliasClassMethod.BaseCgi | src/nicetv/aliasclassmethod.py:56-68 | no base exactly when neither static nor metaclass lookup finds a hook; a static classmethod is unwrapped to its function, any other static value is kept |
| AliasClassMethod.MakePatchedCgi | src/nicetv/aliasclassmethod.py:56-76 | no hook exactly when there is no base; otherwise a `_patched_cgi` over that base |
| AliasClassMethod.MakePatchedInitSubclass | src/nicetv/aliasclassmethod.py:79-90 | `getattr_static` always finds a hook, `object`'s at the latest; `AttributeError` exactly when that hook is a `classmethod` or `staticmethod` over an object without `__name__`; no new hook exactly when its `__func__` is already named `_patched_init_subclass`; otherwise one closing over the owner |
| AliasClassMethod.InstallErrorIff | src/nicetv/aliasclassmethod.py:93-109 | installation raises exactly when the owner is neither pydantic nor installed and its hook's `__func__` has no `__name__`, and what it raises is `AttributeError` |
| AliasClassMethod.PlainClassInstalls | src/nicetv/aliasclassmethod.py:79-109 | a non-pydantic class whose MRO defines no `__init_subclass__`, so that it has `object`'s, is installed without error |
| AliasClassMethod.InstallOutcome | src/nicetv/aliasclassmethod.py:93-109 | installation changes only the owner's own attributes and keeps the table well formed |
| AliasClassMethod.InstallGAProxy | src/nicetv/aliasclassmethod.py:93-109 | the assignment-by-assignment method leaves the table and error that `InstallOutcome` specifies |
| AliasClassMethod.InstallSkipsPydantic | src/nicetv/aliasclassmethod.py:94-95 | a pydantic owner is left untouched |
| AliasClassMethod.InstallMarksOwner | src/nicetv/aliasclassmethod.py:109 | after an installation that raised nothing, the owner's marker is the owner |
| AliasClassMethod.InstallIdempotent | src/nicetv/aliasclassmethod.py:96 | after an installation that raised nothing, installing again changes nothing |
| AliasClassMethod.InstallOnlyAssignsHooks | src/nicetv/aliasclassmethod.py:97-109 | every attribute other than the two hooks and the marker is unchanged |
| AliasClassMethod.NoHookNoGetitemPatch | src/nicetv/aliasclassmethod.py:97-99 | with nothing to wrap, `owner[key]` behaves as before |
| AliasClassMethod.PatchedHookNotRewrapped | src/nicetv/aliasclassmethod.py:80-83 | an inherited `_patched_init_subclass` is not wrapped again |
| AliasClassMethod.InitSubclassChain | src/nicetv/aliasclassmethod.py:85-88 | running the `__init_subclass__` chain, which ends at a C-level hook (`object`'s after the MRO), changes only the class being created |
| AliasClassMethod.ChainKeepsInstalled | src/nicetv/aliasclassmethod.py:85-88 | when installing on the class being created changes nothing, the whole chain changes no class |
| AliasClassMethod.PatchedChainKeepsInstalled | src/nicetv/aliasclassmethod.py:85-88 | the same for a `_patched_init_subclass` call, whose own `_install_ga_proxy(cls)` is then a no-op |
| AliasClassMethod.SetNames | src/nicetv/aliasclassmethod.py:118-121 | the `__set_name__` calls change only the new class |
| AliasClassMethod.NewClass | src/nicetv/aliasclassmethod.py:118-121 | creating a class adds it and leaves every existing class as it was |
| AliasClassMethod.SetNamesKeepInstalled | src/nicetv/aliasclassmethod.py:118-121 | when installing on the new class changes nothing, the remaining `__set_name__` calls change nothing and raise nothing |
| AliasClassMethod.SetNamesInstall | src/nicetv/aliasclassmethod.py:118-121 | when one member is a `_TakesAlias` and the `__set_name__` calls raise nothing, a non-pydantic class ends them installed on itself |
| AliasClassMethod.NewClassTakesAliasInstalled | src/nicetv/aliasclassmethod.py:118-121 | a non-pydantic class with a `_TakesAlias` member, created without error, is installed on itself once its class statement completes |
| AliasClassMethod.ChainInstalls | src/nicetv/aliasclassmethod.py:85-88 | when the first hook reached is `_patched_init_subclass`, a non-pydantic class created without error is installed on itself |
| AliasClassMethod.PatchedChain | src/nicetv/aliasclassmethod.py:85-88 | a `_patched_init_subclass` call changes only the class being created |
| AliasClassMethod.PatchedChainInstalls | src/nicetv/aliasclassmethod.py:85-88 | a `_patched_init_subclass` call that raises nothing leaves the class installed on itself |
| AliasClassMethod.InstallSteps | src/nicetv/aliasclassmethod.py:93-109 | an installation that goes ahead writes the patched `__class_getitem__` when one was made, then either raises looking up `__init_subclass__` with only that written, or writes the hook when there is one and then the marker naming the owner |
| AliasClassMethod.InstalledHookEntry | src/nicetv/aliasclassmethod.py:70-74 | installing over `m` inherited patch layers puts `m + 1` layers on the owner itself, whether or not the rest of the installation raises |
| AliasClassMethod.SubclassInstalled | src/nicetv/aliasclassmethod.py:85-88 | a new subclass inheriting the patched hook is installed once its class statement completes |
| AliasClassMethod.InheritedMarkerNotInstalled | src/nicetv/aliasclassmethod.py:96 | a class that only inherits another class's marker is not considered installed |
| AliasClassMethod.InstalledSubscript | src/nicetv/aliasclassmethod.py:70-74 | after installation over any number of inherited patch layers, `owner[key]` is a single proxy over `owner`'s own alias |
| Subscription.MakeAliasInstanceFromAlias | src/nicetv/aliasclassmethod.py:144-150 | an alias becomes a proxy with the same origin, args, `_inst` and `_name`; anything else raises `AttributeError` |
| Subscription.PatchedHookReturnsProxy | src/nicetv/aliasclassmethod.py:70-74 | any number of patch layers returns a single proxy over the receiving class's alias |
| Subscription.PatchedHookRejectsPydantic | src/nicetv/aliasclassmethod.py:73 | the patched hook fails its assertion for a pydantic receiver |
| Subscription.WrappedHookNests | src/nicetv/mapytype.py:62-67 | in this prototype, `n` patch layers give `n` nested wrappers |
| PyObjects.MroLookup | src/nicetv/ga_proxy.py:87 | the class part of a lookup finds the owner's own entry first, and nothing exactly when neither a class in the MRO nor `object` defines the name |
| PyObjects.StaticLookup | src/nicetv/ga_proxy.py:87 | `getattr_static` finds the MRO's entry (`object`'s included) first, else the metaclass's `__dict__` entry, and nothing exactly when neither defines the name |
| PyObjects.AliasReceiver | src/nicetv/aliasclassmethod.py:123-128 | on instance access `__orig_class__` if present, else the given owner, else the instance's class |
| PyObjects.TakesAliasGet | src/nicetv/aliasclassmethod.py:123-129 | `_TakesAlias.__get__` binds to that receiver and fails only with neither instance nor owner |
| PyObjects.AcmGet | src/nicetv/mapytype.py:137-145 | a prototype `aliasclassmethod.__get__` binds like `_TakesAlias.__get__`, except that the `tvfind` variant binds the owner as given |
| PyObjects.ExplicitGet | src/nicetv/ga_proxy.py:89 | an explicit `raw.__get__(None, owner)` follows the descriptor protocol and raises for an object without `__get__` |
| PyObjects.ClassGetattr | src/nicetv/ga_proxy.py:91 | `getattr(origin, name)` binds the MRO's entry to the class, else binds a metaclass method to the class or returns a metaclass value, else returns what a metaclass `__getattr__` supplies, else raises `AttributeError` |
| PyObjects.InstanceGetattr | tvfind/mapytype.py:115-116 | an instance's attribute is the class's MRO entry bound with the instance; the metaclass plays no part |
| PyObjects.CallTarget | tvfind/mapytype.py:61-63 | calling a class makes an instance with no `__orig_class__`; calling an alias makes an instance of its origin recording the alias; a wrapper forwards the call to what it wraps |
| PyObjects.ClassTable.SetAttr | src/nicetv/aliasclassmethod.py:99 | setting a class attribute replaces just that entry of that class |
| AliasSuper.BuiltinSuper | src/nicetv/alias_super.py:50-53 | `super(t, obj)` accepts a subclass of `t` or an instance of one and then starts from its class; an object that is neither a class nor an instance, a typing alias included, raises `TypeError` |
| AliasSuper.SuperGetattr | src/nicetv/alias_super.py:19 | lookup starts after `t` in the MRO and binds to the starting class and instance |
| AliasSuper.WSuperInit | src/nicetv/alias_super.py:10-16 | a proxy is replaced by its origin for the builtin `super` and remembered |
| AliasSuper.ExplicitNeedsBoth | src/nicetv/alias_super.py:50-52 | exactly one explicit argument raises `TypeError` |
| AliasSuper.ExplicitIsBuiltin | src/nicetv/alias_super.py:50-53 | both explicit arguments give plain `super(owner, obj)` |
| AliasSuper.NoFrameRaises | src/nicetv/alias_super.py:55-64 | without a caller frame the call raises `RuntimeError` |
| AliasSuper.ContextErrors | src/nicetv/alias_super.py:70-89 | no positional locals, an unbound first argument or a missing `__class__` cell raise `TypeError` |
| AliasSuper.ReceiverDecides | src/nicetv/alias_super.py:91-94 | a proxy first argument gives a `wsuper` over it, any other gives `super(__class__, first)` |
| AliasSuper.WSuperSearchesOrigin | src/nicetv/alias_super.py:10-16 | a `wsuper` over a proxy searches the origin's MRO |
| AliasSuper.WSuperRebinds | src/nicetv/alias_super.py:18-23 | a method carrying the `_TakesAlias` back-reference is rebound to the remembered object |
| AliasSuper.WSuperOtherUnchanged | src/nicetv/alias_super.py:24 | anything else the builtin `super` finds is returned unchanged |
| SuperExample.ProxyFindsOverride | tests/test_typevar_resolution_hypothesis.py:78-82 | `CheckPlainSuper[t].check` is the override bound to the proxy |
| SuperExample.SuperInOverride | tests/test_typevar_resolution_hypothesis.py:78-82 | `super()` inside it is a `wsuper` over `CheckPlainSuper` remembering the proxy |
| SuperExample.WSuperFindsParent | tests/test_typevar_resolution_hypothesis.py:68-72 | `super().check` is `CheckTVCls.check` bound to the same proxy |
| SuperExample.OverrideChainKeepsAlias | tests/test_typevar_resolution_hypothesis.py:156-157 | the whole override chain ends in a resolution to `(t,)` |
| SuperExample.BuiltinSuperLosesAlias | src/nicetv/alias_super.py:94 | with the builtin `super` on the bare class, the parent method is bound to the bare class |
| WrapperProxy.WrapperGetattr | src/nicetv/mapytype.py:161-171 | a wrapper without a known origin raises `AttributeError` |
| WrapperProxy.AcmBoundToAlias | src/nicetv/mapytype.py:165-168 | the prototype's own `aliasclassmethod` is bound to the wrapped alias |
| WrapperProxy.OtherForwardedToOrigin | src/nicetv/mapytype.py:169-171 | everything else is `getattr(origin, name)`, so classmethods see the bare class and a metaclass entry is seen from the origin |
| WrapperProxy.WrapperMissingRaises | src/nicetv/mapytype.py:164 | a name that neither the origin's MRO nor its metaclass defines raises |
| WrapperProxy.Unwrap | src/nicetv/mapytype.py:174 | `getattr(other, slot, other)` strips exactly one wrapper with the same slot name |
| WrapperProxy.WrappersEqualIffInnerEqual | src/nicetv/mapytype.py:173-174 | two wrappers are equal exactly when their aliases are |
| WrapperProxy.WrapperEqualsItsAlias | src/nicetv/mapytype.py:173-174 | a wrapper equals its alias from either side |
| WrapperProxy.EqualValuesHashEqually | src/nicetv/mapytype.py:176-177 | equal objects hash equally |
| WrapperProxy.WrapperForwards | src/nicetv/mapytype.py:157-159 | `__origin__`, `__args__` and calls pass through any number of wrappers to the alias |
| NicetvMapytype.MakePatchedCgi | src/nicetv/mapytype.py:15-69 | no hook exactly when nothing is found; otherwise a wrapping hook over the same base as the library's |
| NicetvMapytype.InitFunc | src/nicetv/mapytype.py:73 | a C-level `__init_subclass__` has no `__func__` and raises `AttributeError`; a classmethod gives its function |
| NicetvMapytype.InstallOutcome | src/nicetv/mapytype.py:86-96 | installation changes only the owner and keeps the table well formed |
| NicetvMapytype.InstallGAProxy | src/nicetv/mapytype.py:86-96 | the assignment-by-assignment method leaves the specified table and error |
| NicetvMapytype.InstallSkips | src/nicetv/mapytype.py:87-89 | a pydantic or already-marked owner is left untouched |
| NicetvMapytype.InstallMarksOwner | src/nicetv/mapytype.py:96 | an installation that raised nothing marks the owner as its own |
| NicetvMapytype.NoHookNoGetitemPatch | src/nicetv/mapytype.py:90-92 | with nothing to wrap, `owner[key]` behaves as before |
| NicetvMapytype.InitAlwaysRewrapped | src/nicetv/mapytype.py:72-83 | an inherited patched hook is wrapped once more around the inherited patch |
| NicetvMapytype.InstalledSubscriptNests | src/nicetv/mapytype.py:62-67 | each installation along a line adds one wrapper around the native alias |
| NicetvMapytype.BuiltinHookBreaksInstall | src/nicetv/mapytype.py:73 | with a C-level inherited hook, installation raises after replacing `__class_getitem__` and without setting the marker |
| NicetvMapytype.FixedInitFunc | src/nicetv/mapytype.py:73 | the corrected read fails only when there is no hook at all, and agrees with the original wherever that succeeds |
| NicetvMapytype.FixedInstallOutcome | src/nicetv/mapytype.py:86-96 | the corrected installation changes only the owner |
| NicetvMapytype.FixedInstallSucceeds | src/nicetv/mapytype.py:86-96 | the corrected installation on any non-pydantic class raises nothing and marks the owner (installation only; subclass creation is not modelled) |
| PrototypeSetName.RawLookup | mapytype.py:18 | the looked-up hook is present exactly when `getattr` succeeds, and is what it returns |
| PrototypeSetName.SetHook | mapytype.py:38-39 | only the owner's hook and flag are assigned |
| PrototypeSetName.SetName | mapytype.py:13-39 | `__set_name__` changes only the owner |
| PrototypeSetName.SetNameOn | mapytype.py:13-39 | the assignment-by-assignment method leaves the specified table |
| PrototypeSetName.SetNameSetsFlag | mapytype.py:39 | afterwards the owner's flag is truthy |
| PrototypeSetName.SetNameOnce | mapytype.py:17 | a second `__set_name__` on the owner changes nothing |
| PrototypeSetName.FlagInherited | mapytype.py:17 | a subclass inherits the flag, so `__set_name__` on it changes nothing |
| PrototypeSetName.RawHookIgnoresReceiver | mapytype.py:29-31 | the installed hook calls the hook bound to the original owner, whichever class receives `[key]` |
| PrototypeSetName.FixedSetName | mapytype.py:13-39 | the corrected `__set_name__` changes only the owner |
| PrototypeSetName.FixedHookUsesReceiver | mapytype.py:29-31 | with the corrected hook, `D[key]` wraps `D`'s own alias for every inheriting class |
| PrototypeDemo.InstallOnC | tvfind/mapytype.py:21-39 | defining `C` installs the hook over `Generic`'s hook bound to `C`, and the flag |
| PrototypeDemo.SubscriptOnC | tvfind/mapytype.py:109 | `C[key]` is a wrapper around `C[key]` |
| PrototypeDemo.CheckClassOnC | tvfind/mapytype.py:111 | `C.check_class()` receives `C` |
| PrototypeDemo.ThroughWrapper | tvfind/mapytype.py:112-113 | `C[key].check_class()` receives the alias; `C[key].normal()` receives `C` |
| PrototypeDemo.OnInstance | tests/test_acm.py:20-27 | `C[key]()` records the bare alias; on it `check_class` receives the alias (`C` in `tvfind`); `normal` receives `C` |
| PrototypeDemo.SubclassNotReinstalled | tvfind/mapytype.py:21 | a subclass inherits the flag and is never installed |
| PrototypeDemo.SubclassSubscriptAsWritten | mapytype.py:29-31 | as written, `D[key]` wraps `C[key]` |
| PrototypeDemo.SubclassSubscriptFixed | mapytype.py:29-31 | corrected, `D[key]` wraps `D[key]` |

## Left out

- `inject_locals` rewrites a function's globals so that `super` means `_super`. The model treats the
  rewritten function as the same function and passes the caller's frame to `AliasSuper.Super`
  explicitly. Bytecode and frame walking (`level`) are not modelled.
- `src/nicetv/type_utils.py`, `generic_restored_basemodel/` and `typeref.py` are not part of this model. Pydantic is a per-class flag plus its
  metadata origin.
- The `print` calls in `src/nicetv/mapytype.py` are output only and are left out.
- Python's recursion limit is the `fuel` bound of `AliasClassMethod.InitSubclassChain`. A chain
  longer than the MRO reports `RecursionError`, which cannot arise for the MROs used here.
- A user-defined `__init_subclass__` hook is taken to call `super().__init_subclass__()` and to
  do nothing else.
- `__init_subclass__` chains in the three prototypes are not modelled as class creation. Their
  effect on each installation is stated by the install lemmas.
- Attributes supplied by a metaclass `__getattr__` (`dynamic`) are returned as they are, unbound.
- Metaclass data descriptors such as `type.__name__` and `type.__mro__`, which `type.__getattribute__` prefers to a class's own entries, are not modelled.
- A metaclass `__dict__` entry is either a plain function or method descriptor, bound to the class on access, or a plain value. A `classmethod`, `staticmethod` or `property` stored on a metaclass is not modelled.
- The example class tables give every class an empty metaclass (`type` without extra entries).
- `typing` arity and variance checks on `C[args]` are left out. `typing.Generic`'s hook always
  builds the alias.
- The assignment to `__orig_class__` is taken to succeed.
- The result of a user-defined `__class_getitem__` is treated as an object with no attributes.
- Instances are compared by value rather than identity.
- `object` is not listed in any MRO. Of its attributes only `__init_subclass__` is modelled; lookups find it after the MRO.
- The tree builder extends `TypeNode.typevars` in place after construction. The model builds
  the finished node as a value, and shared base nodes are equal copies.
- ParamGraph.BasesInRange: bases whose origin is neither `typing.Generic` nor a modelled class (for example `list[T]`) are outside the modelled universe. `make_nodes` raises `IndexError` on such a base (`src/paramsight/paramsight.py:85`), and the model does not capture that.
- NicetvMapytype.FixedInstallSucceeds: covers installation only. Subclass creation under `src/nicetv/mapytype.py` is not modelled; there the kept C-level hook would raise `TypeError` when `orig_init_subclass(cls)` (line 79) runs.
- ParamGraph.MakeGA: the `assert isinstance(ga, type)` of `GenericAliasNode.make` is a
  precondition (a valid type form), not an error path.
- PyObjects.ClassTable.SetAttr: only assignment to a class's own `__dict__` is modelled.
  Descriptors on the metaclass and `__setattr__` overrides are not.

## Findings

| source | as written | input that shows it | evidently intended | confidence | as-written member | corrected member |
|---|---|---|---|---|---|---|
| src/nicetv/mapytype.py:73 | `owner.__init_subclass__.__func__` is read unconditionally after `__class_getitem__` has been replaced | any non-pydantic class using `aliasclassmethod` that defines no Python-level `__init_subclass__`; its hook is `object`'s, or `typing.Generic`'s since Python 3.12, a C-level method without `__func__`. Installation raises `AttributeError` and leaves the class half patched | keep the hook itself when it has no `__func__`, so installation completes and the class is marked. This corrects installation only: the kept C-level hook would still raise `TypeError` when `orig_init_subclass(cls)` (src/nicetv/mapytype.py:79) runs for the first subclass | not executed | NicetvMapytype.BuiltinHookBreaksInstall | NicetvMapytype.FixedInstallSucceeds |
| mapytype.py:29-31 | `_raw(key)` calls the hook bound to the owner at install time and ignores `cls`; `tvfind/mapytype.py:30-32` is the same | `class C[T]` with an `aliasclassmethod`, then `class D[T](C)`, then `D[int]`. The result wraps `C[int]`, whose origin is `C`, not `D` | call the underlying function with the receiving class, as the later `_make_patched_cgi` does, so `D[int]` wraps `D[int]` | not executed | PrototypeDemo.SubclassSubscriptAsWritten | PrototypeDemo.SubclassSubscriptFixed |
