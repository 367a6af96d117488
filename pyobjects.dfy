/**
 * The slice of the Python object model that alias-aware dispatch manipulates: class
 * objects with their own `__dict__` entries and their method resolution order, the
 * member objects stored there (functions, `classmethod` objects and the library's own
 * descriptors and closures), generic aliases and proxies, and the two attribute lookups
 * the code uses, `inspect.getattr_static` and ordinary `getattr` with descriptor binding.
 */
module PyObjects {
  import opened Wrappers
  import opened PyTypes

  type Name = string

  const ClassGetitemName: Name := "__class_getitem__"
  const InitSubclassName: Name := "__init_subclass__"
  /** The attribute `_install_ga_proxy` (and the prototypes' `__set_name__`) use as a marker. */
  const MarkerName: Name := "_ga_proxy_installed__"
  const PatchedInitSubclassName: Name := "_patched_init_subclass"
  const PatchedCgiName: Name := "_patched_cgi"

  /** The three prototype modules, each with its own `aliasclassmethod` and wrapper `_GAProxy`. */
  datatype Proto = NicetvProto | RootProto | TvfindProto

  datatype PyError = AttributeError | TypeError | ValueError | AssertionError | RuntimeError | RecursionError

  /** The four fields a `typing._GenericAlias` is rebuilt from: `__origin__`, `__args__`, `_inst`, `_name`. */
  datatype AliasObj = AliasObj(origin: ClassId, args: seq<Arg>, inst: bool, name: Option<Name>)

  /**
   * An object stored as a class attribute.
   * `flag` is the truthiness of the object's `_acm_takes_alias` attribute, `taRef` whether
   * a function carries the back-reference `_TakesAlias.__init__` sets on it.
   */
  datatype Obj =
    | Function(fname: Name, id: nat, flag: bool, taRef: bool)
    | ClassMethod(func: Obj, flag: bool)
    | TakesAlias(func: Obj)
    | StaticMethod(func: Obj)
      /** A prototype module's `aliasclassmethod` descriptor. */
    | Acm(func: Obj, proto: Proto)
      /** The function behind `typing.Generic.__class_getitem__`. */
    | GenericHook
      /** `_patched_cgi` of `src/nicetv/aliasclassmethod.py`, closing over the base hook. */
    | PatchedCgi(base: Obj)
      /** `_patched_init_subclass` of `src/nicetv/aliasclassmethod.py`, closing over its owner. */
    | PatchedInitSubclass(owner: ClassId)
      /** `_patched_cgi` of `src/nicetv/mapytype.py`, closing over the base hook. */
    | WrapCgi(base: Obj)
      /** `_patched_init_subclass` of `src/nicetv/mapytype.py`, closing over the original hook. */
    | OrigHookPatch(owner: ClassId, orig: Obj)
      /** `_patched_cgi` of the root and `tvfind` prototypes, closing over the looked-up hook (or `None`). */
    | RawCgi(raw: Option<Attr>, proto: Proto)
      /** The same hook as `RawCgi`, except that a looked-up bound method's `__func__` is called with the receiving class. */
    | FixedRawCgi(raw: Option<Attr>, proto: Proto)
      /** A C-level method descriptor such as `object.__init_subclass__`: it has no `__func__`. */
    | BuiltinHook
    | ClassRef(c: ClassId)
    | Flag(b: bool)
    | Other(id: nat, flag: bool)

  /** What an attribute access produces. */
  datatype Attr =
      /** A bound method: `__func__` and `__self__`. */
    | Bound(func: Obj, recv: Target)
      /** An object returned as it is stored. */
    | Stored(value: Obj)
      /** An attribute the alias object answers itself (its fields and `typing._GenericAlias` methods). */
    | AliasField(alias: AliasObj, name: Name)

  /** An instance of a modelled class, with its `__orig_class__` if the instance has one. */
  datatype Instance = Instance(cls: ClassId, origClass: Option<Target>)

  /** The things a method can be bound to, and the things `C[...]` and calls produce. */
  datatype Target =
    | Cls(c: ClassId)
      /** A plain `typing._GenericAlias`. */
    | GA(alias: AliasObj)
      /** `_GAProxy` of `src/nicetv/ga_proxy.py`: a `typing._GenericAlias` subclass. */
    | Proxy(alias: AliasObj)
      /** A prototype module's wrapper `_GAProxy`, holding the wrapped object. */
    | Wrapped(inner: Target, proto: Proto)
    | Inst(inst: Instance)
      /** Whatever a user-defined `__class_getitem__` returns for this receiver and key. */
    | HookResult(hook: Obj, recv: Option<ClassId>, key: seq<Arg>)

  /**
   * An entry of the metaclass's `__dict__`s (along the metaclass's MRO, `type`'s own entries
   * included, the first definition winning): a function or C-level method such as
   * `type.mro`, which ordinary `getattr` on the class binds to the class, or an object
   * without `__get__`, returned as it is.
   */
  datatype MetaEntry = MetaMethod(func: Obj) | MetaValue(value: Obj)

  /**
   * A class object: its own `__dict__`, its MRO (itself first), whether it is a pydantic
   * model class, the `origin` entry of its pydantic generic metadata, the entries its
   * metaclass's `__dict__`s supply, and the attributes a metaclass `__getattr__` supplies
   * for names found nowhere else (returned as they are).
   */
  datatype ClassRec = ClassRec(
    own: map<Name, Obj>,
    mro: seq<ClassId>,
    isPydantic: bool,
    pydanticOrigin: Option<ClassId>,
    meta: map<Name, MetaEntry>,
    dynamic: map<Name, Obj>)

  /** The class an alias or wrapper stands for, read through `__origin__`. */
  function TargetOrigin(x: Target): Option<ClassId> {
    match x
    case GA(a) => Some(a.origin)
    case Proxy(a) => Some(a.origin)
    case Wrapped(inner, _) => TargetOrigin(inner)
    case _ => None
  }

  /** Every class object of the program, indexed by `ClassId`. */
  type World = seq<ClassRec>

  predicate MroIn(w: World, mro: seq<ClassId>) {
    forall i :: 0 <= i < |mro| ==> mro[i] < |w|
  }

  /** Each class's MRO starts with the class itself and names only existing classes. */
  predicate WellFormed(w: World) {
    forall c :: 0 <= c < |w| ==> |w[c].mro| > 0 && w[c].mro[0] == c && MroIn(w, w[c].mro)
  }

  /** The first position at or after `from` in `mro` whose class defines `name` itself. */
  function Defining(w: World, mro: seq<ClassId>, name: Name, from: nat): (r: Option<nat>)
    requires MroIn(w, mro)
    ensures r.Some? ==> from <= r.value < |mro| && name in w[mro[r.value]].own
    ensures r.Some? ==> forall j :: from <= j < r.value ==> name !in w[mro[j]].own
    ensures r.None? ==> forall j :: from <= j < |mro| ==> name !in w[mro[j]].own
    decreases |mro| - from
  {
    if from >= |mro| then None
    else if name in w[mro[from]].own then Some(from)
    else Defining(w, mro, name, from + 1)
  }

  /**
   * The entries of `object`'s `__dict__` the model uses: its C-level `__init_subclass__`.
   * `object` ends every MRO but is not listed in the modelled ones, so it is consulted after them.
   */
  function ObjectEntry(name: Name): (r: Option<Obj>)
    ensures r.Some? <==> name == InitSubclassName
    ensures r.Some? ==> r.value == BuiltinHook
  {
    if name == InitSubclassName then Some(BuiltinHook) else None
  }

  /**
   * The raw `__dict__` entry of the first class along `mro` from position `from` on, `object`
   * at the end included, that defines `name`.
   */
  function MroEntry(w: World, mro: seq<ClassId>, name: Name, from: nat): (r: Option<Obj>)
    requires MroIn(w, mro)
    ensures Defining(w, mro, name, from).Some? ==> r == Some(w[mro[Defining(w, mro, name, from).value]].own[name])
    ensures Defining(w, mro, name, from).None? ==> r == ObjectEntry(name)
  {
    match Defining(w, mro, name, from)
    case None => ObjectEntry(name)
    case Some(k) => Some(w[mro[k]].own[name])
  }

  /** The raw entry of the first class in `C`'s MRO that defines `name`, as the interpreter's type lookup finds it. */
  function MroLookup(w: World, c: ClassId, name: Name): (r: Option<Obj>)
    requires WellFormed(w) && c < |w|
    ensures name in w[c].own ==> r == Some(w[c].own[name])
    ensures r.None? <==> ObjectEntry(name).None? && forall j :: 0 <= j < |w[c].mro| ==> name !in w[w[c].mro[j]].own
  {
    MroEntry(w, w[c].mro, name, 0)
  }

  /** The object a metaclass entry holds. */
  function MetaRaw(e: MetaEntry): Obj {
    match e
    case MetaMethod(f) => f
    case MetaValue(v) => v
  }

  /**
   * `inspect.getattr_static(C, name)` for a class: the raw entry along the class's MRO;
   * failing that, the raw entry along its metaclass's MRO.
   */
  function StaticLookup(w: World, c: ClassId, name: Name): (r: Option<Obj>)
    requires WellFormed(w) && c < |w|
    ensures name in w[c].own ==> r == Some(w[c].own[name])
    ensures MroLookup(w, c, name).Some? ==> r == MroLookup(w, c, name)
    ensures MroLookup(w, c, name).None? ==> r == if name in w[c].meta then Some(MetaRaw(w[c].meta[name])) else None
    ensures r.None? <==> MroLookup(w, c, name).None? && name !in w[c].meta
  {
    match MroLookup(w, c, name)
    case Some(raw) => Some(raw)
    case None => if name in w[c].meta then Some(MetaRaw(w[c].meta[name])) else None
  }

  /** The classes whose own `__dict__` entries are plain functions (every closure the library builds is one). */
  predicate IsFunction(o: Obj) {
    o.Function? || o.GenericHook? || o.PatchedCgi? || o.PatchedInitSubclass? || o.WrapCgi? || o.OrigHookPatch? || o.RawCgi? || o.FixedRawCgi?
  }

  /** Objects whose type defines `__get__`. */
  predicate IsDescriptor(o: Obj) {
    !(o.ClassRef? || o.Flag? || o.Other?)
  }

  /** `isinstance(o, classmethod)`; `_TakesAlias` subclasses `classmethod`. */
  predicate IsClassMethod(o: Obj) {
    o.ClassMethod? || o.TakesAlias?
  }

  /** `hasattr(o, "__func__")`. */
  predicate HasFunc(o: Obj) {
    o.ClassMethod? || o.TakesAlias? || o.StaticMethod?
  }

  /** `o.__name__`, where the object has one. */
  function FuncName(o: Obj): Option<Name> {
    match o
    case Function(n, _, _, _) => Some(n)
    case GenericHook => Some(ClassGetitemName)
    case PatchedCgi(_) => Some(PatchedCgiName)
    case WrapCgi(_) => Some(PatchedCgiName)
    case RawCgi(_, _) => Some(PatchedCgiName)
    case FixedRawCgi(_, _) => Some(PatchedCgiName)
    case PatchedInitSubclass(_) => Some(PatchedInitSubclassName)
    case OrigHookPatch(_, _) => Some(PatchedInitSubclassName)
    case BuiltinHook => Some(InitSubclassName)
    case _ => None
  }

  /**
   * The receiver the library's `__get__` overrides choose: on instance access the
   * instance's `__orig_class__` if it has one, else the given owner, else the instance's
   * class; on class access the owner as given.
   */
  function AliasReceiver(instance: Option<Instance>, owner: Option<Target>): (r: Option<Target>)
    ensures instance.Some? && instance.value.origClass.Some? ==> r == instance.value.origClass
    ensures instance.Some? && instance.value.origClass.None? && owner.Some? ==> r == owner
    ensures instance.Some? && instance.value.origClass.None? && owner.None? ==> r == Some(Cls(instance.value.cls))
    ensures instance.None? ==> r == owner
  {
    match instance
    case None => owner
    case Some(i) =>
      if i.origClass.Some? then i.origClass
      else if owner.None? then Some(Cls(i.cls))
      else owner
  }

  /**
   * `_TakesAlias.__get__`: the receiver choice, then `classmethod.__get__`, which refuses
   * `__get__(None, None)`.
   */
  function TakesAliasGet(f: Obj, instance: Option<Instance>, owner: Option<Target>): (r: Result<Attr, PyError>)
    ensures r.Ok? <==> instance.Some? || owner.Some?
    ensures r.Ok? ==> r.value == Bound(f, AliasReceiver(instance, owner).value)
  {
    var recv := AliasReceiver(instance, owner);
    if recv.None? then Err(TypeError) else Ok(Bound(f, recv.value))
  }

  /**
   * A prototype `aliasclassmethod.__get__`: `types.MethodType(func, receiver)`, where the
   * `tvfind` prototype ignores the instance and binds the owner as given, and
   * `MethodType(func, None)` raises `TypeError`.
   */
  function AcmGet(proto: Proto, f: Obj, instance: Option<Instance>, owner: Option<Target>): (r: Result<Attr, PyError>)
    ensures proto == TvfindProto ==> r == if owner.None? then Err(TypeError) else Ok(Bound(f, owner.value))
    ensures proto != TvfindProto ==> r == TakesAliasGet(f, instance, owner)
  {
    var recv := if proto == TvfindProto then owner else AliasReceiver(instance, owner);
    if recv.None? then Err(TypeError) else Ok(Bound(f, recv.value))
  }

  /** The descriptor protocol for a raw class attribute reached with the given instance and owner. */
  function Bind(raw: Obj, instance: Option<Instance>, owner: Target): (r: Result<Attr, PyError>)
    ensures raw.ClassMethod? ==> r == Ok(Bound(raw.func, owner))
    ensures raw.TakesAlias? ==> r == TakesAliasGet(raw.func, instance, Some(owner))
    ensures !IsDescriptor(raw) ==> r == Ok(Stored(raw))
    ensures r.Ok?
  {
    match raw
    case ClassMethod(f, _) => Ok(Bound(f, owner))
    case TakesAlias(f) => TakesAliasGet(f, instance, Some(owner))
    case StaticMethod(f) => Ok(Stored(f))
    case Acm(f, proto) => AcmGet(proto, f, instance, Some(owner))
    case BuiltinHook => Ok(Bound(raw, owner))
    case _ =>
      match instance
      case Some(i) => if IsFunction(raw) then Ok(Bound(raw, Inst(i))) else Ok(Stored(raw))
      case None => Ok(Stored(raw))
  }

  /** An explicit `raw.__get__(None, owner)` call: an object without `__get__` raises `AttributeError`. */
  function ExplicitGet(raw: Obj, owner: Target): (r: Result<Attr, PyError>)
    ensures IsDescriptor(raw) ==> r == Bind(raw, None, owner)
    ensures !IsDescriptor(raw) ==> r == Err(AttributeError)
  {
    if IsDescriptor(raw) then Bind(raw, None, owner) else Err(AttributeError)
  }

  /** A metaclass entry reached through the class `c`: a method is bound to `c`. */
  function MetaGet(e: MetaEntry, c: ClassId): (r: Result<Attr, PyError>)
    ensures e.MetaMethod? ==> r == Ok(Bound(e.func, Cls(c)))
    ensures e.MetaValue? ==> r == Ok(Stored(e.value))
  {
    match e
    case MetaMethod(f) => Ok(Bound(f, Cls(c)))
    case MetaValue(v) => Ok(Stored(v))
  }

  /**
   * `getattr(C, name)` for a class: the entry found along the MRO bound with no instance and
   * `C` as owner; failing that, the metaclass's entry bound to `C`; failing that, what the
   * metaclass's `__getattr__` supplies; failing that, `AttributeError`.
   */
  function ClassGetattr(w: World, c: ClassId, name: Name): (r: Result<Attr, PyError>)
    requires WellFormed(w) && c < |w|
    ensures MroLookup(w, c, name).Some? ==> r == Bind(MroLookup(w, c, name).value, None, Cls(c))
    ensures MroLookup(w, c, name).None? && name in w[c].meta ==> r == MetaGet(w[c].meta[name], c)
    ensures StaticLookup(w, c, name).None? ==> r == if name in w[c].dynamic then Ok(Stored(w[c].dynamic[name])) else Err(AttributeError)
  {
    match MroLookup(w, c, name)
    case Some(raw) => Bind(raw, None, Cls(c))
    case None =>
      if name in w[c].meta then MetaGet(w[c].meta[name], c)
      else if name in w[c].dynamic then Ok(Stored(w[c].dynamic[name])) else Err(AttributeError)
  }

  /**
   * `getattr(obj, name)` for an instance without an instance `__dict__` entry of that name:
   * the class attribute bound with the instance and its class (the metaclass plays no part).
   */
  function InstanceGetattr(w: World, i: Instance, name: Name): (r: Result<Attr, PyError>)
    requires WellFormed(w) && i.cls < |w|
    ensures MroLookup(w, i.cls, name).Some? ==> r == Bind(MroLookup(w, i.cls, name).value, Some(i), Cls(i.cls))
    ensures MroLookup(w, i.cls, name).None? ==> r == Err(AttributeError)
  {
    match MroLookup(w, i.cls, name)
    case Some(raw) => Bind(raw, Some(i), Cls(i.cls))
    case None => Err(AttributeError)
  }

  /** `hasattr(C, name)` for a class. */
  predicate ClassHasAttr(w: World, c: ClassId, name: Name)
    requires WellFormed(w) && c < |w|
  {
    ClassGetattr(w, c, name).Ok?
  }

  /** `setattr(C, name, o)`: only `C`'s own `__dict__` changes. */
  function SetOwn(w: World, c: ClassId, name: Name, o: Obj): (w': World)
    requires c < |w|
    ensures |w'| == |w|
    ensures w'[c].own == w[c].own[name := o]
    ensures SameShape(w, w')
    ensures forall d :: 0 <= d < |w| && d != c ==> w'[d] == w[d]
  {
    w[c := w[c].(own := w[c].own[name := o])]
  }

  /**
   * `w'` differs from `w` at most in the classes' own `__dict__` entries: the same classes,
   * MROs, pydantic status and metaclass entries and attributes.
   */
  predicate SameShape(w: World, w': World) {
    && |w'| == |w|
    && forall d :: 0 <= d < |w| ==>
         && w'[d].mro == w[d].mro && w'[d].isPydantic == w[d].isPydantic
         && w'[d].pydanticOrigin == w[d].pydanticOrigin && w'[d].meta == w[d].meta
         && w'[d].dynamic == w[d].dynamic
  }

  /** Attribute assignments keep the world's shape, hence its well-formedness. */
  lemma SameShapeWellFormed(w: World, w': World)
    requires WellFormed(w) && SameShape(w, w')
    ensures WellFormed(w')
  {
    forall d | 0 <= d < |w'| ensures |w'[d].mro| > 0 && w'[d].mro[0] == d && MroIn(w', w'[d].mro) {
      assert w'[d].mro == w[d].mro;
    }
  }

  /** The first position of `c` in an MRO. */
  function IndexOf(mro: seq<ClassId>, c: ClassId): (r: Option<nat>)
    ensures r.Some? ==> r.value < |mro| && mro[r.value] == c && forall j :: 0 <= j < r.value ==> mro[j] != c
    ensures r.None? <==> c !in mro
  {
    if |mro| == 0 then None
    else if mro[0] == c then Some(0)
    else match IndexOf(mro[1..], c)
      case None => None
      case Some(k) => Some(k + 1)
  }

  /**
   * `types.GenericAlias`/`typing._GenericAlias` construction by `typing.Generic.__class_getitem__`
   * for a receiver and key; `_inst` is set and `_name` is `None` for user classes.
   */
  function GenericAlias(c: ClassId, key: seq<Arg>): (r: AliasObj)
    ensures r.origin == c && r.args == key
  {
    AliasObj(c, key, true, None)
  }

  /**
   * Calling a class, an alias or a proxy: a new instance of the origin. A typing alias and
   * the `src/nicetv/ga_proxy.py` proxy record themselves as the instance's `__orig_class__`;
   * a prototype wrapper calls the object it wraps.
   */
  function CallTarget(x: Target): (r: Result<Target, PyError>)
    ensures x.Cls? ==> r == Ok(Inst(Instance(x.c, None)))
    ensures x.GA? || x.Proxy? ==> r == Ok(Inst(Instance(x.alias.origin, Some(x))))
    ensures x.Wrapped? ==> r == CallTarget(x.inner)
  {
    match x
    case Cls(c) => Ok(Inst(Instance(c, None)))
    case GA(a) => Ok(Inst(Instance(a.origin, Some(x))))
    case Proxy(a) => Ok(Inst(Instance(a.origin, Some(x))))
    case Wrapped(inner, _) => CallTarget(inner)
    case Inst(_) => Err(TypeError)
    case HookResult(_, _, _) => Err(TypeError)
  }

  /** The program's classes as one mutable table: assigning a class attribute updates it in place. */
  class ClassTable {
    var classes: World

    constructor(w: World)
      ensures classes == w
    {
      classes := w;
    }

    /** `setattr(C, name, o)` on the class `c`. */
    method SetAttr(c: ClassId, name: Name, o: Obj)
      requires c < |classes|
      modifies this
      ensures classes == SetOwn(old(classes), c, name, o)
    {
      classes := SetOwn(classes, c, name, o);
    }
  }
}
