/**
 * The static shape of Python generic classes, as the resolution graph reads it through
 * `typing` introspection: each class has an ordered list of type parameters (each with a
 * default, possibly the `typing.NoDefault` sentinel, and a bound, possibly `None`) and an
 * ordered list of original bases, each either a bare class or a class applied to arguments.
 */
module PyTypes {

  /** Classes are numbered in definition order; a class can only name earlier classes as bases. */
  type ClassId = nat

  /** `typing.Generic`, which the graph builder skips when it follows a base. */
  const GenericId: ClassId := 0

  /**
   * A type variable object. `name` stands for its identity; the builder's `t is param`
   * test is equality of these values.
   */
  datatype TypeVar = TypeVar(name: nat, default: Value, bound: Value)

  /**
   * A runtime type-level value: a class or other concrete type, a nested alias such as
   * `list[T]`, the `typing.NoDefault` sentinel, or `None`.
   */
  datatype Value =
    | Type(id: nat)
    | Nested(origin: ClassId, args: seq<Arg>)
    | NoDefault
    | PyNone

  /** One entry of an alias's `__args__`: a value, or a type variable passed through. */
  datatype Arg = Concrete(v: Value) | TypeVarRef(tv: TypeVar)

  /** Python truthiness of a value: only `None` is falsy (`NoDefault` is truthy). */
  predicate Truthy(v: Value) {
    !v.PyNone?
  }

  /** A bare class, or a generic alias: a class applied to arguments. */
  datatype TypeForm = Plain(cls: ClassId) | Alias(origin: ClassId, args: seq<Arg>)

  /** `typing.get_origin` for aliases; the class itself otherwise. */
  function Origin(f: TypeForm): ClassId {
    match f
    case Plain(c) => c
    case Alias(o, _) => o
  }

  /** `get_args_robust`: the alias arguments, and `()` for a bare class. */
  function ArgsOf(f: TypeForm): seq<Arg> {
    match f
    case Plain(_) => []
    case Alias(_, args) => args
  }

  datatype ClassInfo = ClassInfo(params: seq<TypeVar>, bases: seq<TypeForm>)

  /** Every class the program has defined, indexed by `ClassId`. */
  type Table = seq<ClassInfo>

  /**
   * A type form that can occur in a program whose classes are the first `below` entries
   * of `t`: its origin exists, and an alias of a class other than `typing.Generic` has one
   * argument per parameter (`typing` rejects any other arity, and fills in defaults).
   */
  predicate ValidForm(t: Table, f: TypeForm, below: nat)
    requires below <= |t|
  {
    && Origin(f) < below
    && (f.Alias? && f.origin != GenericId ==> |f.args| == |t[f.origin].params|)
  }

  /** Well-formed class table: bases name earlier classes; `typing.Generic` has no parameters. */
  predicate ValidTable(t: Table) {
    && |t| > 0
    && t[GenericId].params == []
    && forall c, k :: 0 <= c < |t| && 0 <= k < |t[c].bases| ==> ValidForm(t, t[c].bases[k], c)
  }

  /** `get_num_typevars`: the number of type parameters of a class. */
  function NumTypevars(t: Table, c: ClassId): nat
    requires c < |t|
  {
    |t[c].params|
  }
}
