/**
  The static metadata that stands in for PHP reflection, the values the container
  hands around, and the error kinds it raises.
 */
module Types {

  /** A class name or any other identifier used as a key of the container's maps. */
  type Id = string

  datatype Option<+T> = None | Some(value: T)

  /** An error kind. `NotFound` and every `ContainerError` are exceptions the PHP throws
      (`NotFoundException` extends `ContainerException`). `EndlessRecursion` stands for a
      call that the PHP never finishes; `FuelExhausted` is the model's bound on how deeply
      `get` may nest and has no PHP counterpart. */
  datatype Error =
    | NotFound
    | ContainerError(reason: Reason)
    | EndlessRecursion
    | FuelExhausted

  /** Which `throw new ContainerException(...)` raised a `ContainerError`. */
  datatype Reason =
    | AliasLoop              // getTrueId: the alias chain came back to its origin
    | FactoryResultType      // get: a factory returned something that is not an instance
    | ObjectType             // set: a plain object that is not an instance of the id
    | UnresolvedParameter    // getParam: no override, autowiring, default or optionality

  datatype Result<+T> = Success(value: T) | Failure(error: Error)

  /** True of the errors that surface in PHP as a thrown `ContainerException`. */
  predicate IsContainerException(e: Error) {
    e.NotFound? || e.ContainerError?
  }

  /** An object: the class it was instantiated from, a reference that identifies it, and
      the argument list it was constructed with. Two objects are the same object exactly
      when their references agree (each allocation uses a new reference). */
  datatype Object = Object(cls: Id, ref: nat, args: seq<Value>)

  /** A PHP value as far as the container cares: null, some scalar or array, or an object. */
  datatype Value = Null | Scalar(text: string) | Obj(obj: Object)

  /** A declared parameter type: its name and whether it is a builtin (int, string, ...). */
  datatype TypeHint = TypeHint(name: Id, builtin: bool)

  /** A formal parameter as reflection reports it. */
  datatype Param = Param(name: string, hint: Option<TypeHint>, default: Option<Value>, optional: bool)

  /** What invoking a factory yields: a newly allocated object of some class built from
      the factory's arguments, or a value the closure already holds. */
  datatype Yield = Fresh(cls: Id) | Fixed(v: Value)

  /** A registered factory closure: an identity, its formal parameters and what it yields. */
  datatype Factory = Factory(fid: nat, params: seq<Param>, produces: Yield)

  /** The `object $object` argument of `set`: a `Closure` or any other object. */
  datatype Entry = Closure(factory: Factory) | Plain(obj: Object)

  /** The program's classes: which names `class_exists` accepts, the proper
      subclass/implements pairs behind `is_a` and `instanceof`, and the parameters of each
      class's constructor (absent when `getConstructor()` is null). */
  datatype Env = Env(classes: set<Id>, supertypes: set<(Id, Id)>, ctors: map<Id, seq<Param>>)

  /** `is_a($v, $id)` for a value, and `$v instanceof $id` for an object. */
  predicate IsA(env: Env, v: Value, id: Id) {
    v.Obj? && (v.obj.cls == id || (v.obj.cls, id) in env.supertypes)
  }

  /** A parameter that `getParam` tries to autowire: its declared type is not a builtin. */
  predicate Autowired(p: Param) {
    p.hint.Some? && !p.hint.value.builtin
  }

  /** An override that `$default[$name] ?? ...` takes: present and not null. */
  predicate Overridden(overrides: map<string, Value>, p: Param) {
    p.name in overrides && overrides[p.name] != Null
  }

  /** The tail of `getParam`: the declared default, else null for an optional parameter,
      else the "Unable to resolve a value for parameter" exception. */
  function Fallback(p: Param): (r: Result<Value>)
    ensures r.Failure? <==> p.default.None? && !p.optional
    ensures r.Failure? ==> r.error == ContainerError(UnresolvedParameter)
    ensures r.Success? ==> r.value == (if p.default.Some? then p.default.value else Null)
  {
    if p.default.Some? then Success(p.default.value)
    else if p.optional then Success(Null)
    else Failure(ContainerError(UnresolvedParameter))
  }

  /** The values `getParam` can produce for `p`: an instance of its declared class type
      (only when that type is not a builtin), or what `Fallback` gives. */
  predicate Acceptable(env: Env, p: Param, v: Value) {
    (Autowired(p) && IsA(env, v, p.hint.value.name)) || Fallback(p) == Success(v)
  }
}
