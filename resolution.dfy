/**
  The behaviour of `Container` as functions of its state: resolution (`has`, `get`,
  `reflectArguments`, `getParam`) and registration (`setAlias`, `setArguments`, `set`).
  Every operation returns its result together with the state it leaves behind, also when
  it throws: PHP keeps whatever was written before the exception.
 */
module Resolution {
  import opened Types
  import opened Aliases

  /** The four map fields of a container, plus `next`, the reference the PHP runtime will
      give to the next object it allocates. */
  datatype State = State(
    aliass: map<Id, Id>,
    args: map<Id, map<string, Value>>,
    callbacks: map<Id, Factory>,
    objs: map<Id, Object>,
    next: nat)

  /** A value that is not an object allocated at or after `next`. */
  predicate Allocated(v: Value, next: nat) {
    v.Obj? ==> v.obj.ref < next
  }

  predicate EntryAllocated(e: Entry, next: nat) {
    match e
    case Closure(f) => f.produces.Fixed? ==> Allocated(f.produces.v, next)
    case Plain(o) => o.ref < next
  }

  /** Every object the container can hand out without allocating (a cached one, or one a
      registered factory already holds) was allocated before `next`. */
  ghost predicate Wf(s: State) {
    && (forall k :: k in s.objs ==> s.objs[k].ref < s.next)
    && (forall k :: k in s.callbacks ==> EntryAllocated(Closure(s.callbacks[k]), s.next))
  }

  /** What resolution may do to the state: aliases, overrides and factories stay as they
      are, objects are only allocated, and the cache only gains entries, each under an
      identifier that is not an alias. */
  ghost predicate Extends(s: State, t: State) {
    && t.aliass == s.aliass && t.args == s.args && t.callbacks == s.callbacks
    && s.next <= t.next
    && (forall k :: k in s.objs ==> k in t.objs && t.objs[k] == s.objs[k])
    && (forall k :: k in t.objs && k !in s.objs ==> k !in s.aliass)
    && (Wf(s) ==> Wf(t))
  }

  /** The overrides registered for `c`, `$this->args[$id] ?? []`. */
  function Overrides(s: State, c: Id): (r: map<string, Value>)
    ensures c in s.args ==> r == s.args[c]
    ensures c !in s.args ==> r == map[]
  {
    if c in s.args then s.args[c] else map[]
  }

  /** `has($id)`: whether the canonical identifier is an existing class. */
  function Has(env: Env, aliass: map<Id, Id>, id: Id): (r: Result<bool>)
    ensures r.Failure? <==> GetTrueId(aliass, id).Failure?
    ensures r.Failure? ==> r.error != NotFound
  {
    match GetTrueId(aliass, id)
    case Success(c) => Success(c in env.classes)
    case Failure(e) => Failure(e)
  }

  /** `call_user_func($factory, ...$args)`, with the allocation counter before and after. */
  function Invoke(f: Factory, args: seq<Value>, next: nat): (r: (Value, nat))
    ensures r.1 == next + 1 <==> f.produces.Fresh?
    ensures f.produces.Fixed? ==> r == (f.produces.v, next)
    ensures f.produces.Fresh? ==> r.0.Obj? && r.0.obj == Object(f.produces.cls, next, args)
  {
    match f.produces
    case Fresh(cls) => (Obj(Object(cls, next, args)), next + 1)
    case Fixed(v) => (v, next)
  }

  /** `get($id, $new)`. */
  function Get(env: Env, s: State, id: Id, forceNew: bool, fuel: nat): (r: (Result<Object>, State))
    decreases fuel, 3, 0
    ensures Extends(s, r.1)
    ensures r.0 == Failure(NotFound) ==>
      GetTrueId(s.aliass, id).Success? && GetTrueId(s.aliass, id).value !in env.classes
  {
    match GetTrueId(s.aliass, id)
    case Failure(e) => (Failure(e), s)
    case Success(c) =>
      if forceNew then Build(env, s, c, fuel)
      else if c in s.objs then (Success(s.objs[c]), s)
      else
        var (o, t) := Build(env, s, c, fuel);
        if o.Success? then (o, t.(objs := t.objs[c := o.value])) else (o, t)
  }

  /** The construction shared by both branches of `get` for the canonical identifier `c`:
      the existence check, then the registered factory (with its result checked) or the
      class constructor (with the overrides registered for `c`). */
  function Build(env: Env, s: State, c: Id, fuel: nat): (r: (Result<Object>, State))
    decreases fuel, 2, 0
    ensures Extends(s, r.1)
    ensures r.0 == Failure(NotFound) <==> c !in env.classes
    ensures r.0.Success? ==> IsA(env, Obj(r.0.value), c)
    ensures Wf(s) && r.0.Success? ==> r.0.value.ref < r.1.next
    ensures Wf(s) && r.0.Success? && r.0.value.ref >= s.next ==>
      forall k :: k in r.1.objs ==> r.1.objs[k] != r.0.value
    ensures r.0.Success? && c !in s.callbacks ==>
      r.0.value.cls == c && r.0.value.ref >= s.next && r.0.value.ref < r.1.next
    ensures r.0.Success? && c in s.callbacks ==>
      var y := s.callbacks[c].produces;
      if y.Fixed? then Obj(r.0.value) == y.v else r.0.value.cls == y.cls
    ensures r.0.Success? && c in s.callbacks && s.callbacks[c].produces.Fresh? ==>
      var ps, vs := s.callbacks[c].params, r.0.value.args;
      && r.0.value.ref >= s.next
      && |vs| == |ps|
      && forall i :: 0 <= i < |ps| ==> Acceptable(env, ps[i], vs[i])
    ensures r.0.Success? && c !in s.callbacks && c !in env.ctors ==> r.0.value.args == []
    ensures r.0.Success? && c !in s.callbacks && c in env.ctors ==>
      var ps, ov, vs := env.ctors[c], Overrides(s, c), r.0.value.args;
      && |vs| == |ps|
      && forall i :: 0 <= i < |ps| ==>
           if Overridden(ov, ps[i]) then vs[i] == ov[ps[i].name] else Acceptable(env, ps[i], vs[i])
  {
    if c !in env.classes then (Failure(NotFound), s)
    else if c in s.callbacks then
      var f := s.callbacks[c];
      var (a, t) := Arguments(env, s, f.params, map[], fuel);
      if a.Failure? then (Failure(a.error), t)
      else
        var (v, next) := Invoke(f, a.value, t.next);
        if IsA(env, v, c) then (Success(v.obj), t.(next := next))
        else (Failure(ContainerError(FactoryResultType)), t.(next := next))
    else
      var (a, t) :=
        if c in env.ctors then Arguments(env, s, env.ctors[c], Overrides(s, c), fuel)
        else (Success([]), s);
      if a.Failure? then (Failure(a.error), t)
      else (Success(Object(c, t.next, a.value)), t.(next := t.next + 1))
  }

  /** `reflectArguments`: one value per parameter, in declaration order; a non-null
      override wins, anything else goes to `getParam`. */
  function Arguments(env: Env, s: State, params: seq<Param>, overrides: map<string, Value>, fuel: nat)
    : (r: (Result<seq<Value>>, State))
    decreases fuel, 1, |params|
    ensures Extends(s, r.1)
    ensures r.0.Failure? ==> r.0.error != NotFound
    ensures r.0.Success? ==> |r.0.value| == |params|
    ensures r.0.Success? ==> forall i :: 0 <= i < |params| ==>
      if Overridden(overrides, params[i]) then r.0.value[i] == overrides[params[i].name]
      else Acceptable(env, params[i], r.0.value[i])
  {
    if params == [] then (Success([]), s)
    else
      var p := params[0];
      var (v, t) := if Overridden(overrides, p) then (Success(overrides[p.name]), s) else Param(env, s, p, fuel);
      if v.Failure? then (Failure(v.error), t)
      else
        var (rest, u) := Arguments(env, t, params[1..], overrides, fuel);
        if rest.Failure? then (Failure(rest.error), u) else (Success([v.value] + rest.value), u)
  }

  /** `getParam`: for a parameter of a non-builtin type that `has` accepts, the object
      `get` returns for that type when it is an instance of it; otherwise `Fallback`. */
  function Param(env: Env, s: State, p: Param, fuel: nat): (r: (Result<Value>, State))
    decreases fuel, 0, 0
    ensures Extends(s, r.1)
    ensures r.0.Failure? ==> r.0.error != NotFound
    ensures r.0.Success? ==> Acceptable(env, p, r.0.value)
    ensures !Autowired(p) ==> r == (Fallback(p), s)
    ensures r.0.Failure? && Fallback(p).Success? ==> Autowired(p)
    ensures r.0.Success? && !(Autowired(p) && IsA(env, r.0.value, p.hint.value.name)) ==>
      r.0 == Fallback(p)
  {
    if !Autowired(p) then (Fallback(p), s)
    else
      var t := p.hint.value.name;
      match Has(env, s.aliass, t)
      case Failure(e) => (Failure(e), s)
      case Success(found) =>
        if !found then (Fallback(p), s)
        else if fuel == 0 then (Failure(FuelExhausted), s)
        else
          var (g, u) := Get(env, s, t, false, fuel - 1);
          if g.Failure? then (Failure(g.error), u)
          else if IsA(env, Obj(g.value), t) then (Success(Obj(g.value)), u)
          else (Fallback(p), u)
  }

  /** Moves the entry of `from`, if any, to `to` (`$m[$to] = $m[$from]; unset($m[$from]);`).
      When `from == to` this deletes the entry. */
  function Migrate<V>(m: map<Id, V>, from: Id, to: Id): (r: map<Id, V>)
    ensures from !in r
    ensures from in m && from != to ==> to in r && r[to] == m[from]
    ensures from !in m ==> r == m
    ensures forall k :: k != from && k != to ==> (k in r <==> k in m) && (k in r ==> r[k] == m[k])
  {
    if from in m then m[to := m[from]] - {from} else m
  }

  /** `setAlias($from, $to)`: writes the alias, moves the state of `from` to `to`, then
      resolves `to` (which may throw, leaving everything written so far in place) and moves
      the state of `to` on to its canonical identifier. */
  function SetAlias(s: State, from: Id, to: Id): (r: (Result<()>, State))
    ensures r.1.aliass == s.aliass[from := to] && r.1.next == s.next
    ensures r.0.Failure? <==> GetTrueId(s.aliass[from := to], to).Failure?
    ensures r.0.Failure? ==> r.0.error == GetTrueId(s.aliass[from := to], to).error
    ensures r.0.Failure? ==>
      && r.1.objs == Migrate(s.objs, from, to)
      && r.1.args == Migrate(s.args, from, to)
      && r.1.callbacks == Migrate(s.callbacks, from, to)
    ensures Wf(s) ==> Wf(r.1)
  {
    var a := s.aliass[from := to];
    var t := State(a, Migrate(s.args, from, to), Migrate(s.callbacks, from, to), Migrate(s.objs, from, to), s.next);
    match GetTrueId(a, to)
    case Failure(e) => (Failure(e), t)
    case Success(c) =>
      if c != to then
        (Success(()), t.(args := Migrate(t.args, to, c), callbacks := Migrate(t.callbacks, to, c),
                         objs := Migrate(t.objs, to, c)))
      else (Success(()), t)
  }

  /** `setArguments($id, $args)`: stores the overrides under the canonical identifier and
      evicts its cached object; nothing else changes. */
  function SetArguments(s: State, id: Id, overrides: map<string, Value>): (r: (Result<()>, State))
    ensures r.0.Failure? <==> GetTrueId(s.aliass, id).Failure?
    ensures r.0.Failure? ==> r == (Failure(GetTrueId(s.aliass, id).error), s)
    ensures r.0.Success? ==>
      var c := GetTrueId(s.aliass, id).value;
      && r.1.args == s.args[c := overrides]
      && c !in r.1.objs
      && (forall k :: k in s.objs && k != c ==> k in r.1.objs && r.1.objs[k] == s.objs[k])
      && r.1.objs.Keys <= s.objs.Keys
      && r.1.aliass == s.aliass && r.1.callbacks == s.callbacks && r.1.next == s.next
    ensures Wf(s) ==> Wf(r.1)
  {
    match GetTrueId(s.aliass, id)
    case Failure(e) => (Failure(e), s)
    case Success(c) => (Success(()), s.(args := s.args[c := overrides], objs := s.objs - {c}))
  }

  /** `set($id, $object)`: a closure becomes the factory of the canonical identifier and
      the cache is left alone; any other object must be an instance of the canonical
      identifier and becomes its cached object. */
  function Set(env: Env, s: State, id: Id, entry: Entry): (r: (Result<()>, State))
    ensures r.0.Failure? ==> r.1 == s
    ensures r.0.Failure? <==>
      GetTrueId(s.aliass, id).Failure? || (entry.Plain? && !IsA(env, Obj(entry.obj), GetTrueId(s.aliass, id).value))
    ensures r.0.Success? && entry.Closure? ==>
      r.1 == s.(callbacks := s.callbacks[GetTrueId(s.aliass, id).value := entry.factory])
    ensures r.0.Success? && entry.Plain? ==>
      r.1 == s.(objs := s.objs[GetTrueId(s.aliass, id).value := entry.obj])
    ensures Wf(s) && EntryAllocated(entry, s.next) ==> Wf(r.1)
  {
    match GetTrueId(s.aliass, id)
    case Failure(e) => (Failure(e), s)
    case Success(c) =>
      match entry
      case Closure(f) => (Success(()), s.(callbacks := s.callbacks[c := f]))
      case Plain(o) =>
        if !IsA(env, Obj(o), c) then (Failure(ContainerError(ObjectType)), s)
        else (Success(()), s.(objs := s.objs[c := o]))
  }
}
