/**
  The `Container` class itself: four map fields updated in place, with each public
  method proved to behave as the corresponding function of `Resolution`.
 */
module ContainerModel {
  import opened Types
  import opened Aliases
  import opened Resolution
  import ResolutionFacts

  /** The PHP runtime's object allocator: each object it makes gets a reference that no
      earlier object has. */
  class Runtime {
    var next: nat

    constructor ()
      ensures next == 0
    {
      next := 0;
    }

    /** `$reflector->newInstanceArgs($args)`: a new object of class `cls`. */
    method Instantiate(cls: Id, args: seq<Value>) returns (o: Object)
      modifies this
      ensures o == Object(cls, old(next), args) && next == old(next) + 1
    {
      o := Object(cls, next, args);
      next := next + 1;
    }

    /** `call_user_func($factory, ...$args)`. */
    method Call(f: Factory, args: seq<Value>) returns (v: Value)
      modifies this
      ensures (v, next) == Invoke(f, args, old(next))
    {
      match f.produces
      case Fresh(cls) =>
        var o := Instantiate(cls, args);
        v := Obj(o);
      case Fixed(x) =>
        v := x;
    }
  }

  /** The arguments collected so far in front of the outcome for the remaining ones. */
  ghost function Prepend(vs: seq<Value>, r: (Result<seq<Value>>, State)): (Result<seq<Value>>, State)
  {
    if r.0.Success? then (Success(vs + r.0.value), r.1) else r
  }

  lemma PrependTwice(vs: seq<Value>, ws: seq<Value>, r: (Result<seq<Value>>, State))
    ensures Prepend(vs, Prepend(ws, r)) == Prepend(vs + ws, r)
  {
    if r.0.Success? {
      assert vs + (ws + r.0.value) == vs + ws + r.0.value;
    }
  }

  /** Before the loop nothing is collected; after it nothing is left. */
  lemma ArgumentsBounds(env: Env, s: State, params: seq<Param>, overrides: map<string, Value>, fuel: nat,
                        res: seq<Value>)
    ensures Prepend([], Arguments(env, s, params, overrides, fuel)) == Arguments(env, s, params[0..], overrides, fuel)
    ensures Prepend(res, Arguments(env, s, params[|params|..], overrides, fuel)) == (Success(res), s)
  {
    assert params[0..] == params && params[|params|..] == [];
    var r := Arguments(env, s, params, overrides, fuel);
    if r.0.Success? {
      assert [] + r.0.value == r.0.value;
    }
    assert res + [] == res;
  }

  /** `Arguments` unfolded once: the value for the first parameter, then the rest. */
  lemma ArgumentsHead(env: Env, s: State, params: seq<Param>, overrides: map<string, Value>, fuel: nat,
                      v: Result<Value>, t: State)
    requires params != []
    requires (v, t) == if Overridden(overrides, params[0]) then (Success(overrides[params[0].name]), s)
                       else Resolution.Param(env, s, params[0], fuel)
    ensures v.Failure? ==> Arguments(env, s, params, overrides, fuel) == (Failure(v.error), t)
    ensures v.Success? ==>
      Arguments(env, s, params, overrides, fuel) == Prepend([v.value], Arguments(env, t, params[1..], overrides, fuel))
  {
  }

  /** One iteration of `reflectArguments`' loop: the value `v` obtained for `params[i]`
      either ends the whole call with its error or joins the values collected so far. */
  lemma ArgumentsStep(env: Env, s0: State, params: seq<Param>, overrides: map<string, Value>, fuel: nat,
                      res: seq<Value>, i: nat, s: State, v: Result<Value>, t: State)
    requires i < |params|
    requires Arguments(env, s0, params, overrides, fuel) == Prepend(res, Arguments(env, s, params[i..], overrides, fuel))
    requires (v, t) == if Overridden(overrides, params[i]) then (Success(overrides[params[i].name]), s)
                       else Resolution.Param(env, s, params[i], fuel)
    ensures v.Failure? ==> Arguments(env, s0, params, overrides, fuel) == (Failure(v.error), t)
    ensures v.Success? ==>
      Arguments(env, s0, params, overrides, fuel) == Prepend(res + [v.value], Arguments(env, t, params[i + 1..], overrides, fuel))
  {
    assert params[i..][0] == params[i] && params[i..][1..] == params[i + 1..];
    ArgumentsHead(env, s, params[i..], overrides, fuel, v, t);
    if v.Success? {
      PrependTwice(res, [v.value], Arguments(env, t, params[i + 1..], overrides, fuel));
    }
  }

  class Container {
    const env: Env
    const runtime: Runtime
    var aliass: map<Id, Id>
    var args: map<Id, map<string, Value>>
    var callbacks: map<Id, Factory>
    var objs: map<Id, Object>

    /** The fields as a value, with the allocator's counter. */
    ghost function Model(): State
      reads this, runtime
    {
      State(aliass, args, callbacks, objs, runtime.next)
    }

    constructor (env: Env, runtime: Runtime)
      ensures this.env == env && this.runtime == runtime
      ensures aliass == map[] && args == map[] && callbacks == map[] && objs == map[]
    {
      this.env := env;
      this.runtime := runtime;
      aliass, args, callbacks, objs := map[], map[], map[], map[];
    }

    /** `has($id)`: true exactly when the alias chain from `id` ends at an existing class. */
    function Has(id: Id): (r: Result<bool>)
      reads this
      ensures r == Success(true) <==> exists c :: EndsAt(aliass, id, c) && c in env.classes
      ensures r == Success(false) <==> exists c :: EndsAt(aliass, id, c) && c !in env.classes
      ensures r.Failure? <==> GetTrueId(aliass, id).Failure?
    {
      ResolutionFacts.HasCharacterized(env, aliass, id);
      Resolution.Has(env, aliass, id)
    }

    /** `get($id, $new)`, with `fuel` bounding how deeply it may nest. */
    method Get(id: Id, forceNew: bool, fuel: nat) returns (r: Result<Object>)
      modifies this, runtime
      ensures (r, Model()) == Resolution.Get(env, old(Model()), id, forceNew, fuel)
      decreases fuel, 3, 0
    {
      var canonical := GetTrueId(aliass, id);
      if canonical.Failure? {
        return Failure(canonical.error);
      }
      var c := canonical.value;
      if forceNew {
        r := Build(c, fuel);
      } else if c in objs {
        r := Success(objs[c]);
      } else {
        r := Build(c, fuel);
        if r.Success? {
          objs := objs[c := r.value];
        }
      }
    }

    /** The construction both branches of `get` perform for the canonical identifier. */
    method Build(c: Id, fuel: nat) returns (r: Result<Object>)
      modifies this, runtime
      ensures (r, Model()) == Resolution.Build(env, old(Model()), c, fuel)
      decreases fuel, 2, 0
    {
      if c !in env.classes {
        return Failure(NotFound);
      }
      if c in callbacks {
        var f := callbacks[c];
        var a := ReflectArguments(f.params, map[], fuel);
        if a.Failure? {
          return Failure(a.error);
        }
        var v := runtime.Call(f, a.value);
        if !IsA(env, v, c) {
          return Failure(ContainerError(FactoryResultType));
        }
        return Success(v.obj);
      }
      var a: Result<seq<Value>> := Success([]);
      if c in env.ctors {
        a := ReflectArguments(env.ctors[c], if c in args then args[c] else map[], fuel);
        if a.Failure? {
          return Failure(a.error);
        }
      }
      var o := runtime.Instantiate(c, a.value);
      r := Success(o);
    }

    /** `reflectArguments($callable, $default)`, given the callable's parameters. */
    method ReflectArguments(params: seq<Param>, overrides: map<string, Value>, fuel: nat)
      returns (r: Result<seq<Value>>)
      modifies this, runtime
      ensures (r, Model()) == Arguments(env, old(Model()), params, overrides, fuel)
      decreases fuel, 1, 0
    {
      var res: seq<Value> := [];
      var i := 0;
      ArgumentsBounds(env, Model(), params, overrides, fuel, res);
      while i < |params|
        invariant 0 <= i <= |params|
        invariant Arguments(env, old(Model()), params, overrides, fuel)
                  == Prepend(res, Arguments(env, Model(), params[i..], overrides, fuel))
      {
        ghost var before := Model();
        var v := ArgumentFor(params[i], overrides, fuel);
        ArgumentsStep(env, old(Model()), params, overrides, fuel, res, i, before, v, Model());
        if v.Failure? {
          return Failure(v.error);
        }
        res := res + [v.value];
        i := i + 1;
      }
      ArgumentsBounds(env, Model(), params, overrides, fuel, res);
      r := Success(res);
    }

    /** `$default[$name] ?? $this->getParam($param)`: the value for one parameter. */
    method ArgumentFor(p: Param, overrides: map<string, Value>, fuel: nat) returns (v: Result<Value>)
      modifies this, runtime
      ensures (v, Model()) == if Overridden(overrides, p) then (Success(overrides[p.name]), old(Model()))
                              else Resolution.Param(env, old(Model()), p, fuel)
      decreases fuel, 0, 1
    {
      if Overridden(overrides, p) {
        v := Success(overrides[p.name]);
      } else {
        v := GetParam(p, fuel);
      }
    }

    /** `getParam($param)`. */
    method GetParam(p: Param, fuel: nat) returns (r: Result<Value>)
      modifies this, runtime
      ensures (r, Model()) == Resolution.Param(env, old(Model()), p, fuel)
      decreases fuel, 0, 0
    {
      if Autowired(p) {
        var t := p.hint.value.name;
        var found := Resolution.Has(env, aliass, t);
        if found.Failure? {
          return Failure(found.error);
        }
        if found.value {
          if fuel == 0 {
            return Failure(FuelExhausted);
          }
          var got := Get(t, false, fuel - 1);
          if got.Failure? {
            return Failure(got.error);
          }
          if IsA(env, Obj(got.value), t) {
            return Success(Obj(got.value));
          }
        }
      }
      r := Fallback(p);
    }

    /** `setAlias($from, $to)`. */
    method SetAlias(from: Id, to: Id) returns (r: Result<()>)
      modifies this
      ensures (r, Model()) == Resolution.SetAlias(old(Model()), from, to)
    {
      aliass := aliass[from := to];
      if from in objs {
        objs := objs[to := objs[from]];
        objs := objs - {from};
      }
      if from in args {
        args := args[to := args[from]];
        args := args - {from};
      }
      if from in callbacks {
        callbacks := callbacks[to := callbacks[from]];
        callbacks := callbacks - {from};
      }
      var canonical := GetTrueId(aliass, to);
      if canonical.Failure? {
        return Failure(canonical.error);
      }
      var c := canonical.value;
      if c != to {
        if to in objs {
          objs := objs[c := objs[to]];
          objs := objs - {to};
        }
        if to in args {
          args := args[c := args[to]];
          args := args - {to};
        }
        if to in callbacks {
          callbacks := callbacks[c := callbacks[to]];
          callbacks := callbacks - {to};
        }
      }
      r := Success(());
    }

    /** `setArguments($id, $args)`. */
    method SetArguments(id: Id, overrides: map<string, Value>) returns (r: Result<()>)
      modifies this
      ensures (r, Model()) == Resolution.SetArguments(old(Model()), id, overrides)
    {
      var canonical := GetTrueId(aliass, id);
      if canonical.Failure? {
        return Failure(canonical.error);
      }
      var c := canonical.value;
      args := args[c := overrides];
      objs := objs - {c};
      r := Success(());
    }

    /** `set($id, $object)`. */
    method Set(id: Id, entry: Entry) returns (r: Result<()>)
      modifies this
      ensures (r, Model()) == Resolution.Set(env, old(Model()), id, entry)
    {
      var canonical := GetTrueId(aliass, id);
      if canonical.Failure? {
        return Failure(canonical.error);
      }
      var c := canonical.value;
      match entry {
        case Closure(f) =>
          callbacks := callbacks[c := f];
        case Plain(o) =>
          if !IsA(env, Obj(o), c) {
            return Failure(ContainerError(ObjectType));
          }
          objs := objs[c := o];
      }
      r := Success(());
    }
  }
}
