/**
  What callers of `Container` can rely on, stated over the functions of `Resolution`:
  caching and sharing of singletons, forced construction, the not-found rule, and how
  each registration operation affects later resolution.
 */
module ResolutionFacts {
  import opened Types
  import opened Aliases
  import opened Resolution

  /** `has` is true exactly when the alias chain ends at an existing class; it does not
      look at factories, overrides or the cache. */
  lemma HasCharacterized(env: Env, aliass: map<Id, Id>, id: Id)
    ensures Has(env, aliass, id) == Success(true) <==> exists c :: EndsAt(aliass, id, c) && c in env.classes
    ensures Has(env, aliass, id) == Success(false) <==> exists c :: EndsAt(aliass, id, c) && c !in env.classes
  {
    match GetTrueId(aliass, id)
    case Success(c) =>
      GetTrueIdCharacterized(aliass, id, c);
      forall d | EndsAt(aliass, id, d) ensures d == c {
        EndUnique(aliass, id, c, d);
      }
    case Failure(e) =>
      forall c | EndsAt(aliass, id, c) ensures false {
        GetTrueIdCharacterized(aliass, id, c);
      }
  }

  /** A non-forced `get` of a cached identifier returns the cached object and changes
      nothing. */
  lemma CachedGet(env: Env, s: State, id: Id, c: Id, fuel: nat)
    requires GetTrueId(s.aliass, id) == Success(c) && c in s.objs
    ensures Get(env, s, id, false, fuel) == (Success(s.objs[c]), s)
  {
  }

  /** Once a non-forced `get` has returned `o`, every later non-forced `get` of the same
      identifier returns `o` as long as only resolution has happened in between; this is
      why a dependency shared by several classes (a diamond) is built once. */
  lemma SingletonShared(env: Env, s: State, id: Id, fuel: nat, t: State, fuel': nat)
    requires Get(env, s, id, false, fuel).0.Success?
    requires Extends(Get(env, s, id, false, fuel).1, t)
    ensures Get(env, t, id, false, fuel') == (Get(env, s, id, false, fuel).0, t)
  {
    var c := GetTrueId(s.aliass, id).value;
    var (r, u) := Get(env, s, id, false, fuel);
    assert c in u.objs && u.objs[c] == r.value;
  }

  /** Asking twice gives the identical object, and the second call has no effect. */
  lemma GetIdempotent(env: Env, s: State, id: Id, fuel: nat, fuel': nat)
    requires Get(env, s, id, false, fuel).0.Success?
    ensures var (r, t) := Get(env, s, id, false, fuel);
      Get(env, t, id, false, fuel') == (r, t)
  {
    SingletonShared(env, s, id, fuel, Get(env, s, id, false, fuel).1, fuel');
  }

  /** A successful non-forced `get` of an uncached identifier caches what it returns, and
      that is an instance of the canonical identifier. */
  lemma UncachedGetCaches(env: Env, s: State, id: Id, c: Id, fuel: nat)
    requires GetTrueId(s.aliass, id) == Success(c) && c !in s.objs
    requires Get(env, s, id, false, fuel).0.Success?
    ensures var (r, t) := Get(env, s, id, false, fuel);
      c in t.objs && t.objs[c] == r.value && IsA(env, Obj(r.value), c)
  {
  }

  /** `get($id, true)` builds anew and does not cache: an object it allocates is not in the
      cache afterwards, an existing cache entry for the identifier is left as it was, and
      without a factory the result is a new instance of exactly the canonical class. */
  lemma ForcedGetDoesNotCache(env: Env, s: State, id: Id, c: Id, fuel: nat)
    requires Wf(s) && GetTrueId(s.aliass, id) == Success(c)
    requires Get(env, s, id, true, fuel).0.Success?
    ensures var (r, t) := Get(env, s, id, true, fuel);
      && IsA(env, Obj(r.value), c)
      && (c !in s.callbacks ==> r.value.cls == c && r.value.ref >= s.next)
      && (r.value.ref >= s.next ==> forall k :: k in t.objs ==> t.objs[k] != r.value)
      && (c in s.objs ==> t.objs[c] == s.objs[c])
  {
  }

  /** `get` throws `NotFoundException` exactly when the canonical identifier is not an
      existing class and the call gets past the cache; it then has no effect, so a
      registered factory is never invoked for such an identifier. */
  lemma GetNotFound(env: Env, s: State, id: Id, forceNew: bool, c: Id, fuel: nat)
    requires GetTrueId(s.aliass, id) == Success(c)
    ensures Get(env, s, id, forceNew, fuel).0 == Failure(NotFound) <==>
      c !in env.classes && (forceNew || c !in s.objs)
    ensures c !in env.classes && (forceNew || c !in s.objs) ==>
      Get(env, s, id, forceNew, fuel) == (Failure(NotFound), s)
  {
  }

  /** When `get` reaches the registered factory of an existing class, the factory's
      arguments come from autowiring and defaults alone (no overrides), an error while
      resolving them is passed on, and otherwise `get` returns exactly the factory's value
      when that is an instance of the canonical identifier and throws the
      return-value exception when it is not. On that failure nothing is written after the
      call (in particular not `objs[c]`); on success the value is cached unless forced. */
  lemma FactoryResultChecked(env: Env, s: State, id: Id, forceNew: bool, c: Id, fuel: nat)
    requires GetTrueId(s.aliass, id) == Success(c) && c in env.classes && c in s.callbacks
    requires forceNew || c !in s.objs
    ensures var f := s.callbacks[c];
      var (a, t) := Arguments(env, s, f.params, map[], fuel);
      var (r, u) := Get(env, s, id, forceNew, fuel);
      && (a.Failure? ==> r == Failure(a.error) && u == t)
      && (a.Success? ==>
            var (v, next) := Invoke(f, a.value, t.next);
            && (r.Success? <==> IsA(env, v, c))
            && (r.Success? ==> Obj(r.value) == v)
            && (r.Failure? ==> r.error == ContainerError(FactoryResultType) && u == t.(next := next))
            && (r.Success? && forceNew ==> u == t.(next := next))
            && (r.Success? && !forceNew ==> u == t.(next := next, objs := t.objs[c := r.value])))
    ensures var r := Get(env, s, id, forceNew, fuel).0;
      r.Success? && s.callbacks[c].produces.Fresh? ==>
        var ps := s.callbacks[c].params;
        && |r.value.args| == |ps|
        && forall i :: 0 <= i < |ps| ==> Acceptable(env, ps[i], r.value.args[i])
  {
    var f := s.callbacks[c];
    var (a, t) := Arguments(env, s, f.params, map[], fuel);
    var (b, u) := Build(env, s, c, fuel);
    if b.Success? && f.produces.Fresh? {
      assert b.value.args == a.value;
    }
  }

  /** `getParam`'s attempt to autowire `p` yields nothing and raises nothing: the parameter
      has no class type, its type is not an existing class, or `get` of the type returns
      something that is not an instance of it. */
  ghost predicate NothingAutowired(env: Env, s: State, p: Param, fuel: nat) {
    || !Autowired(p)
    || Has(env, s.aliass, p.hint.value.name) == Success(false)
    || (&& Has(env, s.aliass, p.hint.value.name) == Success(true)
        && fuel > 0
        && var g := Get(env, s, p.hint.value.name, false, fuel - 1).0;
           g.Success? && !IsA(env, Obj(g.value), p.hint.value.name))
  }

  /** The order in which `getParam` looks for a value. First, for a class type: an error of
      `has` or of the nested `get` is passed on, and an instance that `get` returns is the
      value, whatever default the parameter declares. Only when autowiring yields nothing
      does the default, then null for an optional parameter, apply; a parameter with none
      of these fails with the unresolved-parameter exception. */
  lemma ParamPrecedence(env: Env, s: State, p: Param, fuel: nat)
    ensures var (r, u) := Resolution.Param(env, s, p, fuel);
      Autowired(p) ==>
        var t := p.hint.value.name;
        var h := Has(env, s.aliass, t);
        && (h.Failure? ==> r == Failure(h.error) && u == s)
        && (h == Success(true) && fuel > 0 ==>
              var (g, w) := Get(env, s, t, false, fuel - 1);
              && u == w
              && (g.Failure? ==> r == Failure(g.error))
              && (g.Success? && IsA(env, Obj(g.value), t) ==> r == Success(Obj(g.value))))
    ensures NothingAutowired(env, s, p, fuel) ==> Resolution.Param(env, s, p, fuel).0 == Fallback(p)
    ensures NothingAutowired(env, s, p, fuel) ==>
      (Resolution.Param(env, s, p, fuel).0 == Failure(ContainerError(UnresolvedParameter)) <==>
         p.default.None? && !p.optional)
    ensures Resolution.Param(env, s, p, fuel).0 == Failure(ContainerError(UnresolvedParameter)) ==>
      || (NothingAutowired(env, s, p, fuel) && p.default.None? && !p.optional)
      || (&& Autowired(p) && Has(env, s.aliass, p.hint.value.name) == Success(true) && fuel > 0
          && Get(env, s, p.hint.value.name, false, fuel - 1).0 == Failure(ContainerError(UnresolvedParameter)))
  {
  }

  /** An instance already cached for a parameter's class type is injected even when the
      parameter declares a default, and injecting it changes nothing. */
  lemma CachedInstanceAutowired(env: Env, s: State, p: Param, c: Id, fuel: nat)
    requires Autowired(p) && fuel > 0
    requires GetTrueId(s.aliass, p.hint.value.name) == Success(c) && c in env.classes && c in s.objs
    requires IsA(env, Obj(s.objs[c]), p.hint.value.name)
    ensures Resolution.Param(env, s, p, fuel) == (Success(Obj(s.objs[c])), s)
  {
    CachedGet(env, s, p.hint.value.name, c, fuel - 1);
  }

  /** After `setArguments`, the next non-forced `get` builds a new object (the old one was
      evicted) whose constructor receives the new overrides. */
  lemma SetArgumentsTakesEffect(env: Env, s: State, id: Id, overrides: map<string, Value>, c: Id, fuel: nat)
    requires GetTrueId(s.aliass, id) == Success(c) && c !in s.callbacks && c in env.ctors
    ensures var t := SetArguments(s, id, overrides).1;
      var (r, u) := Get(env, t, id, false, fuel);
      var ps := env.ctors[c];
      r.Success? ==>
        && r.value.ref >= t.next && c in u.objs && u.objs[c] == r.value
        && |r.value.args| == |ps|
        && forall i :: 0 <= i < |ps| && Overridden(overrides, ps[i]) ==>
             r.value.args[i] == overrides[ps[i].name]
  {
    var t := SetArguments(s, id, overrides).1;
    assert Overrides(t, c) == overrides;
  }

  /** Registering a factory does not evict the cache: a cached object keeps being returned
      by non-forced `get`. */
  lemma SetFactoryKeepsCache(env: Env, s: State, id: Id, f: Factory, c: Id, fuel: nat)
    requires GetTrueId(s.aliass, id) == Success(c) && c in s.objs
    ensures var (r, t) := Set(env, s, id, Closure(f));
      && r.Success? && c in t.callbacks && t.callbacks[c] == f
      && Get(env, t, id, false, fuel) == (Success(s.objs[c]), t)
  {
  }

  /** An object accepted by `set` is what the next non-forced `get` returns. */
  lemma SetObjectIsReturned(env: Env, s: State, id: Id, o: Object, fuel: nat)
    requires Set(env, s, id, Plain(o)).0.Success?
    ensures var t := Set(env, s, id, Plain(o)).1;
      Get(env, t, id, false, fuel) == (Success(o), t)
  {
  }

  /** The outcome of moving the entry of `from` to `to` and then that of `to` on to `c`:
      `from` (and `to`, when it is not `c`) end up empty, `c` holds the first entry found
      at `from`, `to`, `c` in that order, and every other key is untouched. */
  ghost predicate MovedAlong<V>(m: map<Id, V>, m': map<Id, V>, from: Id, to: Id, c: Id) {
    && from !in m'
    && (c != to ==> to !in m')
    && (c in m' <==> from in m || to in m || c in m)
    && (c in m' ==> m'[c] == if from in m then m[from] else if to in m then m[to] else m[c])
    && forall k :: k != from && k != to && k != c ==> (k in m' <==> k in m) && (k in m' ==> m'[k] == m[k])
  }

  lemma MigrateTwice<V>(m: map<Id, V>, from: Id, to: Id, c: Id)
    requires from != to && from != c
    ensures MovedAlong(m, if c != to then Migrate(Migrate(m, from, to), to, c) else Migrate(m, from, to), from, to, c)
  {
  }

  /** A successful `setAlias($from, $to)` makes `from` resolve to where `to` resolves and
      carries the cached object, overrides and factory of `from` (or else of `to`) along to
      that canonical identifier, overwriting what was there. */
  lemma SetAliasMigrates(s: State, from: Id, to: Id)
    requires SetAlias(s, from, to).0.Success?
    ensures var t := SetAlias(s, from, to).1;
      var c := GetTrueId(t.aliass, to).value;
      && GetTrueId(t.aliass, from) == Success(c)
      && MovedAlong(s.objs, t.objs, from, to, c)
      && MovedAlong(s.args, t.args, from, to, c)
      && MovedAlong(s.callbacks, t.callbacks, from, to, c)
  {
    var a := s.aliass[from := to];
    var c := GetTrueId(a, to).value;
    if from == to {
      SelfAliasLoops(a, from);
    }
    GetTrueIdCharacterized(a, to, c);
    var n: nat :| Follow(a, to, n) == c;
    assert Follow(a, from, n + 1) == c;
    GetTrueIdCharacterized(a, from, c);
    MigrateTwice(s.objs, from, to, c);
    MigrateTwice(s.args, from, to, c);
    MigrateTwice(s.callbacks, from, to, c);
  }

  /** No object, override or factory is stored under an identifier that is an alias. */
  ghost predicate EntriesCanonical(s: State) {
    forall k :: k in s.objs || k in s.args || k in s.callbacks ==> k !in s.aliass
  }

  /** Resolution keeps all state under canonical identifiers. */
  lemma GetKeepsEntriesCanonical(env: Env, s: State, id: Id, forceNew: bool, fuel: nat)
    requires EntriesCanonical(s)
    ensures EntriesCanonical(Get(env, s, id, forceNew, fuel).1)
  {
  }

  /** A successful `setAlias` keeps all state under canonical identifiers. */
  lemma SetAliasKeepsEntriesCanonical(s: State, from: Id, to: Id)
    requires EntriesCanonical(s) && SetAlias(s, from, to).0.Success?
    ensures EntriesCanonical(SetAlias(s, from, to).1)
  {
    SetAliasMigrates(s, from, to);
    var t := SetAlias(s, from, to).1;
    var c := GetTrueId(t.aliass, to).value;
    assert to in t.aliass ==> c != to;
  }

  /** `setArguments` and `set` write only under the canonical identifier. */
  lemma RegistrationKeepsEntriesCanonical(env: Env, s: State, id: Id, overrides: map<string, Value>, e: Entry)
    requires EntriesCanonical(s)
    ensures EntriesCanonical(SetArguments(s, id, overrides).1)
    ensures EntriesCanonical(Set(env, s, id, e).1)
  {
  }

  /** `setAlias` writes the alias before resolving: after `A => B`, the call
      `setAlias('B', 'A')` throws the alias-loop exception yet leaves the cycle
      `A => B => A` in place, with the object cached for `B` moved under the alias `A`.
      A later `setAlias('C', 'A')` throws as well, and from then on resolving `C`, which
      `has('C')` does, recurses without end, since the cycle does not pass through `C`. */
  lemma FailedSetAliasLeavesCycle(env: Env, o: Object)
    ensures var s := State(map["A" := "B"], map[], map[], map["B" := o], o.ref + 1);
      var (r, t) := SetAlias(s, "B", "A");
      var (r', u) := SetAlias(t, "C", "A");
      && EntriesCanonical(s)
      && r == Failure(ContainerError(AliasLoop))
      && t.aliass == map["A" := "B", "B" := "A"] && t.objs == map["A" := o]
      && !EntriesCanonical(t)
      && r' == Failure(ContainerError(AliasLoop))
      && Has(env, u.aliass, "C") == Failure(EndlessRecursion)
  {
    var s := State(map["A" := "B"], map[], map[], map["B" := o], o.ref + 1);
    var t := SetAlias(s, "B", "A").1;
    assert t.aliass == map["A" := "B", "B" := "A"];
    TwoCycleLoops(t.aliass, "A", "B");
    var a := t.aliass["C" := "A"];
    assert a["A"] == "B" && a["B"] == "A" && a["C"] == "A";
    TwoCycleLoops(a, "A", "B");
    assert Resolve(a, "A", Some("C"), {"C", "A", "B"}) == Failure(EndlessRecursion);
    assert {"C", "A"} + {"B"} == {"C", "A", "B"};
    assert Resolve(a, "B", Some("C"), {"C", "A"}) == Failure(EndlessRecursion);
    assert {"C"} + {"A"} == {"C", "A"};
    assert Resolve(a, "A", Some("C"), {"C"}) == Failure(EndlessRecursion);
    assert {} + {"C"} == {"C"};
    assert Resolve(a, "C", None, {}) == Failure(EndlessRecursion);
  }

  /** The parameter `$name` of class type `cls`, with no default and not optional. */
  function Needs(name: string, cls: Id): Param {
    Param(name, Some(TypeHint(cls, false)), None, false)
  }

  /** A diamond: `W` needs an `X` and a `Y`, each of those needs a `Z`, and `Z` has no
      constructor. */
  function DiamondEnv(): Env {
    Env({"W", "X", "Y", "Z"}, {},
        map["W" := [Needs("x", "X"), Needs("y", "Y")], "X" := [Needs("z", "Z")], "Y" := [Needs("z", "Z")]])
  }

  lemma DiamondZ(s: State)
    requires s.aliass == map[] && s.callbacks == map[] && "Z" !in s.objs
    ensures var z := Object("Z", s.next, []);
      Resolution.Param(DiamondEnv(), s, Needs("z", "Z"), 2)
        == (Success(Obj(z)), s.(objs := s.objs["Z" := z], next := s.next + 1))
  {
    var env := DiamondEnv();
    var z := Object("Z", s.next, []);
    assert "Z" in env.classes && "Z" !in env.ctors;
    assert Build(env, s, "Z", 1) == (Success(z), s.(next := s.next + 1));
    assert GetTrueId(s.aliass, "Z") == Success("Z");
    assert Get(env, s, "Z", false, 1) == (Success(z), s.(objs := s.objs["Z" := z], next := s.next + 1));
    assert Has(env, s.aliass, "Z") == Success(true);
  }

  /** `X` or `Y`, built from a state where `Z` is cached as `z`. */
  lemma DiamondSide(s: State, side: Id, z: Object)
    requires side == "X" || side == "Y"
    requires s.aliass == map[] && s.callbacks == map[] && s.args == map[]
    requires side !in s.objs && "Z" in s.objs && s.objs["Z"] == z && z.cls == "Z"
    ensures var o := Object(side, s.next, [Obj(z)]);
      Resolution.Param(DiamondEnv(), s, Needs(if side == "X" then "x" else "y", side), 3)
        == (Success(Obj(o)), s.(objs := s.objs[side := o], next := s.next + 1))
  {
    var env := DiamondEnv();
    var pz := Needs("z", "Z");
    assert GetTrueId(s.aliass, "Z") == Success("Z") && "Z" in env.classes;
    CachedGet(env, s, "Z", "Z", 1);
    assert Has(env, s.aliass, "Z") == Success(true);
    assert Resolution.Param(env, s, pz, 2) == (Success(Obj(z)), s);
    assert [pz][0] == pz && [pz][1..] == [] && [Obj(z)] + [] == [Obj(z)];
    assert Arguments(env, s, [pz], map[], 2) == (Success([Obj(z)]), s);
    assert env.ctors[side] == [pz];
    var o := Object(side, s.next, [Obj(z)]);
    assert Build(env, s, side, 2) == (Success(o), s.(next := s.next + 1));
    assert GetTrueId(s.aliass, side) == Success(side);
    assert Get(env, s, side, false, 2) == (Success(o), s.(objs := s.objs[side := o], next := s.next + 1));
    assert Has(env, s.aliass, side) == Success(true);
  }

  /** The first branch of the diamond, from an empty container: `Z`, then `X` on it. */
  lemma DiamondFirst()
    ensures
      var z := Object("Z", 0, []);
      var x := Object("X", 1, [Obj(z)]);
      Resolution.Param(DiamondEnv(), State(map[], map[], map[], map[], 0), Needs("x", "X"), 3)
        == (Success(Obj(x)), State(map[], map[], map[], map["Z" := z, "X" := x], 2))
  {
    var env := DiamondEnv();
    var pz := Needs("z", "Z");
    var z := Object("Z", 0, []);
    var x := Object("X", 1, [Obj(z)]);
    var s0 := State(map[], map[], map[], map[], 0);
    var s1 := s0.(objs := map["Z" := z], next := 1);
    DiamondZ(s0);
    assert [pz][0] == pz && [pz][1..] == [] && [Obj(z)] + [] == [Obj(z)];
    assert Arguments(env, s1, [pz][1..], map[], 2) == (Success([]), s1);
    assert Arguments(env, s0, [pz], map[], 2) == (Success([Obj(z)]), s1);
    assert "X" in env.classes && env.ctors["X"] == [pz];
    assert Build(env, s0, "X", 2) == (Success(x), s1.(next := 2));
    assert GetTrueId(s0.aliass, "X") == Success("X");
    assert Get(env, s0, "X", false, 2) == (Success(x), s1.(objs := s1.objs["X" := x], next := 2));
    assert Has(env, s0.aliass, "X") == Success(true);
  }

  /** The second argument of `W`, once `Z` and `X` are cached: `Y` on the cached `Z`. */
  lemma DiamondSecond()
    ensures
      var z := Object("Z", 0, []);
      var x := Object("X", 1, [Obj(z)]);
      var y := Object("Y", 2, [Obj(z)]);
      Arguments(DiamondEnv(), State(map[], map[], map[], map["Z" := z, "X" := x], 2), [Needs("y", "Y")], map[], 3)
        == (Success([Obj(y)]), State(map[], map[], map[], map["Z" := z, "X" := x, "Y" := y], 3))
  {
    var env := DiamondEnv();
    var py := Needs("y", "Y");
    var z := Object("Z", 0, []);
    var y := Object("Y", 2, [Obj(z)]);
    var s2 := State(map[], map[], map[], map["Z" := z, "X" := Object("X", 1, [Obj(z)])], 2);
    var s3 := s2.(objs := s2.objs["Y" := y], next := 3);
    DiamondSide(s2, "Y", z);
    assert [py][0] == py && [py][1..] == [] && [Obj(y)] + [] == [Obj(y)];
    assert Arguments(env, s3, [py][1..], map[], 3) == (Success([]), s3);
  }

  /** The arguments of `W`, from an empty container: `X` (building `Z`), then `Y` on the
      cached `Z`. */
  lemma DiamondArguments()
    ensures
      var z := Object("Z", 0, []);
      var x := Object("X", 1, [Obj(z)]);
      var y := Object("Y", 2, [Obj(z)]);
      Arguments(DiamondEnv(), State(map[], map[], map[], map[], 0), [Needs("x", "X"), Needs("y", "Y")], map[], 3)
        == (Success([Obj(x), Obj(y)]), State(map[], map[], map[], map["Z" := z, "X" := x, "Y" := y], 3))
  {
    var env := DiamondEnv();
    var px, py := Needs("x", "X"), Needs("y", "Y");
    var z := Object("Z", 0, []);
    var x := Object("X", 1, [Obj(z)]);
    var y := Object("Y", 2, [Obj(z)]);
    var s0 := State(map[], map[], map[], map[], 0);
    var s2 := State(map[], map[], map[], map["Z" := z, "X" := x], 2);
    var s3 := s2.(objs := s2.objs["Y" := y], next := 3);
    DiamondFirst();
    DiamondSecond();
    assert [px, py][0] == px && [px, py][1..] == [py] && [Obj(x)] + [Obj(y)] == [Obj(x), Obj(y)];
  }

  /** Resolving `W` in an empty container builds one `Z` and hands that same object to
      both `X` and `Y`: a dependency shared by two classes is built once. */
  lemma DiamondSharesDependency()
    ensures
      var z := Object("Z", 0, []);
      var x := Object("X", 1, [Obj(z)]);
      var y := Object("Y", 2, [Obj(z)]);
      var w := Object("W", 3, [Obj(x), Obj(y)]);
      var (r, t) := Get(DiamondEnv(), State(map[], map[], map[], map[], 0), "W", false, 3);
      && r == Success(w)
      && t.objs == map["Z" := z, "X" := x, "Y" := y, "W" := w]
      && t.next == 4
  {
    var env := DiamondEnv();
    var z := Object("Z", 0, []);
    var x := Object("X", 1, [Obj(z)]);
    var y := Object("Y", 2, [Obj(z)]);
    var w := Object("W", 3, [Obj(x), Obj(y)]);
    var s0 := State(map[], map[], map[], map[], 0);
    var s3 := State(map[], map[], map[], map["Z" := z, "X" := x, "Y" := y], 3);
    DiamondArguments();
    assert "W" in env.classes && env.ctors["W"] == [Needs("x", "X"), Needs("y", "Y")];
    assert Build(env, s0, "W", 3) == (Success(w), s3.(next := 4));
    assert GetTrueId(s0.aliass, "W") == Success("W");
    assert s3.objs["W" := w] == map["Z" := z, "X" := x, "Y" := y, "W" := w];
  }
}
