# A verified model of the phpomg/psr11 container

`PHPOMG\Psr11\Container` is a small PSR-11 dependency-injection container. It keeps four
tables, each keyed by identifier:

- `aliass`: aliases from one identifier to another;
- `args`: constructor-argument overrides;
- `callbacks`: factory closures;
- `objs`: the singleton cache.

`has`, `get`, `setArguments` and `set` first resolve their identifier through the alias
table to a *canonical* identifier (`getTrueId`). `setAlias` instead writes the alias and
moves the entries of `from` to `to` first, and only then resolves `to`. `get` does one of
three things:

- returns the cached object;
- calls the registered factory, whose result must be an instance of the identifier;
- instantiates the class by reflection.

In the last two cases every parameter is filled by `reflectArguments` and `getParam`.
Each parameter takes a non-null override if there is one. Otherwise it is autowired with
`get` of its declared class type, then falls back to its default value, then to `null`
when it is optional. If none of these applies, an exception is thrown. `setAlias`,
`setArguments` and `set` write to the tables.

The project has five files:

- `types.dfy` (module `Types`): identifiers, values, and objects with an identity (a
  reference given out by an allocation counter). It also holds the static class metadata
  that stands in for PHP reflection (`Env`: existing classes, the subtype pairs behind
  `is_a`/`instanceof`, constructor parameter lists) and the error kinds.
- `aliases.dfy` (module `Aliases`): `getTrueId` as a function. It is proved equivalent to
  following the alias chain (`Follow`):
  - it returns the end of the chain exactly when the chain ends;
  - it reports the alias-loop exception exactly when the chain comes back to its origin;
  - it recurses forever (`EndlessRecursion`) exactly when the chain runs into a cycle
    that avoids the origin.
- `resolution.dfy` (module `Resolution`): every operation as a function from a `State`
  (the four tables plus the allocation counter) to a result and a new state. The new
  state is returned also on failure, because PHP keeps writes made before a throw.
- `resolution_facts.dfy` (module `ResolutionFacts`): lemmas relating the operations, such
  as caching, singleton sharing, forced construction, the not-found rule, what each
  registration does to later `get` calls, and alias migration.
- `container.dfy` (module `ContainerModel`): the `Container` class with the four tables as
  `map` fields. Its methods update them in place, step by step as the PHP does. Each
  method is proved to produce exactly the result and new state of the `Resolution`
  function it implements. `Runtime` is the allocator PHP uses for `new` and for closures
  that construct objects.

Where the intended design and the code disagree, the model follows the code:

- The code has no decorators.
- Only `setArguments` evicts the cache. `set` with a closure and `setAlias` leave cached
  objects in place (`setAlias` moves them).
- `get($id, true)` builds a new object but does not write it to the cache.
- A failed `get` keeps the cache entries that its nested `get` calls made.
- `has` and `get` do not consider a factory registered for a name that is not an existing
  class (an interface, say): `get` throws not-found for it.

## Model

| member | source | states |
|---|---|---|
| Types.Fallback | src/Container.php:186-200 | the default value if one is declared, else null if the parameter is optional; fails, with the unresolved-parameter error, exactly when it has neither |
| Aliases.Resolve | src/Container.php:139-151 | the recursion of `getTrueId`: a result is never an alias key; the only failures are the alias loop and endless recursion |
| Aliases.GetTrueId | src/Container.php:139-151 | an identifier without an alias resolves to itself; a result is never an alias key; the only failures are the alias loop and endless recursion |
| Aliases.GetTrueIdSound | src/Container.php:139-151 | each outcome is justified by the chain: a result ends it, an alias loop returns to the origin, endless recursion never ends and never returns |
| Aliases.GetTrueIdCharacterized | src/Container.php:139-151 | three if-and-only-ifs: resolves to `c` iff the chain ends at `c`; alias loop iff the chain comes back to the origin; endless recursion iff the chain runs into a cycle that avoids the origin |
| Aliases.AliasTransitive | src/Container.php:147-148 | an aliased identifier resolves to `c` if and only if its alias target resolves to `c` |
| Aliases.SelfAliasLoops | src/Container.php:141-146 | a self-alias `A => A` is reported as an alias loop |
| Aliases.TwoCycleLoops | src/Container.php:141-148 | two identifiers aliased to each other are both reported as alias loops |
| Resolution.Overrides | src/Container.php:72 | the overrides registered for the identifier, or none when there are none |
| Resolution.Invoke | src/Container.php:63 | a factory that constructs returns a new object of its class, built from the arguments under the next reference, and advances the counter; one that holds a value returns it and allocates nothing |
| Resolution.Has | src/Container.php:20-24 | fails exactly when alias resolution fails, and never with not-found |
| Resolution.Get | src/Container.php:26-80 | only extends the state (tables unchanged, cache only grows, new keys are not aliases, well-formedness kept); not-found means the canonical identifier is not a class |
| Resolution.Build | src/Container.php:55-74 | not-found iff no such class; a result is an instance of the identifier; a constructed object is new, of exactly that class, with no arguments when there is no constructor and one argument per parameter otherwise (override or acceptable value); a factory's parameters get no overrides, and a factory's success is exactly its held value or an object of its class |
| Resolution.Arguments | src/Container.php:163-167 | one value per parameter in order: the override when it is present and not null, otherwise a value `getParam` may produce; never not-found; only extends the state |
| Resolution.Param | src/Container.php:170-201 | the value is an instance of the declared non-builtin type or the fallback; a builtin or missing type goes straight to the fallback with no effect; only an autowired parameter can fail while a fallback exists (its order of precedence is stated by `ParamPrecedence`) |
| ResolutionFacts.ParamPrecedence | src/Container.php:172-200 | errors of `has` and of the nested `get` are passed on; an instance that `get` returns wins over any default; only when autowiring yields nothing do the default, then null, apply; the unresolved-parameter exception is raised exactly when nothing applies, or passed on from a nested `get` |
| ResolutionFacts.CachedInstanceAutowired | src/Container.php:176-181 | an instance cached for the parameter's class type is injected, whatever default the parameter declares, with no effect |
| Resolution.Migrate | src/Container.php:85-88 | moves the entry of `from` to `to` and removes `from`; other keys are untouched; nothing happens when `from` has no entry |
| Resolution.SetAlias | src/Container.php:82-113 | the alias is written even when resolution of `to` then fails; it fails exactly when `to` does not resolve after the write, with that error, keeping the moves from `from` to `to`; the allocation counter is unchanged and well-formedness is kept |
| Resolution.SetArguments | src/Container.php:115-121 | fails, with no effect, exactly when the identifier does not resolve; otherwise stores the overrides under the canonical identifier and evicts only its cached object |
| Resolution.Set | src/Container.php:123-137 | fails, with no effect, exactly when the identifier does not resolve or a plain object is not an instance; a closure replaces only the factory, an object only the cache entry |
| ResolutionFacts.HasCharacterized | src/Container.php:20-24 | `has` is true iff the alias chain ends at an existing class, and false iff it ends at a name that is not one |
| ResolutionFacts.CachedGet | src/Container.php:52-53 | a non-forced `get` of a cached identifier returns the cached object and changes nothing |
| ResolutionFacts.SingletonShared | src/Container.php:52-77 | after a successful non-forced `get`, later non-forced `get` calls of that identifier return the identical object while only resolution happens in between |
| ResolutionFacts.GetIdempotent | src/Container.php:52-77 | a second non-forced `get` returns the identical object and has no effect |
| ResolutionFacts.UncachedGetCaches | src/Container.php:55-77 | a successful non-forced `get` of an uncached identifier caches its result, which is an instance of the canonical identifier |
| ResolutionFacts.ForcedGetDoesNotCache | src/Container.php:30-50 | a forced `get` returns an instance; without a factory, a new object of exactly the canonical class; a new object is not cached; an existing cache entry is left as it was |
| ResolutionFacts.GetNotFound | src/Container.php:26-59 | not-found iff the canonical identifier is not a class and the call gets past the cache; the call then has no effect, so no factory is invoked |
| ResolutionFacts.FactoryResultChecked | src/Container.php:61-69 | argument errors are passed on; otherwise `get` succeeds iff the factory's value is an instance of the identifier, returning exactly that value, and fails with the return-value exception without writing anything after the call (not `objs[c]`); a constructing factory gets one value per parameter from autowiring and defaults alone |
| ResolutionFacts.SetArgumentsTakesEffect | src/Container.php:115-121 | after `setArguments`, the next `get` builds and caches a new object whose constructor receives the new non-null overrides |
| ResolutionFacts.SetFactoryKeepsCache | src/Container.php:123-127 | registering a factory always succeeds and does not evict: a cached object keeps being returned |
| ResolutionFacts.SetObjectIsReturned | src/Container.php:123-136 | an object accepted by `set` is what the next non-forced `get` returns |
| ResolutionFacts.SetAliasMigrates | src/Container.php:82-113 | after a successful `setAlias`, `from` resolves where `to` does, and the cache, overrides and factory move from `from`, else `to`, to that canonical identifier, overwriting it |
| ResolutionFacts.GetKeepsEntriesCanonical | src/Container.php:76 | resolution stores state only under identifiers that are not aliases |
| ResolutionFacts.SetAliasKeepsEntriesCanonical | src/Container.php:82-113 | a successful `setAlias` keeps all state under identifiers that are not aliases |
| ResolutionFacts.RegistrationKeepsEntriesCanonical | src/Container.php:115-137 | `setArguments` and `set` keep all state under identifiers that are not aliases |
| ResolutionFacts.DiamondSharesDependency | src/Container.php:52-77 | in a diamond (`W` needs `X` and `Y`, both need `Z`), resolving `W` in an empty container builds `Z` once and hands that same object to both `X` and `Y`, caching all four |
| ResolutionFacts.FailedSetAliasLeavesCycle | src/Container.php:84-97 | a failing `setAlias` leaves its cycle and moved state behind; a later `setAlias` onto that cycle also fails, after which `has` of the new alias recurses forever |
| ContainerModel.Runtime.Instantiate | src/Container.php:73 | returns an object of the given class and arguments under a reference no earlier object has |
| ContainerModel.Runtime.Call | src/Container.php:63 | a factory call allocates exactly when the factory constructs an object |
| ContainerModel.Container.constructor | src/Container.php:15-18 | a new container has four empty tables |
| ContainerModel.Container.Has | src/Container.php:20-24 | true iff the alias chain ends at an existing class, false iff it ends elsewhere, failing iff alias resolution fails |
| ContainerModel.Container.Get | src/Container.php:26-80 | result and new fields are exactly those of `Resolution.Get` |
| ContainerModel.Container.Build | src/Container.php:55-74 | result and new fields are exactly those of `Resolution.Build` |
| ContainerModel.Container.ReflectArguments | src/Container.php:153-168 | the loop collects exactly the arguments and the state of `Resolution.Arguments` |
| ContainerModel.Container.ArgumentFor | src/Container.php:165 | the value for one parameter is its non-null override, with no effect, or else exactly what `Resolution.Param` gives |
| ContainerModel.Container.GetParam | src/Container.php:170-201 | result and new fields are exactly those of `Resolution.Param` |
| ContainerModel.Container.SetAlias | src/Container.php:82-113 | the in-place updates leave exactly the result and fields of `Resolution.SetAlias`, on failure too |
| ContainerModel.Container.SetArguments | src/Container.php:115-121 | result and new fields are exactly those of `Resolution.SetArguments` |
| ContainerModel.Container.Set | src/Container.php:123-137 | result and new fields are exactly those of `Resolution.Set` |

## Left out

- Reflection is replaced by static metadata (`Env`). This covers `class_exists`, `getConstructor`, `getParameters`, `getType`, `isBuiltin`, `isDefaultValueAvailable` and `isOptional`. The model does not capture autoloading, case-insensitive class names, abstract classes and enums, which pass `class_exists` but which reflection refuses to instantiate (an interface fails `class_exists` and gives not-found, as modelled), or union and intersection types.
- `reflectArguments` is modelled on the parameter list it reflects. Telling a `[class, method]` pair from a closure, and the errors `Closure::fromCallable` raises for other callables, are not modelled.
- `is_a` and `instanceof` are one subtype relation over objects. PHP's checks of argument types at call time, and the `TypeError` a wrong argument raises inside a constructor or closure, are not modelled.
- A factory is abstracted by `Yield`: it either constructs a new object of some class from its arguments or returns a value it already holds. Arbitrary closure bodies and their side effects are not modelled.
- The exception messages are not modelled. `ContainerException` and `NotFoundException` are represented by the error kinds `ContainerError` and `NotFound`.
- Resolution.Get: the nesting of `get` calls made through autowiring is bounded by a `fuel` argument, and running out gives `FuelExhausted`, which has no PHP counterpart. A PHP dependency cycle between classes recurses until the stack overflows, and the model then reports `FuelExhausted` instead.
- Resolution.SetAlias: the loose comparison `!=` between the canonical identifier and `to` is modelled as string inequality. PHP 8 compares two numeric strings numerically, so `"1"` and `"01"` count as equal there.
- ResolutionFacts.ForcedGetDoesNotCache: states that the object a forced `get` allocates is not cached and that an existing cache entry for its canonical identifier `c` is kept. It does not state that an absent entry for `c` stays absent. Filling that entry would take a nested `get` of `c` to succeed, which only a dependency cycle through `c` could attempt, and the model does not prove that such a cycle always fails. Nested `get` calls may read and fill the cache for other identifiers.
- ResolutionFacts.GetNotFound: a failed `get` leaves behind any cache entries that its nested `get` calls created. The model keeps them, as the PHP does, so "nothing is cached after a failure" is stated only for the not-found path.
- Threads, the PSR-11 interface declaration and the exception class declarations are not modelled.
