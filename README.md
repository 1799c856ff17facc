# Service registry of the `di` package (container.go), modelled in Dafny

The `di` package's `Container` is a runtime service registry. Components
register, under string keys called abstractions, either a factory
(`Bind`, `BindIf`), a caching factory (`Singleton`), a ready value
(`Instance`) or another name for a key (`Alias`). Callers then resolve keys
(`Make`, `MustMake`), ask whether a key is registered (`Bound`), clear
everything (`Reset`), or invoke a function whose parameters are filled from
extra arguments or from the registry (`Call`).

The project has three files:

- `registry.dfy`, module `Registry`. The three maps (`bindings`, `instances`,
  `aliases`) as a value `State`. Each registration is a function on it.
  `Resolve` says what `make` returns, which user factory it runs and how it
  changes the maps. Lemmas state the resolution order, override and
  no-override rules, `Bound`/`Reset`, and the singleton's at-most-once run.
- `invocation.dfy`, module `Invocation`. `Call` as functions. `ScanExtras`
  is the inner loop over the extra arguments. `Assemble` is the outer loop
  over the parameters, threading the registry through each resolution.
  `Invoke` is the runtime's checks before it calls the callback. `CallSpec`
  is the whole operation. Lemmas state what each argument is, when and how
  `Call` fails or panics, and when it succeeds.
- `container.dfy`, module `DI`. The `Container` class with its three map
  fields, which its methods update in place. Each method is proved to agree
  with the functions above. A ghost multiset `runs` records every run of a
  user factory, by key.

Factories are data: `Produce(v)` is a user factory that returns `v`.
`SingletonOf(key, inner)` is the closure `Singleton` installs, which runs
`singletonResolver(key, inner)`. Go's `interface{}` values are `Value`: the
nil interface `Nil`, or `Obj(ty, ref)`, a value of runtime type `ty`. `Call`'s
reflection becomes explicit data. A callback is `NilCallback`, `NotFunc(ty)`,
`NilFunc(params)` (a nil value of a function type) or `Func(params, body)`. Type identity is the type's printed name
(`TypeName`, the key `Call` resolves under). Assignability is a relation
passed in as a parameter. Go panics are outcomes (`Outcome.Panicked`):
`MustMake` on an unresolvable key, and the runtime faults `Call` can hit.
These faults are: a nil callback (asking a nil type its kind), a nil extra
argument (asking a zero reflect value its type), a parameter resolved to nil
or to a value of the wrong type (reflect's `Call` checks), and a nil value
of a function type (`NilFunc`), which passes the kind check, has its
arguments assembled (running factories) and only then panics in reflect's
`Call`.

Behaviour of container.go worth noting:

- `Bound` is true for any key in `aliases`, even when the alias target has
  no entry (container.go:214-223). It is not limited to aliases of bound keys.
- `Call` does not consume extra arguments. One extra fills every parameter
  it is assignable to (container.go:261-268).
- A stored instance is found by key membership, so a stored nil is returned
  as it is (container.go:99-104, 193-196). container.go has no second check
  of the instances map after running the factory.
- `Call` on a nil callback panics in the runtime. Only a non-nil value that
  is not a function gets the "callback must be a function" error
  (container.go:250-253).

## Model

| member | source | states |
|---|---|---|
| `DI.Container.constructor` | container.go:53-59 | New leaves all three maps empty and no factory has run. |
| `DI.Container.Bind` | container.go:70-75 | Bind sets `bindings[k] := f` and changes nothing else. |
| `Registry.BindLastWriteWins` | container.go:70-75 | A second Bind on a key erases the first; instances and aliases are untouched. |
| `Registry.BindThenResolve` | container.go:70-75 | After Bind(k, Produce(v)) on a key with no alias and no instance, resolving k returns v and runs that factory once. |
| `Registry.BindIf` | container.go:83-94 | BindIf reports true exactly when k had no binding, and only then installs f; otherwise the registry is unchanged. |
| `DI.Container.BindIf` | container.go:83-94 | The method returns and leaves exactly what `Registry.BindIf` says. |
| `Registry.BindIfNeverOverwrites` | container.go:83-94 | After any BindIf, a second BindIf on the same key returns false and changes nothing. |
| `Registry.BindIfIgnoresInstancesAndAliases` | container.go:84-86 | An instance or alias under k does not stop BindIf: only the bindings map is consulted. |
| `Registry.SingletonResolver` | container.go:97-113 | The wrapper returns a stored instance, nil included, without running the factory, and changes nothing. Otherwise it runs the factory exactly once, returns its value and stores it under the key; no other entry of any map changes. |
| `DI.Container.SingletonResolve` | container.go:97-113 | The method returns, stores and runs what `Registry.SingletonResolver` says. |
| `DI.Container.Singleton` | container.go:121-125 | Singleton binds the key to the caching wrapper for that key, through Bind. |
| `Registry.SingletonRunsAtMostOnce` | container.go:97-125 | Over any n > 0 resolutions of a singleton key: the factory runs exactly once if the key had no instance, and never if it had one. Every resolution returns the same stored value, and the registry ends as after Singleton with only that instance entry set. |
| `Registry.CachedResolutionIsStable` | container.go:192-196 | Once the substituted key holds an instance, any number of resolutions return it, run nothing and change nothing. |
| `Registry.AliasSharesSingleton` | container.go:150-155 | After Singleton(k) and Alias(k, a), resolving k then a returns one value, with at most one factory run. |
| `DI.Container.Instance` | container.go:135-140 | Instance sets `instances[k] := v` and changes nothing else. |
| `Registry.InstanceThenResolve` | container.go:135-140 | After Instance(k, v), an unaliased k resolves to v with no factory run and no change. |
| `DI.Container.Alias` | container.go:150-155 | Alias sets `aliases[alias] := target` and changes nothing else. |
| `Registry.AliasThenResolve` | container.go:150-155 | After Alias(k, a), with k not itself an alias, resolving a is resolving k. |
| `Registry.Resolve` | container.go:185-207 | make never changes bindings or aliases, and never removes or changes a stored instance. A new instance entry appears only for a key whose factory ran, and holds the returned value; with no run nothing changes. It succeeds exactly when the alias-substituted key has an instance or a binding. On failure the error is BindingNotFound naming the substituted key, and nothing changes or runs. |
| `Registry.Lookup` | container.go:192-206 | After substitution: a stored instance is returned before any binding is looked at, with nothing run or changed. Otherwise a plain binding returns its factory's value with one run and no change. At most one factory runs, and only a key whose factory ran can gain an instance entry, holding the returned value. It fails exactly when neither map has the key. |
| `DI.Container.Make` | container.go:185-207 | Make returns, stores and runs what `Registry.Resolve` says. |
| `Registry.InstanceShortCircuits` | container.go:192-196 | A stored instance under the substituted key is returned even when a binding exists; nothing runs, nothing changes. |
| `Registry.PlainBindingRunsEachTime` | container.go:198-206 | Without an instance, a plain binding's factory runs on every resolution and the maps stay as they were. |
| `Registry.AliasResolvesLikeTarget` | container.go:187-190 | An alias whose target is not an alias resolves exactly like the target. |
| `Registry.AliasChainIsNotFollowed` | container.go:187-190 | Substitution happens once: an alias pointing to an alias with no entry fails, naming the middle key. |
| `DI.Container.MustMake` | container.go:176-182 | MustMake returns Make's value whenever Make succeeds. It panics with Make's error exactly when Make fails, and the registry ends as after Make. |
| `DI.Container.Bound` | container.go:214-223 | Bound is `Registry.Bound` of the current maps: a key of bindings, instances or aliases. |
| `Registry.ResolvableIsBound` | container.go:214-223 | Every key that resolves is bound. |
| `Registry.DanglingAliasIsBound` | container.go:214-223 | The converse fails: an alias whose target has no entry is bound, yet resolving it fails. |
| `Registry.RegistrationBinds` | container.go:214-223 | Bind, Instance and Alias each make their key bound. |
| `DI.Container.Reset` | container.go:229-236 | Reset leaves all three maps empty. |
| `Registry.ResetUnbindsEverything` | container.go:229-236 | After Reset or New no key is bound, and every resolution fails with BindingNotFound naming the key. |
| `Invocation.ScanExtras` | container.go:260-268 | The scan result is the first extra assignable to the parameter's type; every extra before it is non-nil and unassignable. A NoFit result means no extra fits. A nil extra reached first stops the scan. |
| `DI.FirstAssignable` | container.go:260-268 | The inner loop returns exactly `ScanExtras` from the first extra. |
| `Invocation.Assemble` | container.go:255-279 | Assembling arguments never changes bindings or aliases and never removes an instance. A normal result has one argument per parameter. |
| `DI.Container.AssembleArguments` | container.go:255-279 | The outer loop returns, stores and runs what `Assemble` says. |
| `Invocation.AssembledArgument` | container.go:256-279 | Each argument is the first fitting extra. If no extra fits, a parameter whose type name already held an instance receives that instance. |
| `Invocation.AssemblyFailure` | container.go:270-276 | A failure names a parameter no extra fits and the registry cannot resolve. Its cause is BindingNotFound of that type name after substitution. |
| `Invocation.AssemblyPanic` | container.go:261-263 | A panic during assembly comes only from a nil extra reached before any fitting one. |
| `Invocation.AssembleStopsAtFirstFailure` | container.go:273-276 | Call returns at the first parameter that fails or panics: later parameters are not looked at. |
| `Invocation.AssembleAppendsExtra` | container.go:263-266 | One step of the outer loop: a parameter an extra fits appends that extra and leaves the registry alone. |
| `Invocation.AssembleAppendsResolved` | container.go:270-278 | One step of the outer loop: a parameter no extra fits appends the registry's value, and the registry is as that resolution leaves it. |
| `Invocation.AssembleStopsAt` | container.go:261-276 | A nil extra, or an unresolvable parameter, ends the whole assembly with that panic or error. |
| `Invocation.ExtrasAreNotConsumed` | container.go:261-268 | Two parameters of one type that an extra fits both receive the same first fitting extra. |
| `Invocation.OneExtraFillsTwoParameters` | container.go:261-268 | One extra fills two parameters of its type without consulting the registry. |
| `Invocation.AssembleSucceeds` | container.go:256-279 | The converse of the failure cases: if every parameter has a fitting extra or resolves in the registry, assembly ends normally. |
| `Invocation.AssembleLeavesStateWhenInstanced` | container.go:270-278 | When every parameter's type name holds an instance and is not an alias, assembly runs no factory and changes nothing. |
| `Invocation.InjectsRegisteredInstances` | container.go:249-288 | With no extras, a callback whose parameter types are all registered instances is called with those instances. Its return values are the result, and nothing runs or changes. |
| `Invocation.Invoke` | container.go:281 | The runtime's call succeeds exactly when every argument is non-nil and assignable to its parameter, and then yields the body's return values. A nil argument panics as a zero value before any type check; otherwise a failed call is a type-mismatch panic. |
| `Invocation.CallSpec` | container.go:249-288 | Call fails with NotCallable exactly when the callback is not a function, and a nil callback panics. For a function or a nil function, an assembly that fails or panics is Call's whole outcome and registry. A function call ends normally exactly when assembly is normal and every argument is non-nil and assignable to its parameter, and then yields the callback's return values on those arguments. A nil function whose assembly is normal panics calling a nil function. Bindings and aliases never change; instances are never removed or changed, and only a key whose factory ran can gain one. For a function or a nil function, Call leaves the registry and the factory runs its assembly leaves, so a singleton cached while resolving a parameter stays cached, even when the call then panics. |
| `Invocation.AssemblyAddsOnlyRunKeys` | container.go:270-278 | Assembly adds an instance entry only for a key whose factory ran while the parameters were resolved. |
| `Invocation.NilFunctionStillResolves` | container.go:250-281 | A nil function of a singleton's type has its parameter resolved before the panic: the factory runs once and its value stays cached. |
| `DI.Container.Call` | container.go:249-288 | The method returns, stores and runs what `CallSpec` says; the result loop copies every return value in order. |
| `Invocation.NoParametersNoResolution` | container.go:256-287 | A callback with no parameters is called on no arguments without touching the registry. |

## Left out

- Locking (`sync.RWMutex`) and every concurrency claim. The model is sequential. In container.go the singleton's check, factory run and store are separate critical sections (container.go:98-110). Two first resolutions racing can both run the factory, so exactly-once under concurrent access is not claimed.
- Reflection. Runtime types are their printed names, and Go's assignability rules are an `assignable` relation given to `Call`. Variadic callbacks, which reflect's `Call` treats specially, are not modelled.
- Factories and callbacks are opaque. A factory yields a fixed value and does not call back into the container. Panics raised inside user factories or callback bodies are not modelled. A callback body is a total function from its arguments to its return values.
- Error messages are structured values (`BindingNotFound(key)`, `NotCallable`, `UnresolvableParameter(typeName, cause)`) instead of formatted strings. Each carries the same key or type name the message prints.
- A nil factory (`Bind(k, nil)`, `Singleton(k, nil)`) is not modelled: `Factory` has no nil case. container.go stores it, so `BindIf` then refuses the key and `Bound` is true, but resolving the key panics calling the nil function (container.go:206, or container.go:106 when no instance is stored). `Registry.Resolve`'s promise that a resolvable key yields a value does not cover this input.
- `Registry.SingletonRunsAtMostOnce`: stated for a key that is not itself an alias. For an aliased key, resolution goes to the alias target and the singleton binding is not reached.
- provider.go, deferred.go, loader.go, application.go: they declare interfaces only. provider.go's comments say providers are ordered by `Requires()`, but no code in these files computes an order, so none is modelled. binding.go's function type becomes the `Factory` datatype.
