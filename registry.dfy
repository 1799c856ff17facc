/** The service registry of container.go as a value: its three maps, what
    each registration does to them, and what a resolution (`make`) returns,
    which factory it runs and how it changes the maps. The class in
    container.dfy is proved to follow these definitions. */
module Registry {

  /** An abstraction key: the logical name a service is registered under. */
  type Key = string

  /** The printed name of a runtime type (reflect.Type.String); Call looks a
      parameter up in the registry under this name. */
  type TypeName = string

  /** A dynamically typed value (Go's interface{}): the nil interface, or a
      value whose runtime type is `ty`; `ref` tells apart distinct values of
      one type, so two resolutions returning the same Obj return the same
      reference. A factory here yields a fixed value, so a plain binding also
      returns the same reference each time; what tells a singleton from a
      plain binding is the record of factory runs, not `ref`. */
  datatype Value = Nil | Obj(ty: TypeName, ref: nat)

  /** A binding. Factories are data that yield a value: Produce(v) is a user
      factory returning v; SingletonOf(key, inner) is the wrapper Singleton
      installs, which caches the result of the user factory `inner` under
      `key` on its first run. */
  datatype Factory = Produce(result: Value) | SingletonOf(key: Key, inner: Value)

  /** The errors the registry reports as values. */
  datatype Error =
    | BindingNotFound(key: Key)
    | NotCallable
    | UnresolvableParameter(typeName: TypeName, cause: Error)

  /** A recoverable outcome: Go's (value, error) pair. */
  datatype Result<T> = Ok(value: T) | Err(error: Error)

  /** An unrecoverable fault (a Go panic) and what raised it. */
  datatype Fault =
    | Unresolved(error: Error)  // MustMake on a key that Make cannot resolve
    | NilCallbackType           // Call on a nil callback: Kind() of a nil reflect.Type
    | NilExtraArgument          // an extra argument is nil: Type() of a zero reflect.Value
    | ZeroValueArgument         // a parameter resolved to nil: reflect Call with a zero Value
    | ArgumentTypeMismatch      // a resolved value is not assignable to its parameter's type
    | NilFunction               // the callback is a nil value of a function type: reflect Call of a nil function

  /** What an operation that may panic ends in. */
  datatype Outcome<T> = Normal(value: T) | Failed(error: Error) | Panicked(fault: Fault)

  /** The three maps of a Container. */
  datatype State = State(
    bindings: map<Key, Factory>,
    instances: map<Key, Value>,
    aliases: map<Key, Key>)

  /** The registry New and Reset leave behind. */
  const Empty: State := State(map[], map[], map[])

  /** The result of one resolution: its outcome, the registry afterwards and
      the keys whose user factory ran (a multiset, so each run counts). */
  datatype Step<T> = Step(out: T, after: State, ran: multiset<Key>)

  /** Installs or replaces the binding of `k`. */
  function Bind(s: State, k: Key, f: Factory): (r: State) {
    s.(bindings := s.bindings[k := f])
  }

  /** Installs `f` only when `k` has no binding; an instance or an alias for
      `k` does not count. */
  function BindIf(s: State, k: Key, f: Factory): (r: (bool, State))
    ensures r.0 <==> k !in s.bindings
    ensures r.1 == if r.0 then Bind(s, k, f) else s
  {
    if k in s.bindings then (false, s) else (true, Bind(s, k, f))
  }

  /** Binds `k` to the caching wrapper around `inner`. */
  function Singleton(s: State, k: Key, inner: Value): (r: State) {
    Bind(s, k, SingletonOf(k, inner))
  }

  /** Stores a ready value under `k`. */
  function Instance(s: State, k: Key, v: Value): (r: State) {
    s.(instances := s.instances[k := v])
  }

  /** Records `alias` as another name of `target`. */
  function Alias(s: State, target: Key, alias: Key): (r: State) {
    s.(aliases := s.aliases[alias := target])
  }

  predicate Bound(s: State, k: Key) {
    k in s.bindings || k in s.instances || k in s.aliases
  }

  /** The key a resolution of `k` looks up: one alias substitution at most. */
  function Canonical(s: State, k: Key): (c: Key) {
    if k in s.aliases then s.aliases[k] else k
  }

  /** True when some map entry lets a lookup of `k` succeed. */
  predicate Resolvable(s: State, k: Key) {
    Canonical(s, k) in s.instances || Canonical(s, k) in s.bindings
  }

  /** The wrapper Singleton installs: a stored instance (whatever its value,
      nil included) is returned without running `inner`; otherwise `inner`
      runs once and its result is stored under `key`. */
  function SingletonResolver(s: State, key: Key, inner: Value): (r: Step<Value>)
    ensures key in r.after.instances && r.out == r.after.instances[key]
    ensures r.after.bindings == s.bindings && r.after.aliases == s.aliases
    ensures r.after.instances == s.instances[key := r.out]
    ensures key in s.instances <==> r.ran == multiset{}
    ensures r.ran <= multiset{key}
    ensures key in s.instances ==> r.after == s
    ensures key !in s.instances ==> r.out == inner
  {
    if key in s.instances then Step(s.instances[key], s, multiset{})
    else Step(inner, s.(instances := s.instances[key := inner]), multiset{key})
  }

  /** Running the binding found under key `k`. */
  function RunFactory(s: State, k: Key, f: Factory): (r: Step<Value>) {
    match f
    case Produce(v) => Step(v, s, multiset{k})
    case SingletonOf(key, inner) => SingletonResolver(s, key, inner)
  }

  /** `make` on a key that alias substitution has already produced: a stored
      instance first, then the binding, else BindingNotFound naming the key. */
  function Lookup(s: State, c: Key): (r: Step<Result<Value>>)
    ensures r.after.bindings == s.bindings && r.after.aliases == s.aliases
    ensures forall k :: k in s.instances ==> k in r.after.instances && r.after.instances[k] == s.instances[k]
    ensures forall k :: k in r.after.instances && k !in s.instances ==> k in r.ran && r.out == Ok(r.after.instances[k])
    ensures |r.ran| <= 1
    ensures r.ran == multiset{} ==> r.after == s
    ensures r.out.Err? <==> c !in s.instances && c !in s.bindings
    ensures r.out.Err? ==> r.out.error == BindingNotFound(c) && r.after == s && r.ran == multiset{}
    ensures c in s.instances ==> r == Step(Ok(s.instances[c]), s, multiset{})
    ensures c !in s.instances && c in s.bindings && s.bindings[c].Produce? ==> r == Step(Ok(s.bindings[c].result), s, multiset{c})
  {
    if c in s.instances then Step(Ok(s.instances[c]), s, multiset{})
    else if c !in s.bindings then Step(Err(BindingNotFound(c)), s, multiset{})
    else
      var st := RunFactory(s, c, s.bindings[c]);
      Step(Ok(st.out), st.after, st.ran)
  }

  /** `make`: one alias substitution, then Lookup. */
  function Resolve(s: State, k: Key): (r: Step<Result<Value>>)
    ensures r.after.bindings == s.bindings && r.after.aliases == s.aliases
    ensures forall k' :: k' in s.instances ==> k' in r.after.instances && r.after.instances[k'] == s.instances[k']
    ensures forall k' :: k' in r.after.instances && k' !in s.instances ==> k' in r.ran && r.out == Ok(r.after.instances[k'])
    ensures |r.ran| <= 1
    ensures r.ran == multiset{} ==> r.after == s
    ensures r.out.Ok? <==> Resolvable(s, k)
    ensures r.out.Err? ==> r.out.error == BindingNotFound(Canonical(s, k)) && r.after == s && r.ran == multiset{}
  {
    Lookup(s, Canonical(s, k))
  }

  /** `n` resolutions of `k` in a row, threading the registry through. */
  function ResolveRepeatedly(s: State, k: Key, n: nat): (r: Step<seq<Result<Value>>>)
    ensures |r.out| == n
    decreases n
  {
    if n == 0 then Step([], s, multiset{})
    else
      var first := Resolve(s, k);
      var rest := ResolveRepeatedly(first.after, k, n - 1);
      Step([first.out] + rest.out, rest.after, first.ran + rest.ran)
  }

  // ---------------------------------------------------------------------
  // Resolution order

  /** An instance stored under the substituted key short-circuits any
      binding for it: it is returned, nothing runs, nothing changes. */
  lemma InstanceShortCircuits(s: State, k: Key)
    requires Canonical(s, k) in s.instances
    ensures Resolve(s, k) == Step(Ok(s.instances[Canonical(s, k)]), s, multiset{})
  {
  }

  /** Without an instance, a plain binding runs its factory once per
      resolution and the registry is left as it was. */
  lemma PlainBindingRunsEachTime(s: State, k: Key)
    requires Canonical(s, k) !in s.instances
    requires Canonical(s, k) in s.bindings && s.bindings[Canonical(s, k)].Produce?
    ensures Resolve(s, k) == Step(Ok(s.bindings[Canonical(s, k)].result), s, multiset{Canonical(s, k)})
  {
  }

  /** An alias resolves exactly like its target when the target is not itself
      an alias. */
  lemma AliasResolvesLikeTarget(s: State, a: Key)
    requires a in s.aliases && s.aliases[a] !in s.aliases
    ensures Resolve(s, a) == Resolve(s, s.aliases[a])
  {
  }

  /** Substitution happens once: an alias of an alias is not followed, so it
      fails when its direct target has no entry, however the chain ends. */
  lemma AliasChainIsNotFollowed(s: State, a: Key)
    requires a in s.aliases
    requires s.aliases[a] in s.aliases
    requires s.aliases[a] !in s.instances && s.aliases[a] !in s.bindings
    ensures Resolve(s, a).out == Err(BindingNotFound(s.aliases[a]))
  {
  }

  // ---------------------------------------------------------------------
  // Registration

  /** Bind replaces: a second Bind on a key erases the first, and only the
      bindings map changes. */
  lemma BindLastWriteWins(s: State, k: Key, f1: Factory, f2: Factory)
    ensures Bind(Bind(s, k, f1), k, f2) == Bind(s, k, f2)
    ensures Bind(s, k, f2).instances == s.instances && Bind(s, k, f2).aliases == s.aliases
  {
  }

  /** After Bind(k, Produce(v)) on a key with no alias and no instance, a
      resolution of k yields v by running that factory. */
  lemma BindThenResolve(s: State, k: Key, v: Value)
    requires k !in s.aliases && k !in s.instances
    ensures Resolve(Bind(s, k, Produce(v)), k) == Step(Ok(v), Bind(s, k, Produce(v)), multiset{k})
  {
  }

  /** A BindIf that finds a binding leaves the registry as it was, so a
      second BindIf on the same key never overrides the first. */
  lemma {:induction false} BindIfNeverOverwrites(s: State, k: Key, f1: Factory, f2: Factory)
    ensures var first := BindIf(s, k, f1);
            var second := BindIf(first.1, k, f2);
            !second.0 && second.1 == first.1 && k in first.1.bindings
  {
  }

  /** Only the bindings map is consulted: an instance or alias under `k`
      does not stop BindIf. */
  lemma BindIfIgnoresInstancesAndAliases(s: State, k: Key, f: Factory)
    requires k !in s.bindings && (k in s.instances || k in s.aliases)
    ensures BindIf(s, k, f) == (true, Bind(s, k, f))
  {
  }

  /** Instance(k, v) changes only the instances map, and a resolution of an
      unaliased k then yields v without running a factory. */
  lemma InstanceThenResolve(s: State, k: Key, v: Value)
    requires k !in s.aliases
    ensures Instance(s, k, v).bindings == s.bindings && Instance(s, k, v).aliases == s.aliases
    ensures Resolve(Instance(s, k, v), k) == Step(Ok(v), Instance(s, k, v), multiset{})
  {
  }

  /** Alias(k, a) changes only the aliases map, and then resolving a is
      resolving k, as long as k itself is not an alias. */
  lemma AliasThenResolve(s: State, k: Key, a: Key)
    requires k !in s.aliases
    ensures Alias(s, k, a).bindings == s.bindings && Alias(s, k, a).instances == s.instances
    ensures Resolve(Alias(s, k, a), a) == Resolve(Alias(s, k, a), k)
  {
  }

  // ---------------------------------------------------------------------
  // Bound and Reset

  /** Whatever resolves is bound. */
  lemma ResolvableIsBound(s: State, k: Key)
    requires Resolve(s, k).out.Ok?
    ensures Bound(s, k)
  {
  }

  /** The converse fails: an alias is bound even when its target has no
      entry, and resolving it then reports the target. */
  lemma DanglingAliasIsBound(s: State, a: Key)
    requires a in s.aliases && s.aliases[a] !in s.instances && s.aliases[a] !in s.bindings
    ensures Bound(s, a)
    ensures Resolve(s, a).out == Err(BindingNotFound(s.aliases[a]))
  {
  }

  /** Each registration makes its key bound. */
  lemma RegistrationBinds(s: State, k: Key, f: Factory, v: Value, t: Key)
    ensures Bound(Bind(s, k, f), k) && Bound(Instance(s, k, v), k) && Bound(Alias(s, t, k), k)
  {
  }

  /** After Reset (or New) no key is bound and every resolution fails with
      the key itself. */
  lemma ResetUnbindsEverything(k: Key)
    ensures !Bound(Empty, k)
    ensures Resolve(Empty, k) == Step(Err(BindingNotFound(k)), Empty, multiset{})
  {
  }

  // ---------------------------------------------------------------------
  // Singleton

  /** Once the substituted key holds an instance, any number of resolutions
      return it, run nothing and change nothing. */
  lemma {:induction false} CachedResolutionIsStable(s: State, k: Key, n: nat)
    requires Canonical(s, k) in s.instances
    ensures ResolveRepeatedly(s, k, n).after == s
    ensures ResolveRepeatedly(s, k, n).ran == multiset{}
    ensures forall i :: 0 <= i < n ==> ResolveRepeatedly(s, k, n).out[i] == Ok(s.instances[Canonical(s, k)])
    decreases n
  {
    if n > 0 {
      CachedResolutionIsStable(s, k, n - 1);
    }
  }

  /** Singleton(k, inner) on an unaliased key: over any number n > 0 of
      resolutions, `inner` runs exactly once when k had no instance and never
      when it had one, and every resolution returns the same value, the
      stored one (nil included: presence is key membership). */
  lemma {:induction false} SingletonRunsAtMostOnce(s: State, k: Key, inner: Value, n: nat)
    requires k !in s.aliases && n > 0
    ensures var r := ResolveRepeatedly(Singleton(s, k, inner), k, n);
            && r.ran == (if k in s.instances then multiset{} else multiset{k})
            && (forall i :: 0 <= i < n ==> r.out[i] == Ok(if k in s.instances then s.instances[k] else inner))
            && r.after == Singleton(s, k, inner).(instances := s.instances[k := if k in s.instances then s.instances[k] else inner])
  {
    var s1 := Singleton(s, k, inner);
    var first := Resolve(s1, k);
    assert first.out == Ok(if k in s.instances then s.instances[k] else inner);
    assert first.ran == (if k in s.instances then multiset{} else multiset{k});
    assert Canonical(first.after, k) == k && k in first.after.instances;
    assert first.after.instances[k] == first.out.value;
    CachedResolutionIsStable(first.after, k, n - 1);
    var r := ResolveRepeatedly(s1, k, n);
    assert r.ran == first.ran + multiset{};
    forall i | 0 <= i < n
      ensures r.out[i] == first.out
    {
      if i > 0 {
        assert r.out[i] == ResolveRepeatedly(first.after, k, n - 1).out[i - 1];
      }
    }
  }

  /** Singleton(k, inner) then Alias(k, a): resolving k and then a returns
      one value, and `inner` runs at most once across both resolutions. */
  lemma {:induction false} AliasSharesSingleton(s: State, k: Key, a: Key, inner: Value)
    requires k !in s.aliases
    ensures var s1 := Alias(Singleton(s, k, inner), k, a);
            var r1 := Resolve(s1, k);
            var r2 := Resolve(r1.after, a);
            && r1.out == Ok(if k in s.instances then s.instances[k] else inner)
            && r2.out == r1.out
            && r1.ran + r2.ran == (if k in s.instances then multiset{} else multiset{k})
  {
    var s1 := Alias(Singleton(s, k, inner), k, a);
    var r1 := Resolve(s1, k);
    assert Canonical(s1, k) == k;
    assert k in r1.after.instances && r1.after.instances[k] == r1.out.value;
    assert Canonical(r1.after, a) == k;
    InstanceShortCircuits(r1.after, a);
  }
}
