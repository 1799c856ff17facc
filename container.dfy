/** The Container of container.go: an object whose three maps its methods
    update in place. Each method is proved to do to the maps what the
    functions of modules Registry and Invocation say, and to record every
    run of a user factory in the ghost multiset `runs`. */
module DI {
  import opened Registry
  import opened Invocation

  class Container {
    var bindings: map<Key, Factory>
    var instances: map<Key, Value>
    var aliases: map<Key, Key>

    /** Every run of a user factory so far, by the key it ran for. */
    ghost var runs: multiset<Key>

    /** The three maps as a registry value. */
    function Model(): Registry.State
      reads this
    {
      Registry.State(bindings, instances, aliases)
    }

    /** New: an empty registry. */
    constructor ()
      ensures Model() == Empty && runs == multiset{}
    {
      bindings := map[];
      instances := map[];
      aliases := map[];
      runs := multiset{};
    }

    /** Installs or replaces the binding of `k`. */
    method Bind(k: Key, f: Factory)
      modifies this
      ensures Model() == Registry.Bind(old(Model()), k, f) && runs == old(runs)
    {
      bindings := bindings[k := f];
    }

    /** Binds `k` only if it has no binding; says whether it did. */
    method BindIf(k: Key, f: Factory) returns (installed: bool)
      modifies this
      ensures (installed, Model()) == Registry.BindIf(old(Model()), k, f) && runs == old(runs)
    {
      var present := k in bindings;
      if !present {
        Bind(k, f);
        return true;
      }
      return false;
    }

    /** The wrapper's body: return the instance stored under `key` if there
        is one (nil included), else run `inner` and store its result. */
    method SingletonResolve(key: Key, inner: Value) returns (v: Value)
      modifies this
      ensures var st := SingletonResolver(old(Model()), key, inner);
              v == st.out && Model() == st.after && runs == old(runs) + st.ran
    {
      if key in instances {
        return instances[key];
      }
      v := inner;
      runs := runs + multiset{key};
      instances := instances[key := v];
    }

    /** Binds `k` to the caching wrapper around `inner`. */
    method Singleton(k: Key, inner: Value)
      modifies this
      ensures Model() == Registry.Singleton(old(Model()), k, inner) && runs == old(runs)
    {
      Bind(k, SingletonOf(k, inner));
    }

    /** Stores a ready value under `k`; nothing else changes. */
    method Instance(k: Key, v: Value)
      modifies this
      ensures Model() == Registry.Instance(old(Model()), k, v) && runs == old(runs)
    {
      instances := instances[k := v];
    }

    /** Records `alias` as another name of `target`; nothing else changes. */
    method Alias(target: Key, alias: Key)
      modifies this
      ensures Model() == Registry.Alias(old(Model()), target, alias) && runs == old(runs)
    {
      aliases := aliases[alias := target];
    }

    /** Make (and the internal make it calls): substitute an alias once,
        return a stored instance, else run the binding, else fail naming the
        substituted key. */
    method Make(k: Key) returns (r: Result<Value>)
      modifies this
      ensures var st := Resolve(old(Model()), k);
              r == st.out && Model() == st.after && runs == old(runs) + st.ran
    {
      var key := k;
      if key in aliases {
        key := aliases[key];
      }
      if key in instances {
        return Ok(instances[key]);
      }
      if key !in bindings {
        return Err(BindingNotFound(key));
      }
      match bindings[key]
      case Produce(v) =>
        runs := runs + multiset{key};
        return Ok(v);
      case SingletonOf(singletonKey, inner) =>
        var v := SingletonResolve(singletonKey, inner);
        return Ok(v);
    }

    /** Make, with an unresolvable key escalated to a panic carrying Make's
        error. */
    method MustMake(k: Key) returns (r: Outcome<Value>)
      modifies this
      ensures var st := Resolve(old(Model()), k);
              && (r.Normal? <==> st.out.Ok?)
              && (st.out.Ok? ==> r.value == st.out.value)
              && (st.out.Err? ==> r == Panicked(Unresolved(st.out.error)))
              && Model() == st.after && runs == old(runs) + st.ran
    {
      var made := Make(k);
      if made.Err? {
        return Panicked(Unresolved(made.error));
      }
      return Normal(made.value);
    }

    /** True when `k` has a binding, an instance or an alias. */
    function Bound(k: Key): (b: bool)
      reads this
      ensures b == Registry.Bound(Model(), k)
    {
      k in bindings || k in instances || k in aliases
    }

    /** Replaces all three maps by empty ones. */
    method Reset()
      modifies this
      ensures Model() == Empty && runs == old(runs)
    {
      bindings := map[];
      instances := map[];
      aliases := map[];
    }

    /** The outer loop of Call: for each parameter in order, the first extra
        assignable to it or else the registry's value under its type name;
        stops at the first parameter that panics or fails. */
    method AssembleArguments(params: seq<TypeName>, extras: seq<Value>, assignable: Assignability) returns (r: Outcome<seq<Value>>)
      modifies this
      ensures var st := Assemble(old(Model()), params, extras, assignable);
              r == st.out && Model() == st.after && runs == old(runs) + st.ran
    {
      ghost var s0 := Model();
      var args: seq<Value> := [];
      var i := 0;
      while i < |params|
        invariant 0 <= i <= |params|
        invariant Assemble(s0, params[..i], extras, assignable).out == Normal(args)
        invariant Assemble(s0, params[..i], extras, assignable).after == Model()
        invariant runs == old(runs) + Assemble(s0, params[..i], extras, assignable).ran
      {
        var t := params[i];
        var scan := FirstAssignable(extras, t, assignable);
        match scan {
          case NilExtra(_) =>
            AssembleStopsAt(s0, params, extras, assignable, i);
            return Panicked(NilExtraArgument);
          case Fits(at) =>
            AssembleAppendsExtra(s0, params, extras, assignable, i, at);
            args := args + [extras[at]];
          case NoFit =>
            var made := Make(t);
            if made.Err? {
              AssembleStopsAt(s0, params, extras, assignable, i);
              return Failed(UnresolvableParameter(t, made.error));
            }
            AssembleAppendsResolved(s0, params, extras, assignable, i);
            args := args + [made.value];
        }
        i := i + 1;
      }
      assert params[..i] == params;
      return Normal(args);
    }

    /** Call: a nil callback panics and a non-function fails; otherwise the
        arguments are assembled, the callback runs (a nil function panics
        there) and its return values are collected in order. */
    method Call(cb: Callback, extras: seq<Value>, assignable: Assignability) returns (r: Outcome<seq<Value>>)
      modifies this
      ensures var st := CallSpec(old(Model()), cb, extras, assignable);
              r == st.out && Model() == st.after && runs == old(runs) + st.ran
    {
      match cb
      case NilCallback =>
        return Panicked(NilCallbackType);
      case NotFunc(_) =>
        return Failed(NotCallable);
      case NilFunc(params) =>
        var assembled := AssembleArguments(params, extras, assignable);
        if !assembled.Normal? {
          return assembled;
        }
        return Panicked(NilFunction);
      case Func(params, body) =>
        var assembled := AssembleArguments(params, extras, assignable);
        if !assembled.Normal? {
          return assembled;
        }
        var invoked := Invoke(assembled.value, params, assignable, body);
        if !invoked.Normal? {
          return invoked;
        }
        var returned := invoked.value;
        var result: seq<Value> := [];
        for n := 0 to |returned|
          invariant result == returned[..n]
        {
          result := result + [returned[n]];
        }
        assert returned[..|returned|] == returned;
        return Normal(result);
    }
  }

  /** The inner loop of Call: the extras scanned in order for the first one
      assignable to `t`; a nil extra reached first stops the scan (asking
      its type panics). */
  method FirstAssignable(extras: seq<Value>, t: TypeName, assignable: Assignability) returns (scan: Scan)
    ensures scan == ScanExtras(extras, t, assignable, 0)
  {
    for j := 0 to |extras|
      invariant forall m :: 0 <= m < j ==> extras[m].Obj? && !assignable(extras[m].ty, t)
    {
      if extras[j].Nil? {
        return NilExtra(j);
      }
      if assignable(extras[j].ty, t) {
        return Fits(j);
      }
    }
    return NoFit;
  }
}
