/** What Container.Call of container.go does, as functions on the registry
    value: reflection is replaced by explicit type names and an
    assignability relation, and the callback's body by a function from its
    arguments to its return values. */
module Invocation {
  import opened Registry

  /** The callback handed to Call: the nil interface, a value that is not a
      function (its runtime type is `ty`), a nil value of a function type
      with the declared types of its parameters, or a function with those
      types and a body yielding its return values. */
  datatype Callback =
    | NilCallback
    | NotFunc(ty: TypeName)
    | NilFunc(params: seq<TypeName>)
    | Func(params: seq<TypeName>, body: seq<Value> -> seq<Value>)

  /** The runtime's assignability relation on types (reflect's AssignableTo):
      `assignable(v, t)` when a value of type v may be passed as a t. */
  type Assignability = (TypeName, TypeName) -> bool

  /** What the scan of the extra arguments for one parameter ends in: the
      first extra that fits, no extra fitting, or a nil extra reached first
      (asking its type panics). */
  datatype Scan = Fits(at: nat) | NoFit | NilExtra(at: nat)

  /** The inner loop of Call: the extras from index `from` on, scanned in
      order for the first one assignable to `t`. */
  function ScanExtras(extras: seq<Value>, t: TypeName, assignable: Assignability, from: nat): (r: Scan)
    requires from <= |extras|
    ensures r.Fits? ==> from <= r.at < |extras| && extras[r.at].Obj? && assignable(extras[r.at].ty, t)
    ensures r.NilExtra? ==> from <= r.at < |extras| && extras[r.at].Nil?
    ensures forall j :: from <= j < (if r.NoFit? then |extras| else r.at) ==> extras[j].Obj? && !assignable(extras[j].ty, t)
    decreases |extras| - from
  {
    if from == |extras| then NoFit
    else if extras[from].Nil? then NilExtra(from)
    else if assignable(extras[from].ty, t) then Fits(from)
    else ScanExtras(extras, t, assignable, from + 1)
  }

  /** The outer loop of Call: the arguments for `params`, each the first
      fitting extra or else the registry's value under the parameter's type
      name, with the registry threaded through the resolutions. */
  function Assemble(s: State, params: seq<TypeName>, extras: seq<Value>, assignable: Assignability): (r: Step<Outcome<seq<Value>>>)
    ensures r.after.bindings == s.bindings && r.after.aliases == s.aliases
    ensures forall k :: k in s.instances ==> k in r.after.instances && r.after.instances[k] == s.instances[k]
    ensures r.out.Normal? ==> |r.out.value| == |params|
    decreases |params|
  {
    if params == [] then Step(Normal([]), s, multiset{})
    else
      var prev := Assemble(s, params[..|params| - 1], extras, assignable);
      if !prev.out.Normal? then prev
      else
        var t := params[|params| - 1];
        match ScanExtras(extras, t, assignable, 0)
        case NilExtra(_) => Step(Panicked(NilExtraArgument), prev.after, prev.ran)
        case Fits(at) => Step(Normal(prev.out.value + [extras[at]]), prev.after, prev.ran)
        case NoFit =>
          var m := Resolve(prev.after, t);
          if m.out.Err? then Step(Failed(UnresolvableParameter(t, m.out.error)), m.after, prev.ran + m.ran)
          else Step(Normal(prev.out.value + [m.out.value]), m.after, prev.ran + m.ran)
  }

  /** reflect's Call on the assembled arguments: it panics on a nil argument
      before anything else, then on an argument whose type does not fit its
      parameter; otherwise the body runs. */
  function Invoke(args: seq<Value>, params: seq<TypeName>, assignable: Assignability, body: seq<Value> -> seq<Value>): (r: Outcome<seq<Value>>)
    requires |args| == |params|
    ensures r.Normal? <==> forall i :: 0 <= i < |args| ==> args[i].Obj? && assignable(args[i].ty, params[i])
    ensures r.Normal? ==> r.value == body(args)
    ensures (exists i :: 0 <= i < |args| && args[i].Nil?) ==> r == Panicked(ZeroValueArgument)
    ensures (forall i :: 0 <= i < |args| ==> args[i].Obj?) && !r.Normal? ==> r == Panicked(ArgumentTypeMismatch)
    ensures !r.Failed?
  {
    if exists i :: 0 <= i < |args| && args[i].Nil? then Panicked(ZeroValueArgument)
    else if exists i :: 0 <= i < |args| && args[i].Obj? && !assignable(args[i].ty, params[i]) then Panicked(ArgumentTypeMismatch)
    else Normal(body(args))
  }

  /** Call(callback, extras...): a nil callback panics, a callback that is
      not a function fails with NotCallable, otherwise the arguments are
      assembled and the callback invoked; a nil function passes the kind
      check, so its arguments are assembled before the invocation panics. */
  function CallSpec(s: State, cb: Callback, extras: seq<Value>, assignable: Assignability): (r: Step<Outcome<seq<Value>>>)
    ensures cb.NotFunc? <==> r.out == Failed(NotCallable)
    ensures cb.NilCallback? ==> r.out == Panicked(NilCallbackType)
    ensures cb.NotFunc? || cb.NilCallback? ==> r.after == s && r.ran == multiset{}
    ensures cb.NilFunc? ==> !r.out.Normal? && (r.out.Panicked? ==> r.out.fault in {NilExtraArgument, NilFunction})
    ensures (cb.Func? || cb.NilFunc?) && !Assemble(s, cb.params, extras, assignable).out.Normal? ==> r == Assemble(s, cb.params, extras, assignable)
    ensures cb.NilFunc? && Assemble(s, cb.params, extras, assignable).out.Normal? ==> r.out == Panicked(NilFunction)
    ensures cb.Func? || cb.NilFunc? ==> r.after == Assemble(s, cb.params, extras, assignable).after && r.ran == Assemble(s, cb.params, extras, assignable).ran
    ensures cb.Func? ==> (r.out.Normal? <==> var a := Assemble(s, cb.params, extras, assignable).out;
                            a.Normal? && forall i :: 0 <= i < |cb.params| ==> a.value[i].Obj? && assignable(a.value[i].ty, cb.params[i]))
    ensures r.after.bindings == s.bindings && r.after.aliases == s.aliases
    ensures forall k :: k in s.instances ==> k in r.after.instances && r.after.instances[k] == s.instances[k]
    ensures forall k :: k in r.after.instances && k !in s.instances ==> k in r.ran
    ensures r.out.Normal? ==> cb.Func? && Assemble(s, cb.params, extras, assignable).out.Normal?
    ensures r.out.Normal? ==> r.out.value == cb.body(Assemble(s, cb.params, extras, assignable).out.value)
  {
    match cb
    case NilCallback => Step(Panicked(NilCallbackType), s, multiset{})
    case NotFunc(_) => Step(Failed(NotCallable), s, multiset{})
    case Func(params, body) =>
      var a := Assemble(s, params, extras, assignable);
      AssemblyAddsOnlyRunKeys(s, params, extras, assignable);
      if a.out.Normal? then Step(Invoke(a.out.value, params, assignable, body), a.after, a.ran)
      else if a.out.Failed? then AssemblyFailure(s, params, extras, assignable); a
      else a
    case NilFunc(params) =>
      var a := Assemble(s, params, extras, assignable);
      AssemblyAddsOnlyRunKeys(s, params, extras, assignable);
      if a.out.Normal? then Step(Panicked(NilFunction), a.after, a.ran)
      else if a.out.Failed? then AssemblyFailure(s, params, extras, assignable); a
      else AssemblyPanic(s, params, extras, assignable); a
  }

  // ---------------------------------------------------------------------
  // Lemmas

  /** A normal assembly has one argument per parameter: the first fitting
      extra where there is one, otherwise the registry's value under the
      parameter's type name, so an instance registered beforehand under that
      name is passed as it is. */
  lemma {:induction false} AssembledArgument(s: State, params: seq<TypeName>, extras: seq<Value>, assignable: Assignability, i: nat)
    requires Assemble(s, params, extras, assignable).out.Normal? && i < |params|
    ensures var arg := Assemble(s, params, extras, assignable).out.value[i];
            match ScanExtras(extras, params[i], assignable, 0)
            case Fits(at) => arg == extras[at]
            case NoFit => Canonical(s, params[i]) in s.instances ==> arg == s.instances[Canonical(s, params[i])]
            case NilExtra(_) => false
    decreases |params|
  {
    var init := params[..|params| - 1];
    if i < |init| {
      assert init[i] == params[i];
      AssembledArgument(s, init, extras, assignable, i);
    }
  }

  /** Assembly adds an instance entry only for a key whose factory ran
      during it (a singleton caching its first result). */
  lemma {:induction false} AssemblyAddsOnlyRunKeys(s: State, params: seq<TypeName>, extras: seq<Value>, assignable: Assignability)
    ensures var r := Assemble(s, params, extras, assignable);
            forall k :: k in r.after.instances && k !in s.instances ==> k in r.ran
    decreases |params|
  {
    if params != [] {
      AssemblyAddsOnlyRunKeys(s, params[..|params| - 1], extras, assignable);
    }
  }

  /** A failed assembly names a parameter that no extra fits and that the
      registry cannot resolve, with BindingNotFound as the cause. */
  lemma {:induction false} AssemblyFailure(s: State, params: seq<TypeName>, extras: seq<Value>, assignable: Assignability)
    requires Assemble(s, params, extras, assignable).out.Failed?
    ensures var e := Assemble(s, params, extras, assignable).out.error;
            && e.UnresolvableParameter?
            && e.typeName in params
            && ScanExtras(extras, e.typeName, assignable, 0).NoFit?
            && !Resolvable(s, e.typeName)
            && e.cause == BindingNotFound(Canonical(s, e.typeName))
    decreases |params|
  {
    if params != [] {
      var init := params[..|params| - 1];
      if Assemble(s, init, extras, assignable).out.Failed? {
        AssemblyFailure(s, init, extras, assignable);
      }
    }
  }

  /** An assembly panics only when a nil extra is reached, for some
      parameter, before any extra that fits it. */
  lemma {:induction false} AssemblyPanic(s: State, params: seq<TypeName>, extras: seq<Value>, assignable: Assignability)
    requires Assemble(s, params, extras, assignable).out.Panicked?
    ensures Assemble(s, params, extras, assignable).out.fault == NilExtraArgument
    ensures exists i :: 0 <= i < |params| && ScanExtras(extras, params[i], assignable, 0).NilExtra?
    decreases |params|
  {
    var init := params[..|params| - 1];
    if Assemble(s, init, extras, assignable).out.Panicked? {
      AssemblyPanic(s, init, extras, assignable);
      var i :| 0 <= i < |init| && ScanExtras(extras, init[i], assignable, 0).NilExtra?;
      assert init[i] == params[i];
    } else {
      assert ScanExtras(extras, params[|params| - 1], assignable, 0).NilExtra?;
    }
  }

  /** Call returns at the first parameter that fails or panics: the outcome
      of the whole assembly is that of the first prefix that does not end
      normally. */
  lemma {:induction false} AssembleStopsAtFirstFailure(s: State, params: seq<TypeName>, extras: seq<Value>, assignable: Assignability, i: nat)
    requires i <= |params|
    requires !Assemble(s, params[..i], extras, assignable).out.Normal?
    ensures Assemble(s, params, extras, assignable) == Assemble(s, params[..i], extras, assignable)
    decreases |params| - i
  {
    if i < |params| {
      var init := params[..|params| - 1];
      assert init[..i] == params[..i];
      AssembleStopsAtFirstFailure(s, init, extras, assignable, i);
    } else {
      assert params[..i] == params;
    }
  }

  /** One more parameter that an extra fits: that extra is appended. */
  lemma AssembleAppendsExtra(s: State, params: seq<TypeName>, extras: seq<Value>, assignable: Assignability, i: nat, at: nat)
    requires i < |params| && Assemble(s, params[..i], extras, assignable).out.Normal?
    requires ScanExtras(extras, params[i], assignable, 0) == Fits(at)
    ensures var prev := Assemble(s, params[..i], extras, assignable);
            Assemble(s, params[..i + 1], extras, assignable) == Step(Normal(prev.out.value + [extras[at]]), prev.after, prev.ran)
  {
    assert params[..i + 1][..i] == params[..i];
  }

  /** One more parameter that no extra fits and the registry resolves: the
      resolved value is appended and the registry is the one the resolution
      leaves. */
  lemma AssembleAppendsResolved(s: State, params: seq<TypeName>, extras: seq<Value>, assignable: Assignability, i: nat)
    requires i < |params| && Assemble(s, params[..i], extras, assignable).out.Normal?
    requires ScanExtras(extras, params[i], assignable, 0) == NoFit
    requires Resolve(Assemble(s, params[..i], extras, assignable).after, params[i]).out.Ok?
    ensures var prev := Assemble(s, params[..i], extras, assignable);
            var m := Resolve(prev.after, params[i]);
            Assemble(s, params[..i + 1], extras, assignable) == Step(Normal(prev.out.value + [m.out.value]), m.after, prev.ran + m.ran)
  {
    assert params[..i + 1][..i] == params[..i];
  }

  /** A parameter whose scan reaches a nil extra, or that no extra fits and
      the registry cannot resolve, ends the whole assembly there. */
  lemma AssembleStopsAt(s: State, params: seq<TypeName>, extras: seq<Value>, assignable: Assignability, i: nat)
    requires i < |params| && Assemble(s, params[..i], extras, assignable).out.Normal?
    requires var scan := ScanExtras(extras, params[i], assignable, 0);
             scan.NilExtra? || (scan.NoFit? && !Resolvable(Assemble(s, params[..i], extras, assignable).after, params[i]))
    ensures var prev := Assemble(s, params[..i], extras, assignable);
            var t := params[i];
            Assemble(s, params, extras, assignable) ==
              if ScanExtras(extras, t, assignable, 0).NilExtra? then Step(Panicked(NilExtraArgument), prev.after, prev.ran)
              else Step(Failed(UnresolvableParameter(t, BindingNotFound(Canonical(prev.after, t)))), prev.after, prev.ran)
  {
    assert params[..i + 1][..i] == params[..i];
    var prev := Assemble(s, params[..i], extras, assignable);
    assert prev.ran + multiset{} == prev.ran;
    AssembleStopsAtFirstFailure(s, params, extras, assignable, i + 1);
  }

  /** Extras are not consumed: any two parameters of one type that an extra
      fits both receive the first such extra. */
  lemma {:induction false} ExtrasAreNotConsumed(s: State, params: seq<TypeName>, extras: seq<Value>, assignable: Assignability, i: nat, j: nat)
    requires Assemble(s, params, extras, assignable).out.Normal?
    requires i < |params| && j < |params| && params[i] == params[j]
    requires ScanExtras(extras, params[i], assignable, 0).Fits?
    ensures var args := Assemble(s, params, extras, assignable).out.value;
            args[i] == args[j] == extras[ScanExtras(extras, params[i], assignable, 0).at]
  {
    AssembledArgument(s, params, extras, assignable, i);
    AssembledArgument(s, params, extras, assignable, j);
  }

  /** The smallest instance of the above: one extra fills two parameters of
      its type, and the registry is not consulted. */
  lemma {:induction false} OneExtraFillsTwoParameters(s: State, t: TypeName, e: Value, assignable: Assignability)
    requires e.Obj? && assignable(e.ty, t)
    ensures Assemble(s, [t, t], [e], assignable) == Step(Normal([e, e]), s, multiset{})
  {
    assert ScanExtras([e], t, assignable, 0) == Fits(0);
    assert [t][..0] == [];
    assert Assemble(s, [], [e], assignable) == Step(Normal([]), s, multiset{});
    assert [] + [e] == [e];
    assert Assemble(s, [t], [e], assignable) == Step(Normal([e]), s, multiset{});
    assert [t, t][..1] == [t] && [t, t][1] == t;
    assert [e] + [e] == [e, e];
  }

  /** The converse of Assemble's failure cases: when every parameter either
      has a fitting extra (reached before any nil extra) or is resolvable in
      the registry as it stands, the arguments are assembled. */
  lemma {:induction false} AssembleSucceeds(s: State, params: seq<TypeName>, extras: seq<Value>, assignable: Assignability)
    requires forall i :: 0 <= i < |params| ==>
               ScanExtras(extras, params[i], assignable, 0).Fits? ||
               (ScanExtras(extras, params[i], assignable, 0).NoFit? && Resolvable(s, params[i]))
    ensures Assemble(s, params, extras, assignable).out.Normal?
    decreases |params|
  {
    if params != [] {
      var init := params[..|params| - 1];
      assert forall i :: 0 <= i < |init| ==> init[i] == params[i];
      AssembleSucceeds(s, init, extras, assignable);
      var prev := Assemble(s, init, extras, assignable);
      var t := params[|params| - 1];
      if ScanExtras(extras, t, assignable, 0).NoFit? {
        assert Resolvable(s, t);
        assert Canonical(prev.after, t) == Canonical(s, t);
        assert Resolvable(prev.after, t);
      }
    }
  }

  /** A parameter no extra fits receives the instance registered under its
      type name, and a callback whose parameters are all so registered is
      invoked with those instances. */
  lemma {:induction false} InjectsRegisteredInstances(s: State, params: seq<TypeName>, body: seq<Value> -> seq<Value>, assignable: Assignability)
    requires forall i :: 0 <= i < |params| ==> params[i] !in s.aliases && params[i] in s.instances
    requires forall i :: 0 <= i < |params| ==> s.instances[params[i]].Obj? && assignable(s.instances[params[i]].ty, params[i])
    ensures var args := seq(|params|, i requires 0 <= i < |params| => s.instances[params[i]]);
            CallSpec(s, Func(params, body), [], assignable) == Step(Normal(body(args)), s, multiset{})
  {
    var args := seq(|params|, i requires 0 <= i < |params| => s.instances[params[i]]);
    AssembleSucceeds(s, params, [], assignable);
    AssembleLeavesStateWhenInstanced(s, params, [], assignable);
    var a := Assemble(s, params, [], assignable);
    forall i | 0 <= i < |params|
      ensures a.out.value[i] == args[i]
    {
      assert ScanExtras([], params[i], assignable, 0) == NoFit;
      AssembledArgument(s, params, [], assignable, i);
    }
    assert a.out.value == args;
  }

  /** When every parameter name is an unaliased key holding an instance, the
      assembly resolves without running a factory or changing the registry. */
  lemma {:induction false} AssembleLeavesStateWhenInstanced(s: State, params: seq<TypeName>, extras: seq<Value>, assignable: Assignability)
    requires forall i :: 0 <= i < |params| ==> params[i] !in s.aliases && params[i] in s.instances
    ensures Assemble(s, params, extras, assignable).after == s
    ensures Assemble(s, params, extras, assignable).ran == multiset{}
    decreases |params|
  {
    if params != [] {
      var init := params[..|params| - 1];
      assert forall i :: 0 <= i < |init| ==> init[i] == params[i];
      AssembleLeavesStateWhenInstanced(s, init, extras, assignable);
    }
  }

  /** A callback given no parameters is invoked on no arguments, without
      touching the registry. */
  lemma NoParametersNoResolution(s: State, body: seq<Value> -> seq<Value>, extras: seq<Value>, assignable: Assignability)
    ensures CallSpec(s, Func([], body), extras, assignable) == Step(Normal(body([])), s, multiset{})
  {
  }

  /** A nil function of a singleton's type still has its parameter resolved
      before reflect's Call panics: the factory runs and its value stays
      cached in the registry. */
  lemma NilFunctionStillResolves(s: State, t: TypeName, inner: Value, assignable: Assignability)
    requires t !in s.aliases && t !in s.instances
    ensures var s1 := Singleton(s, t, inner);
            CallSpec(s1, NilFunc([t]), [], assignable) ==
              Step(Panicked(NilFunction), s1.(instances := s.instances[t := inner]), multiset{t})
  {
    var s1 := Singleton(s, t, inner);
    assert [t][..0] == [];
    assert ScanExtras([], t, assignable, 0) == NoFit;
    assert Assemble(s1, [], [], assignable) == Step(Normal([]), s1, multiset{});
    assert Resolve(s1, t) == Step(Ok(inner), s1.(instances := s.instances[t := inner]), multiset{t});
    assert [] + [inner] == [inner] && multiset{} + multiset{t} == multiset{t};
    assert Assemble(s1, [t], [], assignable) == Step(Normal([inner]), s1.(instances := s.instances[t := inner]), multiset{t});
  }
}
