/**
 * Applier: resolve the function a spec [ns, name, extra...] names and, when
 * the spec carries extra elements, call that function with them and keep
 * the function the call returns (Util.bootFn).
 */
module Applier {
  import opened Wrappers
  import opened Values
  import opened ClojureRuntime
  import opened Resolver

  /** A function spec: the namespace and the var name as strings, then the
      arguments for the higher-order call. */
  predicate WellFormedSpec(spec: seq<Value>)
  {
    |spec| >= 2 && spec[0].Str? && spec[1].Str?
  }

  /** Clojure's next on a seq over spec: the elements after the first, or nil
      when there are none. */
  function Next(s: seq<Value>): Option<seq<Value>>
  {
    if |s| > 1 then Some(s[1..]) else None
  }

  /** ArraySeq.create(spec).next().next(): the extra elements of the spec, in
      order, without the namespace and the name. */
  function HofArgs(spec: seq<Value>): (args: seq<Value>)
    requires |spec| > 2
    ensures |args| == |spec| - 2
    ensures forall i :: 0 <= i < |args| ==> args[i] == spec[i + 2]
  {
    Next(Next(spec).value).value
  }

  function Resolve(rt: Runtime, spec: seq<Value>): Result<Callable, Thrown>
    requires WellFormedSpec(spec)
  {
    BootSimpleFn(rt, spec[0].s, spec[1].s)
  }

  function BootFn(rt: Runtime, spec: seq<Value>): (r: Result<Callable, Thrown>)
    requires WellFormedSpec(spec)
    // resolution comes first, and its failure propagates unchanged
    ensures Resolve(rt, spec).Failure? ==> r == Resolve(rt, spec)
    // a two-element spec yields the resolved function itself, unwrapped
    ensures |spec| == 2 ==> r == Resolve(rt, spec)
    // otherwise the resolved function is called with exactly spec[2..], and
    // the function that call returns is the result; what the call throws
    // fails bootFn with that cause, wrapped when it is an exception
    ensures |spec| > 2 && Resolve(rt, spec).Success? ==>
              var call := rt.applyTo(Resolve(rt, spec).value, spec[2..]);
              (r.Success? <==> call.Success?) &&
              (call.Success? ==> r.value == call.value) &&
              (call.Failure? ==> r.error.cause == call.error &&
                                 (r.error.Wrapped? <==> call.error.Exception?))
  {
    var simpleFn :- Resolve(rt, spec);
    if |spec| == 2 then
      Success(simpleFn)
    else
      var hofArgs := HofArgs(spec);
      assert hofArgs == spec[2..];
      match rt.applyTo(simpleFn, hofArgs)
      case Success(f) => Success(f)
      case Failure(t) => Failure(Rethrow(t))
  }

  /** bootFn makes at most one call of the resolved function, with spec[2..]:
      two runtimes that agree on the load, the lookup and that one call give
      the same result. */
  lemma BootFnDependsOnlyOnItsCalls(rt1: Runtime, rt2: Runtime, spec: seq<Value>)
    requires WellFormedSpec(spec)
    requires rt1.load(NormalizePath(spec[0].s)) == rt2.load(NormalizePath(spec[0].s))
    requires rt1.lookup(spec[0].s, spec[1].s) == rt2.lookup(spec[0].s, spec[1].s)
    requires Resolve(rt1, spec).Success? && |spec| > 2 ==>
               rt1.applyTo(Resolve(rt1, spec).value, spec[2..])
               == rt2.applyTo(Resolve(rt1, spec).value, spec[2..])
    ensures BootFn(rt1, spec) == BootFn(rt2, spec)
  {
  }

  /** A failing bootFn carries, as its cause, what one of the runtime calls
      threw: the load, the var lookup or the higher-order call. Only
      exceptions from the load and the call are wrapped; an Error, and
      anything the lookup throws, escapes as itself. */
  lemma BootFnFailureKeepsCause(rt: Runtime, spec: seq<Value>)
    requires WellFormedSpec(spec) && BootFn(rt, spec).Failure?
    ensures var e := BootFn(rt, spec).error;
            var path := NormalizePath(spec[0].s);
            (rt.load(path) == Some(e.cause) && e == Rethrow(e.cause)) ||
            (rt.load(path).None? && rt.lookup(spec[0].s, spec[1].s) == Failure(e.cause) &&
             e.Unwrapped?) ||
            (|spec| > 2 && Resolve(rt, spec).Success? &&
             rt.applyTo(Resolve(rt, spec).value, spec[2..]) == Failure(e.cause) &&
             e == Rethrow(e.cause))
    ensures BootFn(rt, spec).error.Wrapped? ==> BootFn(rt, spec).error.cause.Exception?
  {
  }

  /** ["math-utils", "add", 5]: loads math_utils, calls add with (5), and
      returns the function that call returns; an arity exception from that
      call comes back wrapped. */
  lemma MathUtilsAddExample(rt: Runtime, add: Callable)
    requires rt.load("math_utils").None?
    requires rt.lookup("math-utils", "add") == Success(add)
    ensures rt.applyTo(add, [Int(5)]).Success? ==>
              BootFn(rt, [Str("math-utils"), Str("add"), Int(5)])
              == Success(rt.applyTo(add, [Int(5)]).value)
    ensures rt.applyTo(add, [Int(5)]) == Failure(Exception("Wrong number of args (1) passed to: add")) ==>
              BootFn(rt, [Str("math-utils"), Str("add"), Int(5)])
              == Failure(Wrapped(Exception("Wrong number of args (1) passed to: add")))
  {
    NormalizePathIs("math-utils", "math_utils");
    var spec := [Str("math-utils"), Str("add"), Int(5)];
    assert Resolve(rt, spec) == Success(add);
    assert spec[2..] == [Int(5)];
  }
}
