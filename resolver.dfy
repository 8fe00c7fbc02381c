/**
 * Resolver: turn a namespace name into the path the Clojure loader expects,
 * load that namespace, and take the function bound to a var in it
 * (Util.bootSimpleFn).
 */
module Resolver {
  import opened Wrappers
  import opened ClojureRuntime

  /** String.replace(from, to) on one character: every occurrence of from
      becomes to, every other character stays where it is. */
  function ReplaceChar(s: string, from: char, to: char): (r: string)
    ensures |r| == |s|
    ensures forall i :: 0 <= i < |s| ==> r[i] == (if s[i] == from then to else s[i])
  {
    if s == [] then []
    else (if s[0] == from then [to] else [s[0]]) + ReplaceChar(s[1..], from, to)
  }

  /** The rewrite of one namespace character into a path character. */
  function PathChar(c: char): char
  {
    if c == '-' then '_' else if c == '.' then '/' else c
  }

  /** The load path of a namespace: hyphens become underscores, then dots
      become slashes. */
  function NormalizePath(ns: string): (path: string)
    ensures |path| == |ns|
    ensures forall i :: 0 <= i < |ns| ==> path[i] == PathChar(ns[i])
    ensures '-' !in path && '.' !in path
  {
    ReplaceChar(ReplaceChar(ns, '-', '_'), '.', '/')
  }

  /** A path holds no hyphen and no dot, so normalising it again changes nothing. */
  lemma NormalizePathIdempotent(ns: string)
    ensures NormalizePath(NormalizePath(ns)) == NormalizePath(ns)
  {
  }

  /** A namespace is its own path exactly when it holds no hyphen and no dot. */
  lemma NormalizePathFixedIff(ns: string)
    ensures NormalizePath(ns) == ns <==> ('-' !in ns && '.' !in ns)
  {
  }

  /** Normalisation works character by character, so it distributes over
      concatenation. */
  lemma NormalizePathConcat(a: string, b: string)
    ensures NormalizePath(a + b) == NormalizePath(a) + NormalizePath(b)
  {
  }

  /** The path of a namespace is the one string that rewrites it character
      by character. */
  lemma NormalizePathIs(ns: string, path: string)
    requires |path| == |ns|
    requires forall i :: 0 <= i < |ns| ==> path[i] == PathChar(ns[i])
    ensures NormalizePath(ns) == path
  {
  }

  /** Distinct namespaces can share a path: "a-b" and "a_b" load the same file. */
  lemma HyphenAndUnderscoreShareAPath()
    ensures NormalizePath("a-b") == NormalizePath("a_b") == "a_b"
  {
  }

  /** How a failure leaves the bridge. */
  datatype Thrown =
    /** new RuntimeException(cause): the cause is kept, not replaced. */
    | Wrapped(cause: Throwable)
    /** The throwable itself, escaping as thrown. */
    | Unwrapped(cause: Throwable)

  /** `try { ... } catch (Exception e) { throw new RuntimeException(e); }`:
      an exception is wrapped, an Error passes through the catch. */
  function Rethrow(t: Throwable): Thrown
  {
    if t.Exception? then Wrapped(t) else Unwrapped(t)
  }

  /** Load the namespace ns (under its normalised path) and return the
      function bound to the var ns/name. */
  function BootSimpleFn(rt: Runtime, ns: string, name: string): (r: Result<Callable, Thrown>)
    // a load failure fails the call with the load's own throwable: an
    // exception is wrapped, an Error escapes unwrapped; no retry, no fallback
    ensures rt.load(NormalizePath(ns)).Some? ==>
              var t := rt.load(NormalizePath(ns)).value;
              r.Failure? && r.error.cause == t && (r.error.Wrapped? <==> t.Exception?)
    // after a load the var is looked up under the namespace as given, not the path
    ensures rt.load(NormalizePath(ns)).None? ==>
              (r.Success? <==> rt.lookup(ns, name).Success?)
    ensures r.Success? ==> r.value == rt.lookup(ns, name).value
    // a failing lookup is outside the try block and escapes unwrapped
    ensures rt.load(NormalizePath(ns)).None? && rt.lookup(ns, name).Failure? ==>
              r == Failure(Unwrapped(rt.lookup(ns, name).error))
  {
    match rt.load(NormalizePath(ns))
    case Some(t) => Failure(Rethrow(t))
    case None =>
      match rt.lookup(ns, name)
      case Success(f) => Success(f)
      case Failure(t) => Failure(Unwrapped(t))
  }

  /** Resolution consults the loader only at the namespace's path and the
      var table only at ns/name: two runtimes that agree there resolve alike. */
  lemma BootSimpleFnDependsOnlyOnPathAndVar(rt1: Runtime, rt2: Runtime, ns: string, name: string)
    requires rt1.load(NormalizePath(ns)) == rt2.load(NormalizePath(ns))
    requires rt1.lookup(ns, name) == rt2.lookup(ns, name)
    ensures BootSimpleFn(rt1, ns, name) == BootSimpleFn(rt2, ns, name)
  {
  }
}
