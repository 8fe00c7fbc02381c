/**
 * The seam to the Clojure runtime. Loading a namespace, looking up a var and
 * applying a function are foreign calls; a Runtime value says only what each
 * of them returns, or what it throws.
 */
module ClojureRuntime {
  import opened Wrappers
  import opened Values

  /** A Clojure function (an IFn), opaque. */
  datatype Callable = Fn(id: nat)

  /** What a foreign call throws. `catch (Exception e)` catches the first
      kind only: a java.lang.Error (NoClassDefFoundError,
      ExceptionInInitializerError, AssertionError, ...) passes through it. */
  datatype Throwable =
    | Exception(message: string)
    | Error(message: string)

  datatype Runtime = Runtime(
    /** RT.load(path): None when the namespace loads, Some(t) when it throws t. */
    load: string -> Option<Throwable>,
    /** RT.var(ns, name).deref(): the function bound to the var, or what it throws. */
    lookup: (string, string) -> Result<Callable, Throwable>,
    /** f.applyTo(args): calls f with args and gives the function that call
        returns, or what it throws. */
    applyTo: (Callable, seq<Value>) -> Result<Callable, Throwable>)
}
