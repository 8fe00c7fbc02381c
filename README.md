# cascading-clojure bridge, modelled in Dafny

This project models `cascading.clojure.Util`, the bridge that lets Cascading
pipeline operations call Clojure functions. It covers four parts:

- **Resolver** (`resolver.dfy`, `bootSimpleFn`). A namespace name becomes a
  load path: every `-` becomes `_`, then every `.` becomes `/`. The namespace
  is loaded under that path, and the function bound to the var `ns/name` is
  returned.
- **Applier** (`applier.dfy`, `bootFn`). A function spec is
  `[ns, name, extra...]`. With exactly two elements the resolved function is
  returned as is. Otherwise the resolved function is called, through
  `applyTo`, with `spec[2..]` in order, and the function that call returns is
  the result: the named function is a higher-order function that builds the
  operation's function from the extra elements.
- **Coercer** (`coercer.dfy`, `coerceFromTuple`, `coerceToTuple`). A tuple is
  handed to Clojure as a seq of its elements. A Clojure result becomes a new
  tuple: a collection is copied element by element into a freshly allocated
  array, and anything else is wrapped as a one-element tuple.
- **Truthiness** (`truthiness.dfy`, `truthy`). Only `nil` and `false` are
  false.

The Clojure runtime is a seam, not a model (`clojure_runtime.dfy`). A
`Runtime` value says what `RT.load(path)` throws, if anything, what
`RT.var(ns, name).deref()` returns or throws, and what `f.applyTo(args)`
returns or throws. A Clojure function is the opaque `Callable`. Java objects
are the datatype `Values.Value`. A `java.util.Collection` (Java lists and
sets, Clojure vectors, lists and seqs) is `Coll(items)`, with its elements in
iteration order. A thrown value is a `Throwable`: an `Exception`, which
`catch (Exception e)` catches, or an `Error`, which passes through it. A
failure of the bridge is the `Failure` side of `Wrappers.Result`, holding a
`Resolver.Thrown`: `Wrapped(cause)` for `new RuntimeException(cause)`, or
`Unwrapped(cause)` for a throwable that escapes as thrown.

Two details of the code shape the contracts:

- `bootSimpleFn` wraps only what `RT.load` throws, and only exceptions. The
  var lookup (`src/jvm/cascading/clojure/Util.java:20`) is outside the `try`
  block, so whatever it throws escapes unwrapped, and so does a
  `java.lang.Error` from the load or from `applyTo`.
- `coerceFromTuple` uses Clojure's `IteratorSeq.create`, which returns `nil`
  for an iterator with no elements. The seq of an empty tuple is therefore
  `nil`. Read as a seq, `nil` is empty, so the elements still match
  (`Coercer.CoerceFromTupleElements`). But `coerceToTuple(nil)` wraps `nil`
  as a scalar, so the round trip fails for the empty tuple: it comes back as
  the one-element tuple `[null]` (`Coercer.EmptyTupleRoundTrip`). The round
  trip holds for every non-empty tuple (`Coercer.RoundTrip`).

## Model

| member | source | states |
|---|---|---|
| `Resolver.ReplaceChar` | src/jvm/cascading/clojure/Util.java:14 | `String.replace(char, char)`: same length; every occurrence of `from` becomes `to`; every other character is unchanged at its index |
| `Resolver.NormalizePath` | src/jvm/cascading/clojure/Util.java:14 | the load path has the namespace's length; each character is the namespace's character at that index with `-` mapped to `_` and `.` mapped to `/`; the path contains no `-` and no `.` |
| `Resolver.NormalizePathIdempotent` | src/jvm/cascading/clojure/Util.java:14 | normalising a path again changes nothing |
| `Resolver.NormalizePathFixedIff` | src/jvm/cascading/clojure/Util.java:14 | a namespace is its own path if and only if it has no `-` and no `.` |
| `Resolver.NormalizePathConcat` | src/jvm/cascading/clojure/Util.java:14 | normalisation works per character: it distributes over concatenation |
| `Resolver.HyphenAndUnderscoreShareAPath` | src/jvm/cascading/clojure/Util.java:14 | the rewrite is not injective: `a-b` and `a_b` load the same path `a_b` |
| `Resolver.NormalizePathIs` | src/jvm/cascading/clojure/Util.java:14 | the path of a namespace is the one string of its length that rewrites it character by character |
| `Resolver.BootSimpleFn` | src/jvm/cascading/clojure/Util.java:13-21 | what the load throws fails the call with that same throwable, wrapped exactly when it is an exception; after a successful load the result is the var lookup under the namespace as written (not the path); whatever the lookup throws escapes unwrapped; it succeeds exactly when both calls do |
| `Resolver.BootSimpleFnDependsOnlyOnPathAndVar` | src/jvm/cascading/clojure/Util.java:14-20 | the result depends only on loading the normalised path and looking up `ns/name`: no other module is consulted and no other var is looked up |
| `Applier.HofArgs` | src/jvm/cascading/clojure/Util.java:30 | `ArraySeq.create(spec).next().next()` holds two elements fewer than the spec, the i-th being `spec[i + 2]`: the extra elements in order, without namespace and name |
| `Applier.BootFn` | src/jvm/cascading/clojure/Util.java:23-37 | a resolution failure propagates unchanged; a two-element spec yields the resolved function itself; a longer spec calls the resolved function with exactly `spec[2..]` and yields the function that call returns, or fails with what the call threw, wrapped exactly when it is an exception |
| `Applier.BootFnDependsOnlyOnItsCalls` | src/jvm/cascading/clojure/Util.java:26-32 | the result depends only on the load, the lookup and the one call of the resolved function with `spec[2..]`: the resolved function is called with no other arguments |
| `Applier.BootFnFailureKeepsCause` | src/jvm/cascading/clojure/Util.java:15-35 | every failure carries what the load, the lookup or the higher-order call threw; only exceptions from the load and the call are wrapped, so a wrapped failure always holds an exception; there is no fallback value |
| `Applier.MathUtilsAddExample` | src/jvm/cascading/clojure/Util.java:23-37 | `["math-utils", "add", 5]` loads `math_utils`, calls `add` with `(5)` and yields the function that call returns; an arity exception from that call comes back wrapped |
| `Coercer.CoerceFromTuple` | src/jvm/cascading/clojure/Util.java:39-41 | the seq is `nil` exactly for the empty tuple; otherwise it is a collection of the tuple's elements in tuple order |
| `Coercer.CoerceFromTupleElements` | src/jvm/cascading/clojure/Util.java:39-41 | read element by element, the seq gives exactly the tuple's elements in order, for every tuple |
| `Coercer.CoerceToTuple` | src/jvm/cascading/clojure/Util.java:43-52 | the method allocates an array, copies the collection's elements into it in a loop, and returns exactly `TupleOf(obj)`: the collection's elements in order, or the one-element tuple `[obj]` |
| `Coercer.TupleOfCollection` | src/jvm/cascading/clojure/Util.java:44-48 | a collection of any size, zero included, gives a tuple of that size whose i-th element is its i-th element in iteration order |
| `Coercer.TupleOfScalar` | src/jvm/cascading/clojure/Util.java:49-51 | any value that is not a collection gives the one-element tuple holding exactly that value |
| `Coercer.TupleOfUnwrapsOneLevel` | src/jvm/cascading/clojure/Util.java:44-48 | only the outer collection is unwrapped; a nested collection stays one element |
| `Coercer.RoundTrip` | src/jvm/cascading/clojure/Util.java:39-48 | a non-empty tuple passed through `coerceFromTuple` and back through `coerceToTuple` is the same tuple |
| `Coercer.EmptyTupleRoundTrip` | src/jvm/cascading/clojure/Util.java:39-51 | the empty tuple comes back from that round trip as the one-element tuple `[null]` |
| `Truthiness.Truthy` | src/jvm/cascading/clojure/Util.java:54-56 | false if and only if the value is `null` or `Boolean.FALSE` |
| `Truthiness.ZeroAndEmptyAreTruthy` | src/jvm/cascading/clojure/Util.java:55 | zero, the empty string, the empty collection and `true` are truthy; `null` and `false` are not |

## Left out

- Resolver.BootSimpleFnDependsOnlyOnPathAndVar: does not state that a failed load is not retried. `Runtime.load` and `Runtime.lookup` are pure functions, so a second identical call gives the same answer, and the model cannot tell a retry from none. The code has no retry (`src/jvm/cascading/clojure/Util.java:15-18`).
- Applier.BootFnDependsOnlyOnItsCalls: likewise does not state that a failed `applyTo` is not retried; `Runtime.applyTo` is pure, so the model cannot observe a retry. The code has none (`src/jvm/cascading/clojure/Util.java:31-35`).
- `RT.load`, `RT.var(...).deref()` and `applyTo` are foreign calls into the Clojure runtime. They are parameters (`ClojureRuntime.Runtime`) and are not modelled; module loading's concurrency and repeated-load behaviour belong to that runtime.
- What the function called by `applyTo` computes is not modelled: the model says which function is called with which arguments and that its returned function is the result. Reading the extra spec elements as leading arguments bound to the named function holds only for a named function that returns a function of the remaining arguments; the code does not impose that.
- `Applier.BootFn` requires a spec of at least two elements whose first two are non-null strings (`Values.Str` is never null). Java's runtime typing and null strings are not modelled. On other arrays the Java code does the following:
  - a shorter array throws `ArrayIndexOutOfBoundsException`;
  - a non-string namespace or name throws `ClassCastException`;
  - a null namespace throws `NullPointerException` at `ns_name.replace` (`src/jvm/cascading/clojure/Util.java:14`), outside the `try`, so it escapes unwrapped;
  - a null name passes the load and reaches `RT.var` (`src/jvm/cascading/clojure/Util.java:20`).
- The `(IFn)` and `(Comparable)` casts are not modelled, and neither is the `ArrayStoreException` that `System.arraycopy` throws for an element that is not `Comparable`.
- The seq from `coerceFromTuple` is lazy and single-pass over the tuple's iterator. It is modelled as the finite collection of the tuple's elements.
- `Collection.toArray` is modelled as a fresh array of the collection's elements in iteration order; how each collection class builds it is not modelled.
- The unused `OperationCall` import has no counterpart.
