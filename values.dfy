/**
 * The Java objects that cross the bridge between Cascading and Clojure.
 * Kept apart are null and booleans (for truthiness), collections (for tuple
 * coercion), integers and strings (the namespace and name of a function spec
 * and literal arguments), and every other object as an opaque value.
 */
module Values {

  datatype Value =
    | Null
    | Bool(b: bool)
    | Int(i: int)
    | Str(s: string)
      /** Any java.util.Collection (a Java list or set, a Clojure vector, list
          or seq), given by its elements in iteration order. */
    | Coll(items: seq<Value>)
      /** Any other object (a map, a tuple, a function, ...), opaque. */
    | Obj(id: nat)

  /** A Cascading tuple: a fixed-order sequence of values. */
  datatype Tuple = Tuple(elems: seq<Value>)
}
