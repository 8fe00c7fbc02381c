/**
 * Truthiness: Clojure's convention, in which only nil and false are false
 * (Util.truthy).
 */
module Truthiness {
  import opened Values

  /** Boolean.FALSE.equals(v): v is a Boolean holding false. */
  predicate IsBooleanFalse(v: Value)
  {
    v.Bool? && !v.b
  }

  function Truthy(v: Value): (r: bool)
    ensures !r <==> v == Null || v == Bool(false)
  {
    v != Null && !IsBooleanFalse(v)
  }

  /** Only nil and false are false: zero, the empty string, the empty
      collection and true are all truthy. */
  lemma ZeroAndEmptyAreTruthy()
    ensures Truthy(Int(0)) && Truthy(Str("")) && Truthy(Coll([])) && Truthy(Bool(true))
    ensures !Truthy(Null) && !Truthy(Bool(false))
  {
  }
}
