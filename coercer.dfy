/**
 * Coercer: hand a tuple to Clojure as a seq of its elements
 * (Util.coerceFromTuple), and turn whatever Clojure returns back into a
 * tuple (Util.coerceToTuple).
 */
module Coercer {
  import opened Values

  /** IteratorSeq.create over the tuple's iterator: a seq of the elements in
      tuple order, or nil when the tuple is empty (the iterator has no first
      element). An IteratorSeq is a java.util.Collection. */
  function CoerceFromTuple(t: Tuple): (v: Value)
    ensures v == Null <==> t.elems == []
    ensures v != Null ==> v.Coll? && v.items == t.elems
  {
    if t.elems == [] then Null else Coll(t.elems)
  }

  /** What a Clojure consumer reads from a seq argument element by element:
      nil is the empty seq, a collection its elements in iteration order. */
  function SeqElements(v: Value): seq<Value>
    requires v == Null || v.Coll?
  {
    if v == Null then [] else v.items
  }

  /** Reading the seq for a tuple back element by element gives the tuple's
      elements, in order, for every tuple, the empty one included. */
  lemma CoerceFromTupleElements(t: Tuple)
    ensures SeqElements(CoerceFromTuple(t)) == t.elems
  {
  }

  /** The tuple coerceToTuple builds from a value: a collection's elements
      in iteration order, anything else as a one-element tuple. */
  function TupleOf(v: Value): Tuple
  {
    if v.Coll? then Tuple(v.items) else Tuple([v])
  }

  /** A collection becomes a tuple of its size (zero for an empty one) whose
      i-th element is its i-th element in iteration order. */
  lemma TupleOfCollection(items: seq<Value>)
    ensures |TupleOf(Coll(items)).elems| == |items|
    ensures forall i :: 0 <= i < |items| ==> TupleOf(Coll(items)).elems[i] == items[i]
  {
  }

  /** A value that is not a collection (null, a boolean, a tuple, a map...)
      becomes a tuple holding exactly that value. */
  lemma TupleOfScalar(v: Value)
    requires !v.Coll?
    ensures TupleOf(v) == Tuple([v])
  {
  }

  /** Only the outer collection is unwrapped: nested collections stay whole. */
  lemma TupleOfUnwrapsOneLevel(inner: seq<Value>)
    ensures TupleOf(Coll([Coll(inner)])) == Tuple([Coll(inner)])
  {
  }

  /** A non-empty tuple handed to Clojure and coerced back is the same tuple. */
  lemma RoundTrip(t: Tuple)
    requires t.elems != []
    ensures TupleOf(CoerceFromTuple(t)) == t
  {
  }

  /** The empty tuple comes back as a one-element tuple holding null: its
      seq is nil, and nil is not a collection. */
  lemma EmptyTupleRoundTrip()
    ensures TupleOf(CoerceFromTuple(Tuple([]))) == Tuple([Null])
  {
  }

  /** Convert a Clojure value into a new tuple. A collection is copied out
      through toArray into a freshly allocated array, element by element;
      any other value is wrapped alone. */
  method CoerceToTuple(obj: Value) returns (t: Tuple)
    ensures t == TupleOf(obj)
  {
    if obj.Coll? {
      // Collection.toArray: a new array of the elements in iteration order
      var rawArr := new Value[|obj.items|](i requires 0 <= i < |obj.items| => obj.items[i]);
      var arr := new Value[rawArr.Length](_ => Null);
      // System.arraycopy(rawArr, 0, arr, 0, rawArr.Length)
      var i := 0;
      while i < rawArr.Length
        invariant 0 <= i <= rawArr.Length == arr.Length
        invariant arr[..i] == rawArr[..i]
        invariant rawArr[..] == obj.items
      {
        arr[i] := rawArr[i];
        i := i + 1;
      }
      assert arr[..] == arr[..i];
      t := Tuple(arr[..]);
    } else {
      t := Tuple([obj]);
    }
  }
}
