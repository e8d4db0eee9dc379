// The payload carried through the propagation graph, and the dynamic
// equality the store's dedup filter applies to it.

module Optional {
  datatype Option<+T> = None | Some(value: T) {
    function GetOr(default: T): T {
      match this
      case Some(v) => v
      case None => default
    }
  }
}

module Values {

  /** The type-erased payload (`Any` in the source). An optional is
      represented by its wrapped value, or by `Nil` when it is empty. */
  datatype Value =
    | Void                                  // ()
    | Nil                                   // an empty optional
    | Num(n: int)
    | Flag(b: bool)
    | Text(s: string)
    | Pair(fst: Value, snd: Value)          // a tuple
    | Done(params: Value, result: Value)    // Effect.Finally.done
    | Fail(params: Value, error: Value)      // Effect.Finally.fail
    | Opaque(tag: nat)                      // a value of a type that is not Hashable

  /** Whether the value's dynamic type conforms to Hashable. Tuples, `()`,
      the effect's Finally enum and opaque values do not. */
  predicate Hashable(v: Value) {
    v.Nil? || v.Num? || v.Flag? || v.Text?
  }

  /** areEqual(Any, Any): false unless both sides are hashable, otherwise
      AnyHashable equality. */
  function AreEqual(lhs: Value, rhs: Value): (r: bool)
    ensures r ==> lhs == rhs
    ensures !Hashable(lhs) || !Hashable(rhs) ==> !r
  {
    if !Hashable(lhs) then false
    else if !Hashable(rhs) then false
    else lhs == rhs
  }

  /** A store of non-hashable state never deduplicates: its value is not
      equal even to itself. */
  lemma NonHashableNeverEqual(v: Value, w: Value)
    requires !Hashable(v)
    ensures !AreEqual(v, w) && !AreEqual(w, v)
  {
  }

  /** On hashable values the dynamic equality is plain value equality. */
  lemma HashableEquality(v: Value, w: Value)
    requires Hashable(v) && Hashable(w)
    ensures AreEqual(v, w) <==> v == w
  {
  }

  lemma AreEqualSymmetric(v: Value, w: Value)
    ensures AreEqual(v, w) == AreEqual(w, v)
  {
  }

  /** The numeric content of a value, 0 for anything that is not a number
      (the source force-casts and would trap instead). */
  function AsInt(v: Value): int {
    if v.Num? then v.n else 0
  }

  function AsBool(v: Value): bool {
    v.Flag? && v.b
  }
}
