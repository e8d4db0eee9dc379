// The generic `areEqual` overloads (Effector/AreEqual.swift): `==` for
// Equatable values and false for any other type. The overload for class
// instances (identity) has no counterpart here: the model's values are not
// references. The older package target (Sources/SwiftEffector/AreEqual.swift)
// has the first and the last of these, and there the Equatable one is
// reachable only with the argument labels `lhs:rhs:`, so an unlabelled
// call binds the always-false fallback.

module Equality {

  /** `areEqual<T: Equatable>`. */
  function Equatable<T(==)>(lhs: T, rhs: T): bool
  {
    lhs == rhs
  }

  /** `areEqual<T>`: the unconstrained fallback. */
  function Unconstrained<T>(lhs: T, rhs: T): (r: bool)
    ensures !r
  {
    false
  }

  /** On the Equatable path `areEqual` is symmetric, and on the model's
      values (whose `==` is Dafny's equality) it relates every value to
      itself; the fallback does not even relate a value to itself. */
  lemma EqualityPaths<T>(a: T, b: T)
    ensures Equatable(a, a) && Equatable(a, b) == Equatable(b, a)
    ensures !Unconstrained(a, a)
  {
  }
}
