// The older node (Sources/SwiftEffector/Node.swift): its priority tags are
// child, pure, combine, link and effect. Its nodes run on the same kernel
// as the newer ones; the tag of a node is lowered to the kernel's priority
// with the same raw value, so `link` takes the slot of `sample`.

module LegacyNodes {
  import opened Nodes

  datatype Tag = Child | Pure | Combine | Link | Effect

  function TagRaw(t: Tag): nat {
    match t
    case Child => 1
    case Pure => 2
    case Combine => 3
    case Link => 4
    case Effect => 5
  }

  /** The kernel priority a legacy tag runs at. */
  function Lower(t: Tag): (p: Priority)
    ensures RawValue(p) == TagRaw(t)
  {
    match t
    case Child => Priority.Child
    case Pure => Priority.Pure
    case Combine => Priority.Combine
    case Link => Priority.Sample
    case Effect => Priority.Effect
  }

  /** Lowering keeps the order of the tags and tells them apart, so the
      kernel runs legacy nodes in the order their tags give. */
  lemma LowerKeepsOrder(a: Tag, b: Tag)
    ensures TagRaw(a) < TagRaw(b) <==> RawValue(Lower(a)) < RawValue(Lower(b))
    ensures Lower(a) == Lower(b) <==> a == b
  {
    RawValueOrder();
  }
}
