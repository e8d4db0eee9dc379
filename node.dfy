// Graph vertices: priority tags, steps and the node record
// (Effector/Node.swift). Nodes live in the runtime's `nodes` sequence,
// indexed by their id; the mutations of `next` and `seq` are methods of
// Kernel.Runtime.

module Nodes {
  import opened Values

  /** Scheduling class. Lower raw value is dequeued first. */
  datatype Priority = Child | Pure | Combine | Sample | Effect

  function RawValue(p: Priority): (r: nat)
    ensures 1 <= r <= 5
  {
    match p
    case Child => 1
    case Pure => 2
    case Combine => 3
    case Sample => 4
    case Effect => 5
  }

  /** The tags are ordered child < pure < combine < sample < effect, and the
      raw value identifies the tag. */
  lemma RawValueOrder()
    ensures RawValue(Child) < RawValue(Pure) < RawValue(Combine) < RawValue(Sample) < RawValue(Effect)
    ensures forall p: Priority, q: Priority :: RawValue(p) == RawValue(q) ==> p == q
  {
  }

  datatype Kind = Regular | EventKind | StoreKind | EffectKind | DomainKind

  /** A step of a node's pipeline. `Compute` and `Filter` are the source's
      two step kinds with a pure closure; the other variants are the
      closures of the source that read or write store state or perform an
      observable call, spelled out so that the kernel can give them meaning:
      - StoreFilter: `!areEqual(value, currentState)` of a store;
      - Assign: the store's assign step (writes currentState, returns value);
      - LegacyAssign: the older assign step (writes unless the unlabelled
        areEqual holds, which it never does), returns value;
      - Reduce: an `on` reducer `fn(currentState, payload)`;
      - ReadStores: a combine-style step that ignores the payload and
        applies `f` to the operands' current states;
      - SourceFilter / SourceMap: sample steps reading a source store;
      - Observe: a watcher `fn(value)`; the carried value becomes `()`;
      - Spawn: the effect's enqueueRunner, which hands the params to the
        asynchronous handler and returns them unchanged. */
  datatype Step =
    | Compute(f: Value -> Value)
    | Filter(p: Value -> bool)
    | StoreFilter(cell: nat)
    | Assign(cell: nat)
    | LegacyAssign(cell: nat)
    | Reduce(cell: nat, reducer: (Value, Value) -> Value)
    | ReadStores(cells: seq<nat>, combine: seq<Value> -> Value)
    | SourceFilter(source: nat, check: (Value, Value) -> bool)
    | SourceMap(source: nat, mapping: (Value, Value) -> Value)
    | Observe(watcher: nat)
    | Spawn(effect: nat)

  /** The store cells a step reads or writes are allocated. */
  predicate StepFits(s: Step, cells: nat) {
    match s
    case StoreFilter(c) => c < cells
    case Assign(c) => c < cells
    case LegacyAssign(c) => c < cells
    case Reduce(c, _) => c < cells
    case ReadStores(cs, _) => forall i :: 0 <= i < |cs| ==> cs[i] < cells
    case SourceFilter(c, _) => c < cells
    case SourceMap(c, _) => c < cells
    case _ => true
  }

  predicate StepsFit(steps: seq<Step>, cells: nat) {
    forall i :: 0 <= i < |steps| ==> StepFits(steps[i], cells)
  }

  predicate IdsBelow(ids: seq<nat>, bound: nat) {
    forall i :: 0 <= i < |ids| ==> ids[i] < bound
  }

  datatype Node = Node(
    id: nat,
    name: string,
    kind: Kind,
    priority: Priority,
    next: seq<nat>,
    steps: seq<Step>)

  /** A node refers only to allocated nodes and store cells. */
  predicate NodeFits(n: Node, nodes: nat, cells: nat) {
    IdsBelow(n.next, nodes) && StepsFit(n.steps, cells)
  }

  /** The number of times `k` occurs in `s`. */
  function Occurrences(s: seq<nat>, k: nat): (r: nat)
    ensures r <= |s|
    ensures r == 0 <==> k !in s
  {
    if s == [] then 0
    else (if s[0] == k then 1 else 0) + Occurrences(s[1..], k)
  }

  lemma OccurrencesAppend(s: seq<nat>, x: nat, k: nat)
    ensures Occurrences(s + [x], k) == Occurrences(s, k) + (if x == k then 1 else 0)
  {
    if s != [] {
      assert (s + [x])[1..] == s[1..] + [x];
      OccurrencesAppend(s[1..], x, k);
    }
  }

  /** `n` copies of `x`. */
  function Repeat(x: nat, n: nat): (r: seq<nat>)
    ensures |r| == n
    ensures forall i :: 0 <= i < n ==> r[i] == x
  {
    seq(n, _ => x)
  }
}
