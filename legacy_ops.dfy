// The older operators over stores and events (Sources/SwiftEffector):
// combine over two or three stores, allSatisfy and contains, and the
// sample / link routing node. Merge is the same there as in the newer
// tree and is modelled once, by `Merging.Merge`.

module LegacyOperators {
  import opened Values
  import opened Nodes
  import opened Optional
  import opened Kernel
  import opened Events
  import opened LegacyStores
  import LegacyNodes

  function Cells(stores: seq<Store>): (r: seq<nat>)
    ensures |r| == |stores| && forall i :: 0 <= i < |stores| ==> r[i] == stores[i].cell
  {
    seq(|stores|, i requires 0 <= i < |stores| => stores[i].cell)
  }

  function NodeIds(stores: seq<Store>): (r: seq<nat>)
    ensures |r| == |stores| && forall i :: 0 <= i < |stores| ==> r[i] == stores[i].node
  {
    seq(|stores|, i requires 0 <= i < |stores| => stores[i].node)
  }

  predicate AllFit(stores: seq<Store>, nodes: nat, cells: nat) {
    forall i :: 0 <= i < |stores| ==> Fits(stores[i], nodes, cells)
  }

  /** A derived store `name` seeded with `fn` of the operands' states, and
      a combine-priority store-kind node from every operand that reads them
      again and feeds the new store. */
  method Gather(rt: Runtime, name: string, stores: seq<Store>, fn: seq<Value> -> Value) returns (combined: Store)
    requires rt.Valid() && AllFit(stores, |rt.nodes|, |rt.states|)
    modifies rt
    ensures rt.Valid()
    ensures var n := |old(rt.nodes)|; var c := |old(rt.states)|;
            var initial := fn(Read(old(rt.states), Cells(stores)));
            combined == Store(n + 1, c, name, initial, true, Event(n, name + ":updates", true))
            && rt.states == old(rt.states) + [initial]
            && rt.nodes == AppendEdges(old(rt.nodes) + StoreNodes(n, name, c), NodeIds(stores), n + 2)
                           + [Node(n + 2, name, StoreKind, LegacyNodes.Lower(LegacyNodes.Combine), [n + 1],
                                   [ReadStores(Cells(stores), fn)])]
    ensures rt.log == old(rt.log)
  {
    var cells := Cells(stores);
    combined := NewStore(rt, name, fn(Read(rt.states, cells)), true);
    var _ := rt.CreateNode(name, StoreKind, LegacyNodes.Lower(LegacyNodes.Combine), NodeIds(stores),
                           [ReadStores(cells, fn)], [combined.node]);
  }

  /** `combine(a, b, fn)` and `combine(a, b, c, fn)`. */
  method Combine(rt: Runtime, stores: seq<Store>, fn: seq<Value> -> Value) returns (combined: Store)
    requires rt.Valid() && AllFit(stores, |rt.nodes|, |rt.states|)
    requires 2 <= |stores| <= 3
    modifies rt
    ensures rt.Valid()
    ensures var n := |old(rt.nodes)|; var c := |old(rt.states)|;
            var initial := fn(Read(old(rt.states), Cells(stores)));
            combined == Store(n + 1, c, "combine", initial, true, Event(n, "combine" + ":updates", true))
            && rt.states == old(rt.states) + [initial]
            && rt.nodes == AppendEdges(old(rt.nodes) + StoreNodes(n, "combine", c), NodeIds(stores), n + 2)
                           + [Node(n + 2, "combine", StoreKind, LegacyNodes.Lower(LegacyNodes.Combine), [n + 1],
                                   [ReadStores(Cells(stores), fn)])]
    ensures rt.log == old(rt.log)
  {
    combined := Gather(rt, "combine", stores, fn);
  }

  /** Whether every value satisfies `fn`. */
  function Every(fn: Value -> bool, vs: seq<Value>): (r: bool)
    ensures r <==> forall i :: 0 <= i < |vs| ==> fn(vs[i])
  {
    if vs == [] then true else fn(vs[0]) && Every(fn, vs[1..])
  }

  /** Whether some value satisfies `fn`. */
  function Any(fn: Value -> bool, vs: seq<Value>): (r: bool)
    ensures r <==> exists i :: 0 <= i < |vs| && fn(vs[i])
  {
    if vs == [] then false
    else
      assert forall i :: 1 <= i < |vs| ==> vs[1..][i - 1] == vs[i];
      fn(vs[0]) || Any(fn, vs[1..])
  }

  function AllOf(fn: Value -> bool): seq<Value> -> Value {
    vs => Flag(Every(fn, vs))
  }

  function AnyOf(fn: Value -> bool): seq<Value> -> Value {
    vs => Flag(Any(fn, vs))
  }

  function Negated(fn: Value -> bool): Value -> bool {
    v => !fn(v)
  }

  /** `allSatisfy(stores, fn)`. */
  method AllSatisfy(rt: Runtime, stores: seq<Store>, fn: Value -> bool) returns (combined: Store)
    requires rt.Valid() && AllFit(stores, |rt.nodes|, |rt.states|)
    modifies rt
    ensures rt.Valid()
    ensures var n := |old(rt.nodes)|; var c := |old(rt.states)|;
            var initial := Flag(forall i :: 0 <= i < |stores| ==> fn(old(rt.states)[stores[i].cell]));
            combined == Store(n + 1, c, "allSatisfy", initial, true, Event(n, "allSatisfy" + ":updates", true))
            && rt.states == old(rt.states) + [initial]
            && rt.nodes == AppendEdges(old(rt.nodes) + StoreNodes(n, "allSatisfy", c), NodeIds(stores), n + 2)
                           + [Node(n + 2, "allSatisfy", StoreKind, LegacyNodes.Lower(LegacyNodes.Combine), [n + 1],
                                   [ReadStores(Cells(stores), AllOf(fn))])]
    ensures rt.log == old(rt.log)
  {
    combined := Gather(rt, "allSatisfy", stores, AllOf(fn));
  }

  /** `contains(stores, fn)`. */
  method Contains(rt: Runtime, stores: seq<Store>, fn: Value -> bool) returns (combined: Store)
    requires rt.Valid() && AllFit(stores, |rt.nodes|, |rt.states|)
    modifies rt
    ensures rt.Valid()
    ensures var n := |old(rt.nodes)|; var c := |old(rt.states)|;
            var initial := Flag(exists i :: 0 <= i < |stores| && fn(old(rt.states)[stores[i].cell]));
            combined == Store(n + 1, c, "contains", initial, true, Event(n, "contains" + ":updates", true))
            && rt.states == old(rt.states) + [initial]
            && rt.nodes == AppendEdges(old(rt.nodes) + StoreNodes(n, "contains", c), NodeIds(stores), n + 2)
                           + [Node(n + 2, "contains", StoreKind, LegacyNodes.Lower(LegacyNodes.Combine), [n + 1],
                                   [ReadStores(Cells(stores), AnyOf(fn))])]
    ensures rt.log == old(rt.log)
  {
    combined := Gather(rt, "contains", stores, AnyOf(fn));
  }

  /** allSatisfy of no stores is true and contains of no stores is false;
      allSatisfy is contains of the negated predicate, negated. */
  lemma {:induction false} EveryIsNotSomeNot(fn: Value -> bool, vs: seq<Value>)
    ensures Every(fn, []) && !Any(fn, [])
    ensures Every(fn, vs) <==> !Any(Negated(fn), vs)
  {
    if !Every(fn, vs) {
      var i :| 0 <= i < |vs| && !fn(vs[i]);
      assert Negated(fn)(vs[i]);
    }
  }

  /** The allSatisfy / contains / combine node ignores its payload and
      re-reads the operands; the store after it then holds the result. */
  lemma {:induction false} GatherFollows(cells: seq<nat>, fn: Value -> bool, d: nat, p: Value, states: seq<Value>, log: seq<Signal>)
    requires IdsBelow(cells, |states|) && d < |states|
    ensures StepsFit([ReadStores(cells, AllOf(fn))], |states|) && StepsFit([ReadStores(cells, AnyOf(fn))], |states|)
    ensures var o := RunSteps([ReadStores(cells, AllOf(fn))], p, states, log);
            o.passed && o.value == Flag(forall i :: 0 <= i < |cells| ==> fn(states[cells[i]]))
            && RunSteps([LegacyAssign(d)], o.value, o.states, o.log).states == states[d := o.value]
    ensures var o := RunSteps([ReadStores(cells, AnyOf(fn))], p, states, log);
            o.passed && o.value == Flag(exists i :: 0 <= i < |cells| && fn(states[cells[i]]))
            && RunSteps([LegacyAssign(d)], o.value, o.states, o.log).states == states[d := o.value]
  {
    SingleStep(ReadStores(cells, AllOf(fn)), p, states, log);
    SingleStep(ReadStores(cells, AnyOf(fn)), p, states, log);
    var vs := Read(states, cells);
    assert Every(fn, vs) <==> forall i :: 0 <= i < |cells| ==> fn(states[cells[i]]);
    if Any(fn, vs) {
      var i :| 0 <= i < |vs| && fn(vs[i]);
      assert fn(states[cells[i]]);
    }
    AlwaysAssigns(d, Flag(Every(fn, vs)), states, log);
    AlwaysAssigns(d, Flag(Any(fn, vs)), states, log);
  }

  // sample and link.

  /** The unit a sample or link also feeds, named in the default name. */
  datatype Target = Target(node: nat, name: string)

  function TargetName(target: Option<Target>): string {
    if target.Some? then target.value.name else "*"
  }

  /** The successors: the fresh derived event, then the target if any. */
  function TargetIds(ev: nat, target: Option<Target>): (r: seq<nat>)
    ensures |r| >= 1 && r[0] == ev && (target.Some? <==> |r| == 2) && (target.Some? ==> r[1] == target.value.node)
  {
    [ev] + (if target.Some? then [target.value.node] else [])
  }

  /** The mapping used when none is given: the source's state. */
  function StateOnly(s: Value, p: Value): Value {
    s
  }

  /** With a source: a filter against the source's state if one is given,
      then the mapping of the state and the payload. */
  function SourcedSteps(source: nat, filter: Option<(Value, Value) -> bool>, mapping: Option<(Value, Value) -> Value>): seq<Step> {
    (if filter.Some? then [SourceFilter(source, filter.value)] else [])
    + [SourceMap(source, mapping.GetOr(StateOnly))]
  }

  /** Without a source: the filter and the mapping, each only if given. */
  function PlainSteps(filter: Option<Value -> bool>, mapping: Option<Value -> Value>): seq<Step> {
    (if filter.Some? then [Filter(filter.value)] else [])
    + (if mapping.Some? then [Compute(mapping.value)] else [])
  }

  function SourcedName(source: string, trigger: string, target: Option<Target>): string {
    "sample:(" + source + ", " + trigger + ") -> " + TargetName(target)
  }

  function PlainName(trigger: string, target: Option<Target>): string {
    "sample:(" + trigger + ") -> " + TargetName(target)
  }

  /** The routing node: a derived event, then an event-kind node at the
      link tag from the trigger to that event and the target. */
  method Route(rt: Runtime, name: string, trigger: Event, steps: seq<Step>, target: Option<Target>) returns (ev: Event)
    requires rt.Valid() && trigger.node < |rt.nodes| && StepsFit(steps, |rt.states|)
    requires target.Some? ==> target.value.node < |rt.nodes|
    modifies rt
    ensures rt.Valid()
    ensures var n := |old(rt.nodes)|;
            ev == Event(n, name, true)
            && rt.nodes == AppendEdges(old(rt.nodes) + [EventNode(n, name)], [trigger.node], n + 1)
                           + [Node(n + 1, name, EventKind, LegacyNodes.Lower(LegacyNodes.Link), TargetIds(n, target), steps)]
    ensures rt.states == old(rt.states) && rt.log == old(rt.log)
  {
    ev := NewEvent(rt, name, true);
    var _ := rt.CreateNode(name, EventKind, LegacyNodes.Lower(LegacyNodes.Link), [trigger.node], steps, TargetIds(ev.node, target));
  }

  /** `linkBase` / `sampleBase` with a source store. */
  method SourcedLink(rt: Runtime, name: Option<string>, trigger: Event, source: Store,
                     filter: Option<(Value, Value) -> bool>, mapping: Option<(Value, Value) -> Value>, target: Option<Target>)
    returns (ev: Event)
    requires rt.Valid() && trigger.node < |rt.nodes| && Fits(source, |rt.nodes|, |rt.states|)
    requires target.Some? ==> target.value.node < |rt.nodes|
    modifies rt
    ensures rt.Valid()
    ensures var n := |old(rt.nodes)|; var nodeName := name.GetOr(SourcedName(source.name, trigger.name, target));
            ev == Event(n, nodeName, true)
            && rt.nodes == AppendEdges(old(rt.nodes) + [EventNode(n, nodeName)], [trigger.node], n + 1)
                           + [Node(n + 1, nodeName, EventKind, LegacyNodes.Lower(LegacyNodes.Link), TargetIds(n, target),
                                   SourcedSteps(source.cell, filter, mapping))]
    ensures rt.states == old(rt.states) && rt.log == old(rt.log)
  {
    var steps := SourcedSteps(source.cell, filter, mapping);
    ev := Route(rt, name.GetOr(SourcedName(source.name, trigger.name, target)), trigger, steps, target);
  }

  /** `linkBase` / `sampleBase` without a source. */
  method PlainLink(rt: Runtime, name: Option<string>, trigger: Event,
                   filter: Option<Value -> bool>, mapping: Option<Value -> Value>, target: Option<Target>)
    returns (ev: Event)
    requires rt.Valid() && trigger.node < |rt.nodes|
    requires target.Some? ==> target.value.node < |rt.nodes|
    modifies rt
    ensures rt.Valid()
    ensures var n := |old(rt.nodes)|; var nodeName := name.GetOr(PlainName(trigger.name, target));
            ev == Event(n, nodeName, true)
            && rt.nodes == AppendEdges(old(rt.nodes) + [EventNode(n, nodeName)], [trigger.node], n + 1)
                           + [Node(n + 1, nodeName, EventKind, LegacyNodes.Lower(LegacyNodes.Link), TargetIds(n, target),
                                   PlainSteps(filter, mapping))]
    ensures rt.states == old(rt.states) && rt.log == old(rt.log)
  {
    ev := Route(rt, name.GetOr(PlainName(trigger.name, target)), trigger, PlainSteps(filter, mapping), target);
  }

  /** With a source, a payload gets through exactly when there is no
      filter or the filter accepts the source's state and the payload, and
      then comes out as the mapping of both (the state alone without a
      mapping); nothing is written. */
  lemma {:induction false} SourcedRun(source: nat, filter: Option<(Value, Value) -> bool>, mapping: Option<(Value, Value) -> Value>,
                                      p: Value, states: seq<Value>, log: seq<Signal>)
    requires source < |states|
    ensures StepsFit(SourcedSteps(source, filter, mapping), |states|)
    ensures var o := RunSteps(SourcedSteps(source, filter, mapping), p, states, log);
            (o.passed <==> filter.None? || filter.value(states[source], p))
            && (o.passed ==> o.value == (if mapping.Some? then mapping.value(states[source], p) else states[source]))
            && o.states == states && o.log == log
  {
    var m := SourceMap(source, mapping.GetOr(StateOnly));
    SingleStep(m, p, states, log);
    if filter.Some? {
      var steps := SourcedSteps(source, filter, mapping);
      assert steps == [SourceFilter(source, filter.value), m];
      assert steps[1..] == [m];
    } else {
      assert SourcedSteps(source, filter, mapping) == [m];
    }
  }

  /** Without a source, a payload gets through exactly when there is no
      filter or the filter accepts it, and comes out mapped, or unchanged
      when there is no mapping. */
  lemma {:induction false} PlainRun(filter: Option<Value -> bool>, mapping: Option<Value -> Value>,
                                    p: Value, states: seq<Value>, log: seq<Signal>)
    ensures StepsFit(PlainSteps(filter, mapping), |states|)
    ensures var o := RunSteps(PlainSteps(filter, mapping), p, states, log);
            (o.passed <==> filter.None? || filter.value(p))
            && (o.passed ==> o.value == (if mapping.Some? then mapping.value(p) else p))
            && o.states == states && o.log == log
  {
    var steps := PlainSteps(filter, mapping);
    var rest := if mapping.Some? then [Compute(mapping.value)] else [];
    if mapping.Some? {
      SingleStep(Compute(mapping.value), p, states, log);
    } else {
      EmptyPipelineForwards(p, states, log);
    }
    if filter.Some? {
      assert steps == [Filter(filter.value)] + rest;
      assert steps[1..] == rest;
    } else {
      assert steps == rest;
    }
  }

  /** `s + p > 0` and `s + p` on numbers. */
  function SumPositive(s: Value, p: Value): bool {
    AsInt(s) + AsInt(p) > 0
  }

  function Sum(s: Value, p: Value): Value {
    Num(AsInt(s) + AsInt(p))
  }

  /** With a source holding 1, the filter `s + p > 0` and the mapping
      `s + p`, the triggers -10 and 1 make the sample emit 2 only. */
  lemma SampleExample()
    ensures StepsFit(SourcedSteps(0, Some(SumPositive), Some(Sum)), 1)
    ensures Emitted(SourcedSteps(0, Some(SumPositive), Some(Sum)), [Num(-10), Num(1)], [Num(1)]) == [Num(2)]
  {
    var steps := SourcedSteps(0, Some(SumPositive), Some(Sum));
    SourcedRun(0, Some(SumPositive), Some(Sum), Num(-10), [Num(1)], []);
    SourcedRun(0, Some(SumPositive), Some(Sum), Num(1), [Num(1)], []);
    assert [Num(-10), Num(1)][1..] == [Num(1)];
    assert [Num(1)][1..] == [];
  }
}
