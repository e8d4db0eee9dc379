// The older store (Sources/SwiftEffector/Store.swift): an updates event and
// a node named "store" whose single step assigns the new state unless the
// unlabelled `areEqual` says it is equal (it never does) and always passes
// the value on, so `updates` fires on every write. There is no reinit
// event and no stop for an equal state.

module LegacyStores {
  import opened Values
  import opened Nodes
  import opened Optional
  import opened Kernel
  import opened Events
  import Stores
  import LegacyNodes

  datatype Store = Store(
    node: nat,
    cell: nat,
    name: string,
    defaultState: Value,
    isDerived: bool,
    updates: Event)

  predicate Fits(st: Store, nodes: nat, cells: nat) {
    st.node < nodes && st.cell < cells
  }

  /** The nodes `Store.init` creates from id `n` on. */
  function StoreNodes(n: nat, name: string, cell: nat): seq<Node> {
    [EventNode(n, name + ":updates"),
     Node(n + 1, "store", StoreKind, LegacyNodes.Lower(LegacyNodes.Child), [n], [LegacyAssign(cell)])]
  }

  /** `Store.init`. */
  method NewStore(rt: Runtime, name: string, defaultState: Value, isDerived: bool) returns (st: Store)
    requires rt.Valid()
    modifies rt
    ensures rt.Valid()
    ensures var n := |old(rt.nodes)|; var c := |old(rt.states)|;
            st == Store(n + 1, c, name, defaultState, isDerived, Event(n, name + ":updates", true))
            && rt.nodes == old(rt.nodes) + StoreNodes(n, name, c)
            && rt.states == old(rt.states) + [defaultState]
            && rt.log == old(rt.log)
  {
    var c := rt.NewCell(defaultState);
    var updates := NewEvent(rt, name + ":updates", true);
    var id := rt.NewNode("store", StoreKind, LegacyNodes.Lower(LegacyNodes.Child), [updates.node], [LegacyAssign(c)]);
    st := Store(id, c, name, defaultState, isDerived, updates);
  }

  function GetState(rt: Runtime, st: Store): Value
    requires Fits(st, |rt.nodes|, |rt.states|)
    reads rt
  {
    rt.states[st.cell]
  }

  /** `setState`: launch the store node with the new state. */
  method SetState(rt: Runtime, st: Store, state: Value, fuel: nat) returns (drained: bool, ghost trace: seq<WorkQueue.Entry>)
    requires rt.Valid() && Fits(st, |rt.nodes|, |rt.states|)
    modifies rt, rt.queue
    ensures rt.Valid() && rt.nodes == old(rt.nodes)
    ensures GraphFits(rt.nodes, |old(rt.states)|)
    ensures drained <==> rt.queue.Contents() == multiset{}
    ensures Schedule(rt.nodes, old(rt.queue.Contents()) + multiset{WorkQueue.Entry(st.node, rt.nodes[st.node].priority, state)},
                     trace, old(rt.states), old(rt.log), rt.queue.Contents())
    ensures IdsIn(trace, |rt.nodes|)
    ensures (rt.states, rt.log) == Replay(rt.nodes, trace, old(rt.states), old(rt.log))
  {
    drained, trace := rt.Launch(st.node, state, fuel);
  }

  /** `watch`: the watcher is called with the current state now, then by
      an effect-priority node after the store node. */
  method Watch(rt: Runtime, st: Store, name: Option<string>) returns (w: nat)
    requires rt.Valid() && Fits(st, |rt.nodes|, |rt.states|)
    modifies rt
    ensures rt.Valid() && w == |old(rt.nodes)|
    ensures rt.log == old(rt.log) + [Watched(w, old(rt.states)[st.cell])]
    ensures rt.nodes == AppendEdges(old(rt.nodes), [st.node], w)
                        + [Node(w, name.GetOr(st.name + ":watch"), Regular, LegacyNodes.Lower(LegacyNodes.Effect), [], [Observe(w)])]
    ensures rt.states == old(rt.states)
  {
    var nodeName := name.GetOr(st.name + ":watch");
    w := |rt.nodes|;
    rt.log := rt.log + [Watched(w, rt.states[st.cell])];
    w := rt.CreateNode(nodeName, Regular, LegacyNodes.Lower(LegacyNodes.Effect), [st.node], [Observe(w)], []);
  }

  /** `on` / `onBase`: a pure node from the given units computing
      `f(currentState, payload)` into the store. Fatal on a derived store. */
  method On(rt: Runtime, st: Store, name: Option<string>, units: seq<nat>, f: (Value, Value) -> Value)
    requires rt.Valid() && Fits(st, |rt.nodes|, |rt.states|) && IdsBelow(units, |rt.nodes|)
    requires !st.isDerived
    modifies rt
    ensures rt.Valid()
    ensures var n := |old(rt.nodes)|;
            rt.nodes == AppendEdges(old(rt.nodes), units, n)
                        + [Stores.OnNode(n, name.GetOr(st.name + ":on"), st.cell, f, st.node)]
    ensures rt.states == old(rt.states) && rt.log == old(rt.log)
  {
    var nodeName := name.GetOr(st.name + ":on");
    var _ := rt.CreateNode(nodeName, Regular, LegacyNodes.Lower(LegacyNodes.Pure), units, [Reduce(st.cell, f)], [st.node]);
  }

  /** `reset`: `on` with a reducer returning the default state. Fatal on a
      derived store. */
  method Reset(rt: Runtime, st: Store, name: Option<string>, units: seq<nat>)
    requires rt.Valid() && Fits(st, |rt.nodes|, |rt.states|) && IdsBelow(units, |rt.nodes|)
    requires !st.isDerived
    modifies rt
    ensures rt.Valid()
    ensures var n := |old(rt.nodes)|;
            rt.nodes == AppendEdges(old(rt.nodes), units, n)
                        + [Stores.OnNode(n, name.GetOr(st.name + ":reset"), st.cell, Stores.ResetReducer(st.defaultState), st.node)]
    ensures rt.states == old(rt.states) && rt.log == old(rt.log)
  {
    On(rt, st, Some(name.GetOr(st.name + ":reset")), units, Stores.ResetReducer(st.defaultState));
  }

  /** `map`: a derived store seeded with `fn(currentState)` and a pure node
      computing `fn` into it. Its default name carries the `:reset`
      suffix, as the source spells it. */
  method Map(rt: Runtime, st: Store, name: Option<string>, fn: Value -> Value) returns (mapped: Store)
    requires rt.Valid() && Fits(st, |rt.nodes|, |rt.states|)
    modifies rt
    ensures rt.Valid()
    ensures var n := |old(rt.nodes)|; var c := |old(rt.states)|; var nodeName := name.GetOr(st.name + ":reset");
            mapped == Store(n + 1, c, nodeName, fn(old(rt.states)[st.cell]), true, Event(n, nodeName + ":updates", true))
            && rt.states == old(rt.states) + [fn(old(rt.states)[st.cell])]
            && rt.nodes == AppendEdges(old(rt.nodes) + StoreNodes(n, nodeName, c), [st.node], n + 2)
                           + [Node(n + 2, nodeName, Regular, LegacyNodes.Lower(LegacyNodes.Pure), [n + 1], [Compute(fn)])]
    ensures rt.log == old(rt.log)
  {
    var nodeName := name.GetOr(st.name + ":reset");
    mapped := NewStore(rt, nodeName, fn(rt.states[st.cell]), true);
    var _ := rt.CreateNode(nodeName, Regular, LegacyNodes.Lower(LegacyNodes.Pure), [st.node], [Compute(fn)], [mapped.node]);
  }

  // What the store node does with values.

  /** The store node writes every value and passes it on: the unlabelled
      `areEqual` it calls is the overload that always answers false. */
  lemma {:induction false} AlwaysAssigns(c: nat, v: Value, states: seq<Value>, log: seq<Signal>)
    requires c < |states|
    ensures StepsFit([LegacyAssign(c)], |states|)
    ensures RunSteps([LegacyAssign(c)], v, states, log) == Outcome(true, v, states[c := v], log)
  {
    SingleStep(LegacyAssign(c), v, states, log);
    if v == states[c] {
      assert states[c := v] == states;
    }
  }

  /** Where the newer store stops a hashable value equal to its state, the
      older one fires `updates` with it. */
  lemma EqualWriteStillUpdates(c: nat, v: Value, states: seq<Value>, log: seq<Signal>)
    requires c < |states| && Hashable(v) && v == states[c]
    ensures StepsFit([LegacyAssign(c)], |states|) && StepsFit(Stores.StoreSteps(c), |states|)
    ensures RunSteps([LegacyAssign(c)], v, states, log).passed
    ensures !RunSteps(Stores.StoreSteps(c), v, states, log).passed
  {
    AlwaysAssigns(c, v, states, log);
    Stores.StoreDedup(c, v, states, log);
  }

  /** A mapped store follows its source: after the source took `v`, the
      map node and the mapped store leave `fn(v)` in the mapped cell. */
  lemma {:induction false} MappedFollows(c: nat, d: nat, fn: Value -> Value, v: Value, states: seq<Value>, log: seq<Signal>)
    requires c < |states| && d < |states| && c != d
    ensures StepsFit([LegacyAssign(c)], |states|) && StepsFit([Compute(fn)], |states|) && StepsFit([LegacyAssign(d)], |states|)
    ensures var a := RunSteps([LegacyAssign(c)], v, states, log);
            var b := RunSteps([Compute(fn)], a.value, a.states, a.log);
            var e := RunSteps([LegacyAssign(d)], b.value, b.states, b.log);
            e.passed && e.states == states[c := v][d := fn(v)]
  {
    AlwaysAssigns(c, v, states, log);
    SingleStep(Compute(fn), v, states[c := v], log);
    AlwaysAssigns(d, fn(v), states[c := v], log);
  }
}
