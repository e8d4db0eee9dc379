// Stores (Effector/Store.swift): a child-priority node whose two steps stop
// a value equal to the current state and otherwise assign it, followed by
// the store's `updates` event. The current state of every store is a cell
// of the runtime.

module Stores {
  import opened Values
  import opened Nodes
  import opened Optional
  import opened Kernel
  import opened Events
  import opened WorkQueue

  datatype Store = Store(
    node: nat,
    cell: nat,
    name: string,
    defaultState: Value,
    isDerived: bool,
    updates: Event,
    reinit: Event)

  /** The store refers to an existing node and cell. */
  predicate Fits(st: Store, nodes: nat, cells: nat) {
    st.node < nodes && st.cell < cells
  }

  /** The filter step `!areEqual(value, currentState)` and the assign step. */
  function StoreSteps(cell: nat): seq<Step> {
    [StoreFilter(cell), Assign(cell)]
  }

  /** The reducer installed by `reset`: the default state, whatever the
      payload. */
  function ResetReducer(d: Value): (Value, Value) -> Value {
    (_, _) => d
  }

  /** The node `onBase` creates for a reducer `f` into the store cell. */
  function OnNode(id: nat, name: string, cell: nat, f: (Value, Value) -> Value, store: nat): Node {
    Node(id, name, Regular, Pure, [store], [Reduce(cell, f)])
  }

  /** The nodes `Store.init` creates from id `n` on, before reinit wiring. */
  function StoreNodes(n: nat, name: string, cell: nat): seq<Node> {
    [EventNode(n, name + ":updates"), EventNode(n + 1, name + ":reinit"),
     Node(n + 2, name, StoreKind, Child, [n], StoreSteps(cell))]
  }

  /** The nodes `Store.init` creates from id `n` on: a store that is not
      derived also gets a reset node fed by its reinit event. */
  function StoreInitNodes(n: nat, name: string, cell: nat, defaultState: Value, isDerived: bool): seq<Node> {
    if isDerived then StoreNodes(n, name, cell)
    else [EventNode(n, name + ":updates"), EventNode(n + 1, name + ":reinit").(next := [n + 3]),
          Node(n + 2, name, StoreKind, Child, [n], StoreSteps(cell)),
          OnNode(n + 3, name + ":reset", cell, ResetReducer(defaultState), n + 2)]
  }

  lemma StoreInitBuilt(n: nat, name: string, cell: nat, d: Value)
    ensures var s := StoreNodes(n, name, cell);
            s[1 := s[1].(next := s[1].next + [n + 3])]
            + [OnNode(n + 3, name + ":reset", cell, ResetReducer(d), n + 2)]
            == StoreInitNodes(n, name, cell, d, false)
  {
    var s := StoreNodes(n, name, cell);
    var t := s[1 := s[1].(next := s[1].next + [n + 3])]
             + [OnNode(n + 3, name + ":reset", cell, ResetReducer(d), n + 2)];
    var g := StoreInitNodes(n, name, cell, d, false);
    assert |t| == |g|;
    forall i | 0 <= i < |t| ensures t[i] == g[i] { }
  }

  /** `Store.init`: the updates and reinit events, then the store node; a
      store that is not derived is reset by its reinit event. */
  method NewStore(rt: Runtime, name: string, defaultState: Value, isDerived: bool) returns (st: Store)
    requires rt.Valid()
    modifies rt
    ensures rt.Valid()
    ensures var n := |old(rt.nodes)|; var c := |old(rt.states)|;
            st == Store(n + 2, c, name, defaultState, isDerived,
                        Event(n, name + ":updates", true), Event(n + 1, name + ":reinit", true))
            && rt.states == old(rt.states) + [defaultState]
            && rt.log == old(rt.log)
            && rt.nodes == old(rt.nodes) + StoreInitNodes(n, name, c, defaultState, isDerived)
  {
    var c := rt.NewCell(defaultState);
    var updates := NewEvent(rt, name + ":updates", true);
    var reinit := NewEvent(rt, name + ":reinit", true);
    var id := rt.NewNode(name, StoreKind, Child, [updates.node], StoreSteps(c));
    st := Store(id, c, name, defaultState, isDerived, updates, reinit);
    if !isDerived {
      ghost var base := old(rt.nodes);
      Reset(rt, st, None, [reinit.node]);
      WireOne(base, StoreNodes(id - 2, name, c), 1, id + 1, OnNode(id + 1, name + ":reset", c, ResetReducer(defaultState), id));
      StoreInitBuilt(id - 2, name, c, defaultState);
    }
  }

  function GetState(rt: Runtime, st: Store): Value
    requires Fits(st, |rt.nodes|, |rt.states|)
    reads rt
  {
    rt.states[st.cell]
  }

  /** `setState`: launch the store node with the new state. */
  method SetState(rt: Runtime, st: Store, state: Value, fuel: nat) returns (drained: bool, ghost trace: seq<WorkQueue.Entry>)
    requires rt.Valid() && Fits(st, |rt.nodes|, |rt.states|)
    modifies rt, rt.queue
    ensures rt.Valid() && rt.nodes == old(rt.nodes)
    ensures GraphFits(rt.nodes, |old(rt.states)|)
    ensures drained <==> rt.queue.Contents() == multiset{}
    ensures Schedule(rt.nodes, old(rt.queue.Contents()) + multiset{WorkQueue.Entry(st.node, rt.nodes[st.node].priority, state)},
                     trace, old(rt.states), old(rt.log), rt.queue.Contents())
    ensures IdsIn(trace, |rt.nodes|)
    ensures (rt.states, rt.log) == Replay(rt.nodes, trace, old(rt.states), old(rt.log))
  {
    drained, trace := rt.Launch(st.node, state, fuel);
  }

  /** `watch`: call the watcher with the current state now, then on every
      value the store node lets through. */
  method Watch(rt: Runtime, st: Store, name: Option<string>) returns (w: nat)
    requires rt.Valid() && Fits(st, |rt.nodes|, |rt.states|)
    modifies rt
    ensures rt.Valid() && w == |old(rt.nodes)|
    ensures rt.log == old(rt.log) + [Watched(w, old(rt.states)[st.cell])]
    ensures rt.nodes == AppendEdges(old(rt.nodes), [st.node], w)
                        + [Node(w, name.GetOr(st.name + ":watch"), Regular, Effect, [], [Observe(w)])]
    ensures rt.states == old(rt.states)
  {
    var nodeName := name.GetOr(st.name + ":watch");
    w := |rt.nodes|;
    rt.log := rt.log + [Watched(w, rt.states[st.cell])];
    w := rt.CreateNode(nodeName, Regular, Effect, [st.node], [Observe(w)], []);
  }

  /** `on` / `onBase`: a pure node from the given units computing
      `f(currentState, payload)` into the store. Fatal on a derived store. */
  method On(rt: Runtime, st: Store, name: Option<string>, units: seq<nat>, f: (Value, Value) -> Value)
    requires rt.Valid() && Fits(st, |rt.nodes|, |rt.states|) && IdsBelow(units, |rt.nodes|)
    requires !st.isDerived
    modifies rt
    ensures rt.Valid()
    ensures var n := |old(rt.nodes)|;
            rt.nodes == AppendEdges(old(rt.nodes), units, n)
                        + [OnNode(n, name.GetOr(st.name + ":on"), st.cell, f, st.node)]
    ensures rt.states == old(rt.states) && rt.log == old(rt.log)
  {
    var nodeName := name.GetOr(st.name + ":on");
    var _ := rt.CreateNode(nodeName, Regular, Pure, units, [Reduce(st.cell, f)], [st.node]);
  }

  /** `reset`: `on` with a reducer returning the default state, under the
      name `<store>:reset` unless one is given. Fatal on a derived store. */
  method Reset(rt: Runtime, st: Store, name: Option<string>, units: seq<nat>)
    requires rt.Valid() && Fits(st, |rt.nodes|, |rt.states|) && IdsBelow(units, |rt.nodes|)
    requires !st.isDerived
    modifies rt
    ensures rt.Valid()
    ensures var n := |old(rt.nodes)|;
            rt.nodes == AppendEdges(old(rt.nodes), units, n)
                        + [OnNode(n, name.GetOr(st.name + ":reset"), st.cell, ResetReducer(st.defaultState), st.node)]
    ensures rt.states == old(rt.states) && rt.log == old(rt.log)
  {
    On(rt, st, Some(name.GetOr(st.name + ":reset")), units, ResetReducer(st.defaultState));
  }

  /** `map`: a derived store seeded with `f(currentState)`, fed by a pure
      node computing `f`. */
  method Map(rt: Runtime, st: Store, name: Option<string>, f: Value -> Value) returns (mapped: Store)
    requires rt.Valid() && Fits(st, |rt.nodes|, |rt.states|)
    modifies rt
    ensures rt.Valid()
    ensures var n := |old(rt.nodes)|; var c := |old(rt.states)|;
            var nodeName := name.GetOr(st.name + ":map");
            mapped == Store(n + 2, c, nodeName, f(old(rt.states)[st.cell]), true,
                            Event(n, nodeName + ":updates", true), Event(n + 1, nodeName + ":reinit", true))
            && rt.states == old(rt.states) + [f(old(rt.states)[st.cell])]
            && rt.nodes == AppendEdges(old(rt.nodes) + StoreNodes(n, nodeName, c), [st.node], n + 3)
                           + [Node(n + 3, nodeName, Regular, Pure, [n + 2], [Compute(f)])]
    ensures rt.log == old(rt.log)
  {
    var nodeName := name.GetOr(st.name + ":map");
    mapped := NewStore(rt, nodeName, f(rt.states[st.cell]), true);
    var _ := rt.CreateNode(nodeName, Regular, Pure, [st.node], [Compute(f)], [mapped.node]);
  }

  /** `erased`: a derived store seeded with the current state, fed by a
      step-less pure node placed first among the store's successors. */
  method Erased(rt: Runtime, st: Store, name: Option<string>) returns (erased: Store)
    requires rt.Valid() && Fits(st, |rt.nodes|, |rt.states|)
    modifies rt
    ensures rt.Valid()
    ensures var n := |old(rt.nodes)|; var c := |old(rt.states)|;
            var nodeName := name.GetOr(st.name + ":erased");
            var created := old(rt.nodes) + StoreNodes(n, nodeName, c)
                           + [Node(n + 3, nodeName, Regular, Pure, [n + 2], [])];
            erased == Store(n + 2, c, nodeName, old(rt.states)[st.cell], true,
                            Event(n, nodeName + ":updates", true), Event(n + 1, nodeName + ":reinit", true))
            && rt.states == old(rt.states) + [old(rt.states)[st.cell]]
            && rt.nodes == created[st.node := created[st.node].(next := [n + 3] + created[st.node].next)]
    ensures rt.log == old(rt.log)
  {
    var nodeName := name.GetOr(st.name + ":erased");
    erased := NewStore(rt, nodeName, rt.states[st.cell], true);
    var id := rt.NewNode(nodeName, Regular, Pure, [erased.node], []);
    rt.PrependNext(st.node, id);
  }

  // What a store node does with a value.

  /** A value `areEqual` to the current state is stopped before the assign
      step; any other value is assigned and passed on to `updates`. */
  lemma StoreWrite(c: nat, v: Value, states: seq<Value>, log: seq<Signal>)
    requires c < |states|
    ensures StepsFit(StoreSteps(c), |states|)
    ensures RunSteps(StoreSteps(c), v, states, log)
            == if AreEqual(v, states[c]) then Outcome(false, v, states, log)
               else Outcome(true, v, states[c := v], log)
  {
    var steps := StoreSteps(c);
    assert steps[1..] == [Assign(c)];
    SingleStep(Assign(c), v, states, log);
    assert RunSteps(steps, v, states, log)
           == if AreEqual(v, states[c]) then Outcome(false, v, states, log)
              else RunSteps([Assign(c)], v, states, log);
  }

  /** Whether stopped or assigned, the store holds the written value
      afterwards, and nothing else changes. */
  lemma {:induction false} StoreHoldsLastWrite(c: nat, v: Value, states: seq<Value>, log: seq<Signal>)
    requires c < |states|
    ensures StepsFit(StoreSteps(c), |states|)
    ensures var o := RunSteps(StoreSteps(c), v, states, log);
            o.states == states[c := v] && o.log == log
  {
    StoreWrite(c, v, states, log);
    if AreEqual(v, states[c]) {
      assert states[c := v] == states;
    }
  }

  /** Writing the current state again is stopped when it is hashable, and
      never stopped when it is not. */
  lemma StoreDedup(c: nat, v: Value, states: seq<Value>, log: seq<Signal>)
    requires c < |states|
    ensures StepsFit(StoreSteps(c), |states|)
    ensures Hashable(v) && v == states[c] ==> !RunSteps(StoreSteps(c), v, states, log).passed
    ensures !Hashable(v) ==> RunSteps(StoreSteps(c), v, states, log).passed
  {
    StoreWrite(c, v, states, log);
  }

  /** An `on` node hands `f(currentState, payload)` to its store; a reset
      node hands the default state, whatever the payload. */
  lemma OnComputes(c: nat, f: (Value, Value) -> Value, p: Value, states: seq<Value>, log: seq<Signal>)
    requires c < |states|
    ensures StepsFit([Reduce(c, f)], |states|)
    ensures RunSteps([Reduce(c, f)], p, states, log) == Outcome(true, f(states[c], p), states, log)
  {
    SingleStep(Reduce(c, f), p, states, log);
  }

  lemma {:induction false} ResetRestoresDefault(c: nat, d: Value, p: Value, states: seq<Value>, log: seq<Signal>)
    requires c < |states|
    ensures StepsFit([Reduce(c, ResetReducer(d))], |states|)
    ensures var o := RunSteps([Reduce(c, ResetReducer(d))], p, states, log);
            o.passed && RunSteps(StoreSteps(c), o.value, o.states, o.log).states == states[c := d]
  {
    OnComputes(c, ResetReducer(d), p, states, log);
    StoreHoldsLastWrite(c, d, states, log);
  }

  /** The chain store node, map node, mapped store node: once the source
      accepted `v`, the mapped store holds `f(v)`. */
  lemma {:induction false} MappedStoreFollows(src: nat, dst: nat, f: Value -> Value, v: Value, states: seq<Value>, log: seq<Signal>)
    requires src < |states| && dst < |states| && src != dst
    requires !AreEqual(v, states[src])
    ensures StepsFit(StoreSteps(src), |states|) && StepsFit([Compute(f)], |states|)
    ensures var a := RunSteps(StoreSteps(src), v, states, log);
            var b := RunSteps([Compute(f)], a.value, a.states, a.log);
            var d := RunSteps(StoreSteps(dst), b.value, b.states, b.log);
            a.passed && b.passed && d.states[src] == v && d.states[dst] == f(v)
  {
    StoreWrite(src, v, states, log);
    var a := RunSteps(StoreSteps(src), v, states, log);
    SingleStep(Compute(f), a.value, a.states, a.log);
    StoreHoldsLastWrite(dst, f(v), a.states, a.log);
  }

  /** The store cells after an `on` node for cell `c` and then its store
      have run on payload `p`. */
  function Deliver(c: nat, f: (Value, Value) -> Value, p: Value, states: seq<Value>): (r: seq<Value>)
    requires c < |states|
    ensures |r| == |states|
  {
    var o := RunSteps([Reduce(c, f)], p, states, []);
    RunSteps(StoreSteps(c), o.value, o.states, o.log).states
  }

  /** An `on` node and its store write `f(currentState, payload)` into the
      store and leave every other cell alone. */
  lemma {:induction false} DeliverWrites(c: nat, f: (Value, Value) -> Value, p: Value, states: seq<Value>)
    requires c < |states|
    ensures Deliver(c, f, p, states) == states[c := f(states[c], p)]
  {
    OnComputes(c, f, p, states, []);
    StoreHoldsLastWrite(c, f(states[c], p), states, []);
  }

  /** The store cells after the payloads `ps`, one after another, went
      through an `on` node for cell `c` and its store. */
  function OnChain(c: nat, f: (Value, Value) -> Value, ps: seq<Value>, states: seq<Value>): (r: seq<Value>)
    requires c < |states|
    ensures |r| == |states|
    decreases |ps|
  {
    if ps == [] then states else OnChain(c, f, ps[1..], Deliver(c, f, ps[0], states))
  }
  // Whole runs, from `launch` until the queue drains.

  /** `setState` on a store (cell `c`) whose only successor is its
      step-less `updates` event `u`: once the queue drains, the store holds
      the new state and nothing else changed. */
  lemma SetStateRun(nodes: seq<Node>, a: nat, u: nat, c: nat, v: Value, trace: seq<Entry>,
                    states: seq<Value>, log: seq<Signal>)
    requires GraphFits(nodes, |states|) && a < |nodes| && u < |nodes| && c < |states|
    requires nodes[a].steps == StoreSteps(c) && nodes[a].next == [u]
    requires nodes[u].steps == [] && nodes[u].next == []
    requires Schedule(nodes, multiset{Entry(a, nodes[a].priority, v)}, trace, states, log, multiset{})
    ensures IdsIn(trace, |nodes|)
    ensures Replay(nodes, trace, states, log) == (states[c := v], log)
  {
    var e := Entry(a, nodes[a].priority, v);
    StoreWrite(c, v, states, log);
    if AreEqual(v, states[c]) {
      ScheduleHead(nodes, multiset{e}, e, trace, states, log);
      assert Requeue(nodes, multiset{e}, e, states, log) == multiset{};
      ScheduleEmpty(nodes, trace[1..], states, log, multiset{});
      assert states[c := v] == states;
    } else {
      ScheduleChain(nodes, a, u, v, trace, states, log);
      ScheduleLast(nodes, u, v, trace[1..], states[c := v], log);
      EmptyPipelineForwards(v, states[c := v], log);
    }
  }

  /** A write of `v` to store `a` (cell `c`) whose successors are its
      step-less `updates` event `u` and a node `m` of a later priority that
      computes a value without writing, feeding the derived store `b` (cell
      `d`) whose only successor is its step-less `updates` event `w`: once
      the queue drains, a stopped write changed nothing, and otherwise `c`
      holds `v` and `d` holds what `m` computed from the new cells. */
  lemma DerivedRun(nodes: seq<Node>, a: nat, u: nat, m: nat, b: nat, w: nat, c: nat, d: nat, v: Value,
                   trace: seq<Entry>, states: seq<Value>, log: seq<Signal>)
    requires GraphFits(nodes, |states|) && a < |nodes| && u < |nodes| && m < |nodes| && b < |nodes| && w < |nodes|
    requires c < |states| && d < |states|
    requires nodes[a].steps == StoreSteps(c) && (nodes[a].next == [u, m] || nodes[a].next == [m, u])
    requires nodes[u].steps == [] && nodes[u].next == [] && nodes[u].priority == Child
    requires nodes[m].priority != Child && nodes[m].next == [b]
    requires nodes[b].steps == StoreSteps(d) && nodes[b].next == [w]
    requires nodes[w].steps == [] && nodes[w].next == []
    requires var o := RunSteps(nodes[m].steps, v, states[c := v], log);
             o.passed && o.states == states[c := v] && o.log == log
    requires Schedule(nodes, multiset{Entry(a, nodes[a].priority, v)}, trace, states, log, multiset{})
    ensures IdsIn(trace, |nodes|)
    ensures Replay(nodes, trace, states, log)
            == if AreEqual(v, states[c]) then (states, log)
               else (states[c := v][d := RunSteps(nodes[m].steps, v, states[c := v], log).value], log)
  {
    var e := Entry(a, nodes[a].priority, v);
    StoreWrite(c, v, states, log);
    ScheduleHead(nodes, multiset{e}, e, trace, states, log);
    if AreEqual(v, states[c]) {
      assert Requeue(nodes, multiset{e}, e, states, log) == multiset{};
      ScheduleEmpty(nodes, trace[1..], states, log, multiset{});
    } else {
      WrittenSuccessors(nodes, a, u, m, c, v, states, log);
      UpdatesThenFeed(nodes, u, m, b, w, d, v, trace[1..], states[c := v], log);
    }
  }

  /** A write that goes through queues the store's two successors. */
  lemma WrittenSuccessors(nodes: seq<Node>, a: nat, u: nat, m: nat, c: nat, v: Value,
                          states: seq<Value>, log: seq<Signal>)
    requires GraphFits(nodes, |states|) && a < |nodes| && u < |nodes| && m < |nodes| && c < |states|
    requires nodes[a].steps == StoreSteps(c) && (nodes[a].next == [u, m] || nodes[a].next == [m, u])
    requires nodes[u].priority == Child
    requires !AreEqual(v, states[c])
    ensures var e := Entry(a, nodes[a].priority, v);
            Requeue(nodes, multiset{e}, e, states, log)
            == multiset{Entry(u, Child, v), Entry(m, nodes[m].priority, v)}
  {
    StoreWrite(c, v, states, log);
    if nodes[a].next == [u, m] {
      assert Successors(nodes, [u, m], v) == [Entry(u, Child, v), Entry(m, nodes[m].priority, v)];
    } else {
      assert Successors(nodes, [m, u], v) == [Entry(m, nodes[m].priority, v), Entry(u, Child, v)];
    }
  }

  /** The queue holding the `updates` event `u` and the later node `m`
      feeding store `b`: `u` runs first and changes nothing, then `m` and
      `b` write what `m` computed into `d`. */
  lemma UpdatesThenFeed(nodes: seq<Node>, u: nat, m: nat, b: nat, w: nat, d: nat, v: Value,
                        trace: seq<Entry>, states: seq<Value>, log: seq<Signal>)
    requires GraphFits(nodes, |states|) && u < |nodes| && m < |nodes| && b < |nodes| && w < |nodes| && d < |states|
    requires nodes[u].steps == [] && nodes[u].next == [] && nodes[u].priority == Child
    requires nodes[m].priority != Child && nodes[m].next == [b]
    requires nodes[b].steps == StoreSteps(d) && nodes[b].next == [w]
    requires nodes[w].steps == [] && nodes[w].next == []
    requires var o := RunSteps(nodes[m].steps, v, states, log);
             o.passed && o.states == states && o.log == log
    requires Schedule(nodes, multiset{Entry(u, Child, v), Entry(m, nodes[m].priority, v)}, trace, states, log, multiset{})
    ensures IdsIn(trace, |nodes|)
    ensures Replay(nodes, trace, states, log)
            == (states[d := RunSteps(nodes[m].steps, v, states, log).value], log)
  {
    var eu := Entry(u, Child, v);
    var em := Entry(m, nodes[m].priority, v);
    UpdatesFirst(eu, em);
    ScheduleHead(nodes, multiset{eu, em}, eu, trace, states, log);
    EmptyPipelineForwards(v, states, log);
    assert Successors(nodes, [], v) == [];
    assert Requeue(nodes, multiset{eu, em}, eu, states, log) == multiset{em};
    FeedRun(nodes, m, b, w, d, v, trace[1..], states, log);
  }

  /** From a queue holding only node `m`, which computes a value without
      writing and feeds store `b`: `d` ends up holding what `m` computed. */
  lemma FeedRun(nodes: seq<Node>, m: nat, b: nat, w: nat, d: nat, v: Value,
                trace: seq<Entry>, states: seq<Value>, log: seq<Signal>)
    requires GraphFits(nodes, |states|) && m < |nodes| && b < |nodes| && w < |nodes| && d < |states|
    requires nodes[m].next == [b]
    requires nodes[b].steps == StoreSteps(d) && nodes[b].next == [w]
    requires nodes[w].steps == [] && nodes[w].next == []
    requires var o := RunSteps(nodes[m].steps, v, states, log);
             o.passed && o.states == states && o.log == log
    requires Schedule(nodes, multiset{Entry(m, nodes[m].priority, v)}, trace, states, log, multiset{})
    ensures IdsIn(trace, |nodes|)
    ensures Replay(nodes, trace, states, log)
            == (states[d := RunSteps(nodes[m].steps, v, states, log).value], log)
  {
    ScheduleChain(nodes, m, b, v, trace, states, log);
    var r := RunSteps(nodes[m].steps, v, states, log).value;
    SetStateRun(nodes, b, w, d, r, trace[1..], states, log);
  }

  /** An `updates` event, of child priority, goes before any node of a
      later priority. */
  lemma UpdatesFirst(eu: Entry, em: Entry)
    requires eu.priority == Child && em.priority != Child
    ensures Sort(eu, em) && !Sort(em, eu)
  {
    RawValueOrder();
  }

  /** `map`: a write of `v` to the source store of a mapped store, which
      holds `f` of the source, leaves the source holding `v` and the mapped
      store holding `f(v)` once the queue drains. */
  lemma MapRun(nodes: seq<Node>, a: nat, u: nat, m: nat, b: nat, w: nat, c: nat, d: nat, f: Value -> Value,
               v: Value, trace: seq<Entry>, states: seq<Value>, log: seq<Signal>)
    requires GraphFits(nodes, |states|) && a < |nodes| && u < |nodes| && m < |nodes| && b < |nodes| && w < |nodes|
    requires c < |states| && d < |states| && states[d] == f(states[c])
    requires nodes[a].steps == StoreSteps(c) && nodes[a].next == [u, m]
    requires nodes[u].steps == [] && nodes[u].next == [] && nodes[u].priority == Child
    requires nodes[m].priority == Pure && nodes[m].next == [b] && nodes[m].steps == [Compute(f)]
    requires nodes[b].steps == StoreSteps(d) && nodes[b].next == [w]
    requires nodes[w].steps == [] && nodes[w].next == []
    requires Schedule(nodes, multiset{Entry(a, nodes[a].priority, v)}, trace, states, log, multiset{})
    ensures IdsIn(trace, |nodes|)
    ensures Replay(nodes, trace, states, log) == (states[c := v][d := f(v)], log)
  {
    SingleStep(Compute(f), v, states[c := v], log);
    DerivedRun(nodes, a, u, m, b, w, c, d, v, trace, states, log);
    if AreEqual(v, states[c]) {
      assert states[c := v][d := f(v)] == states;
    }
  }

  /** `erased`: a write of `v` to the source store leaves `v` in both the
      source and the erased store once the queue drains, although the
      erased store's node comes first among the source's successors. */
  lemma ErasedRun(nodes: seq<Node>, a: nat, u: nat, m: nat, b: nat, w: nat, c: nat, d: nat,
                  v: Value, trace: seq<Entry>, states: seq<Value>, log: seq<Signal>)
    requires GraphFits(nodes, |states|) && a < |nodes| && u < |nodes| && m < |nodes| && b < |nodes| && w < |nodes|
    requires c < |states| && d < |states| && states[d] == states[c]
    requires nodes[a].steps == StoreSteps(c) && nodes[a].next == [m, u]
    requires nodes[u].steps == [] && nodes[u].next == [] && nodes[u].priority == Child
    requires nodes[m].priority == Pure && nodes[m].next == [b] && nodes[m].steps == []
    requires nodes[b].steps == StoreSteps(d) && nodes[b].next == [w]
    requires nodes[w].steps == [] && nodes[w].next == []
    requires Schedule(nodes, multiset{Entry(a, nodes[a].priority, v)}, trace, states, log, multiset{})
    ensures IdsIn(trace, |nodes|)
    ensures Replay(nodes, trace, states, log) == (states[c := v][d := v], log)
  {
    EmptyPipelineForwards(v, states[c := v], log);
    DerivedRun(nodes, a, u, m, b, w, c, d, v, trace, states, log);
    if AreEqual(v, states[c]) {
      assert states[c := v][d := v] == states;
    }
  }

  // The store scenarios of the test suite, on a fresh runtime.

  /** `testStoreSetState`: a store created with 0 holds 1 after
      `setState(1)`. */
  method SetStateScenario(fuel: nat) returns (drained: bool, state: Value)
    ensures drained ==> state == Num(1)
  {
    var rt := new Runtime();
    var st := NewStore(rt, "store", Num(0), false);
    ghost var nodes := rt.nodes;
    assert nodes == StoreInitNodes(0, "store", 0, Num(0), false);
    assert rt.queue.Contents() == multiset{} && rt.states == [Num(0)] && rt.log == [];
    ghost var trace;
    drained, trace := SetState(rt, st, Num(1), fuel);
    if drained {
      SetStateScenarioRun(nodes, trace);
    }
    state := GetState(rt, st);
  }

  /** Setting the store of `testStoreSetState` to 1 leaves 1 in its cell. */
  lemma SetStateScenarioRun(nodes: seq<Node>, trace: seq<Entry>)
    requires nodes == StoreInitNodes(0, "store", 0, Num(0), false) && GraphFits(nodes, 1)
    requires Schedule(nodes, multiset{} + multiset{Entry(2, nodes[2].priority, Num(1))}, trace, [Num(0)], [], multiset{})
    ensures IdsIn(trace, |nodes|) && Replay(nodes, trace, [Num(0)], []) == ([Num(1)], [])
  {
    AddToNone(Entry(2, Child, Num(1)));
    SetStateRun(nodes, 2, 0, 0, Num(1), trace, [Num(0)], []);
    assert [Num(0)][0 := Num(1)] == [Num(1)];
  }

  /** `testStoreMap`: a store created with 1 and mapped by `$0 + 1`; once
      the store is set to 2, the mapped store holds 3. */
  method MapScenario(fuel: nat) returns (drained: bool, state: Value, mappedState: Value)
    ensures drained ==> state == Num(2) && mappedState == Num(3)
  {
    var rt, st, mapped := BuildMapScenario();
    ghost var nodes := rt.nodes;
    ghost var trace;
    drained, trace := SetState(rt, st, Num(2), fuel);
    if drained {
      MapScenarioRun(nodes, "store", "store" + ":map", trace);
    }
    state := GetState(rt, st);
    mappedState := GetState(rt, mapped);
  }

  /** The graph of `testStoreMap`: the store at nodes 0 to 3 and cell 0,
      the mapped store at nodes 4 to 6 and cell 1, and the map node 7. */
  method BuildMapScenario() returns (rt: Runtime, st: Store, mapped: Store)
    ensures fresh(rt) && fresh(rt.queue) && rt.Valid() && rt.queue.Contents() == multiset{}
    ensures rt.nodes == MapScenarioNodes("store", "store" + ":map")
    ensures rt.states == [Num(1), Num(2)] && rt.log == []
    ensures st.node == 2 && st.cell == 0 && mapped.node == 6 && mapped.cell == 1
  {
    rt := new Runtime();
    st := NewStore(rt, "store", Num(1), false);
    ghost var base := rt.nodes;
    assert base == StoreInitNodes(0, "store", 0, Num(1), false) && |base| == 4 && rt.states == [Num(1)];
    mapped := Map(rt, st, None, PlusOne);
    assert rt.nodes == AppendEdges(base + StoreNodes(4, "store" + ":map", 1), [2], 7)
                       + [Node(7, "store" + ":map", Regular, Pure, [6], [Compute(PlusOne)])];
  }

  /** `$0 + 1`. */
  function PlusOne(v: Value): Value {
    Num(AsInt(v) + 1)
  }

  function MapScenarioNodes(name: string, mapName: string): seq<Node> {
    AppendEdges(StoreInitNodes(0, name, 0, Num(1), false) + StoreNodes(4, mapName, 1), [2], 7)
    + [Node(7, mapName, Regular, Pure, [6], [Compute(PlusOne)])]
  }

  /** Setting the store of `testStoreMap` to 2 leaves 2 in the store and
      3 in the mapped store. */
  lemma MapScenarioRun(nodes: seq<Node>, name: string, mapName: string, trace: seq<Entry>)
    requires nodes == MapScenarioNodes(name, mapName)
    requires GraphFits(nodes, 2)
    requires Schedule(nodes, multiset{} + multiset{Entry(2, nodes[2].priority, Num(2))}, trace, [Num(1), Num(2)], [], multiset{})
    ensures IdsIn(trace, |nodes|) && Replay(nodes, trace, [Num(1), Num(2)], []) == ([Num(2), Num(3)], [])
  {
    MapScenarioGraph(nodes, name, mapName);
    AddToNone(Entry(2, Child, Num(2)));
    MapRun(nodes, 2, 0, 7, 6, 4, 0, 1, PlusOne, Num(2), trace, [Num(1), Num(2)], []);
    assert [Num(1), Num(2)][0 := Num(2)][1 := PlusOne(Num(2))] == [Num(2), Num(3)];
  }

  /** The graph `MapScenario` builds. */
  lemma MapScenarioGraph(nodes: seq<Node>, name: string, mapName: string)
    requires nodes == MapScenarioNodes(name, mapName)
    ensures |nodes| == 8 && nodes[2].steps == StoreSteps(0) && nodes[2].next == [0, 7] && nodes[2].priority == Child
    ensures nodes[0].steps == [] && nodes[0].next == [] && nodes[0].priority == Child
    ensures nodes[7].priority == Pure && nodes[7].next == [6] && nodes[7].steps == [Compute(PlusOne)]
    ensures nodes[6].steps == StoreSteps(1) && nodes[6].next == [4]
    ensures nodes[4].steps == [] && nodes[4].next == []
  {
    var base := StoreInitNodes(0, name, 0, Num(1), false) + StoreNodes(4, mapName, 1);
    assert Occurrences([2], 2) == 1 && Repeat(7, 1) == [7];
    assert Occurrences([2], 0) == 0 && Occurrences([2], 4) == 0 && Occurrences([2], 6) == 0;
    assert base[2].next == [0] && base[0].next == [] && base[6].next == [4] && base[4].next == [];
  }
}
