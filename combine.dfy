// `combine` over two to six stores (Effector/Combine.swift): a derived
// store seeded with `fn` of the operands' current states, fed by one
// combine-priority node that ignores its payload and reads the operands
// again. The operands are given as a sequence; the source spells out one
// overload per arity.

module Combining {
  import opened Values
  import opened Nodes
  import opened Kernel
  import opened Stores
  import opened Optional
  import Events

  function Cells(stores: seq<Store>): (r: seq<nat>)
    ensures |r| == |stores| && forall i :: 0 <= i < |stores| ==> r[i] == stores[i].cell
  {
    seq(|stores|, i requires 0 <= i < |stores| => stores[i].cell)
  }

  function NodeIds(stores: seq<Store>): (r: seq<nat>)
    ensures |r| == |stores| && forall i :: 0 <= i < |stores| ==> r[i] == stores[i].node
  {
    seq(|stores|, i requires 0 <= i < |stores| => stores[i].node)
  }

  predicate AllFit(stores: seq<Store>, nodes: nat, cells: nat) {
    forall i :: 0 <= i < |stores| ==> Fits(stores[i], nodes, cells)
  }

  /** `combine(a, b, ..., fn)`. */
  method Combine(rt: Runtime, stores: seq<Store>, fn: seq<Value> -> Value) returns (combined: Store)
    requires rt.Valid() && AllFit(stores, |rt.nodes|, |rt.states|)
    requires 2 <= |stores| <= 6
    modifies rt
    ensures rt.Valid()
    ensures var n := |old(rt.nodes)|; var c := |old(rt.states)|;
            var initial := fn(Read(old(rt.states), Cells(stores)));
            combined == Store(n + 2, c, "combine", initial, true,
                              Events.Event(n, "combine" + ":updates", true), Events.Event(n + 1, "combine" + ":reinit", true))
            && rt.states == old(rt.states) + [initial]
            && rt.nodes == AppendEdges(old(rt.nodes) + StoreNodes(n, "combine", c), NodeIds(stores), n + 3)
                           + [Node(n + 3, "combine", StoreKind, Priority.Combine, [n + 2], [ReadStores(Cells(stores), fn)])]
    ensures rt.log == old(rt.log)
  {
    var cells := Cells(stores);
    combined := NewStore(rt, "combine", fn(Read(rt.states, cells)), true);
    var _ := rt.CreateNode("combine", StoreKind, Priority.Combine, NodeIds(stores), [ReadStores(cells, fn)], [combined.node]);
  }

  /** The combine node ignores its payload: it hands `fn` of the operands'
      current states to the combined store, which then holds it. */
  lemma {:induction false} CombineFollows(cells: seq<nat>, fn: seq<Value> -> Value, d: nat, p: Value, states: seq<Value>, log: seq<Signal>)
    requires IdsBelow(cells, |states|) && d < |states|
    ensures StepsFit([ReadStores(cells, fn)], |states|)
    ensures var o := RunSteps([ReadStores(cells, fn)], p, states, log);
            o.passed && o.value == fn(Read(states, cells))
            && RunSteps(StoreSteps(d), o.value, o.states, o.log).states == states[d := fn(Read(states, cells))]
  {
    SingleStep(ReadStores(cells, fn), p, states, log);
    StoreHoldsLastWrite(d, fn(Read(states, cells)), states, log);
  }

  /** A combine node reached along several paths runs several times; when
      the operands did not change in between and the result is hashable,
      every run after the first is stopped by the combined store, so its
      `updates` fire once. */
  lemma {:induction false} RepeatedCombineAbsorbed(cells: seq<nat>, fn: seq<Value> -> Value, d: nat, p: Value, q: Value, states: seq<Value>, log: seq<Signal>)
    requires IdsBelow(cells, |states|) && d < |states| && d !in cells
    requires Hashable(fn(Read(states, cells)))
    ensures StepsFit([ReadStores(cells, fn)], |states|)
    ensures var a := RunSteps([ReadStores(cells, fn)], p, states, log);
            var first := RunSteps(StoreSteps(d), a.value, a.states, a.log);
            var b := RunSteps([ReadStores(cells, fn)], q, first.states, first.log);
            !RunSteps(StoreSteps(d), b.value, b.states, b.log).passed
  {
    var v := fn(Read(states, cells));
    CombineFollows(cells, fn, d, p, states, log);
    var a := RunSteps([ReadStores(cells, fn)], p, states, log);
    var first := RunSteps(StoreSteps(d), a.value, a.states, a.log);
    StoreHoldsLastWrite(d, v, states, log);
    assert Read(first.states, cells) == Read(states, cells);
    SingleStep(ReadStores(cells, fn), q, first.states, first.log);
    StoreWrite(d, v, first.states, first.log);
  }

  /** `combine` in a run: a write of `v` to an operand store `a` (cell
      `c`) whose successors are its `updates` event `u` and the combine
      node `m`, feeding the combined store `b` (cell `d`, holding `fn` of
      the operands): once the queue drains, `a` holds `v`, the combined
      store holds `fn` of the operands' new states, and nothing was
      logged. */
  lemma CombineRun(nodes: seq<Node>, a: nat, u: nat, m: nat, b: nat, w: nat, c: nat, d: nat,
                   cells: seq<nat>, fn: seq<Value> -> Value, v: Value,
                   trace: seq<WorkQueue.Entry>, states: seq<Value>, log: seq<Signal>)
    requires GraphFits(nodes, |states|) && a < |nodes| && u < |nodes| && m < |nodes| && b < |nodes| && w < |nodes|
    requires c < |states| && d < |states| && IdsBelow(cells, |states|) && states[d] == fn(Read(states, cells))
    requires nodes[a].steps == StoreSteps(c) && nodes[a].next == [u, m]
    requires nodes[u].steps == [] && nodes[u].next == [] && nodes[u].priority == Child
    requires nodes[m].priority == Priority.Combine && nodes[m].next == [b] && nodes[m].steps == [ReadStores(cells, fn)]
    requires nodes[b].steps == StoreSteps(d) && nodes[b].next == [w]
    requires nodes[w].steps == [] && nodes[w].next == []
    requires Schedule(nodes, multiset{WorkQueue.Entry(a, nodes[a].priority, v)}, trace, states, log, multiset{})
    ensures IdsIn(trace, |nodes|)
    ensures Replay(nodes, trace, states, log) == (states[c := v][d := fn(Read(states[c := v], cells))], log)
  {
    SingleStep(ReadStores(cells, fn), v, states[c := v], log);
    DerivedRun(nodes, a, u, m, b, w, c, d, v, trace, states, log);
    if AreEqual(v, states[c]) {
      assert states[c := v] == states;
      assert states[d := fn(Read(states, cells))] == states;
    }
  }

  // `testCombine`, on a fresh runtime, with `setState(10)` on the first
  // store in place of the event that the test routes into it.

  /** `$0 + $1 + $2`, on any number of operands. */
  function Sum(vs: seq<Value>): Value {
    if vs == [] then Num(0) else Num(AsInt(vs[0]) + AsInt(Sum(vs[1..])))
  }

  lemma SumOfThree(a: int, b: int, c: int)
    ensures Sum([Num(a), Num(b), Num(c)]) == Num(a + b + c)
  {
    assert [Num(a), Num(b), Num(c)][1..] == [Num(b), Num(c)];
    assert [Num(b), Num(c)][1..] == [Num(c)];
    assert [Num(c)][1..] == [];
  }

  /** Stores holding 1, 2 and 0 combine into 3; once the first holds 10,
      the combined store holds 12. */
  method CombineScenario(fuel: nat) returns (initial: Value, drained: bool, combined: Value)
    ensures initial == Num(3)
    ensures drained ==> combined == Num(12)
  {
    var rt, first, c := BuildCombineScenario();
    initial := GetState(rt, c);
    ghost var nodes := rt.nodes;
    ghost var trace;
    drained, trace := SetState(rt, first, Num(10), fuel);
    if drained {
      CombineScenarioRun(nodes, trace);
    }
    combined := GetState(rt, c);
  }

  function ThreeStoreNodes(): seq<Node> {
    StoreInitNodes(0, "store", 0, Num(1), false) + StoreInitNodes(4, "store", 1, Num(2), false)
    + StoreInitNodes(8, "store", 2, Num(0), false)
  }

  function CombineScenarioNodes(): seq<Node> {
    AppendEdges(ThreeStoreNodes() + StoreNodes(12, "combine", 3), [2, 6, 10], 15)
    + [Node(15, "combine", StoreKind, Priority.Combine, [14], [ReadStores([0, 1, 2], Sum)])]
  }

  /** The three stores of `testCombine`, at nodes 2, 6 and 10 and cells 0
      to 2. */
  method BuildThreeStores() returns (rt: Runtime, stores: seq<Store>)
    ensures fresh(rt) && fresh(rt.queue) && rt.Valid() && rt.queue.Contents() == multiset{}
    ensures rt.nodes == ThreeStoreNodes() && |rt.nodes| == 12
    ensures rt.states == [Num(1), Num(2), Num(0)] && rt.log == []
    ensures |stores| == 3 && AllFit(stores, 12, 3)
    ensures Cells(stores) == [0, 1, 2] && NodeIds(stores) == [2, 6, 10]
    ensures stores[0].node == 2 && stores[0].cell == 0
  {
    rt := new Runtime();
    var first := NewStore(rt, "store", Num(1), false);
    var second := NewStore(rt, "store", Num(2), false);
    var third := NewStore(rt, "store", Num(0), false);
    stores := [first, second, third];
  }

  /** `testCombine`'s graph: the three stores, and the combined store at
      node 14 and cell 3, fed by the combine node 15. */
  method BuildCombineScenario() returns (rt: Runtime, first: Store, c: Store)
    ensures fresh(rt) && fresh(rt.queue) && rt.Valid() && rt.queue.Contents() == multiset{}
    ensures rt.nodes == CombineScenarioNodes()
    ensures rt.states == [Num(1), Num(2), Num(0), Num(3)] && rt.log == []
    ensures first.node == 2 && first.cell == 0 && c.node == 14 && c.cell == 3
  {
    var stores;
    rt, stores := BuildThreeStores();
    first := stores[0];
    assert Read(rt.states, [0, 1, 2]) == [Num(1), Num(2), Num(0)];
    SumOfThree(1, 2, 0);
    c := Combine(rt, stores, Sum);
  }

  /** Setting the first store of `testCombine` to 10 leaves 12 in the
      combined store. */
  lemma CombineScenarioRun(nodes: seq<Node>, trace: seq<WorkQueue.Entry>)
    requires nodes == CombineScenarioNodes() && GraphFits(nodes, 4)
    requires Schedule(nodes, multiset{} + multiset{WorkQueue.Entry(2, nodes[2].priority, Num(10))}, trace,
                      [Num(1), Num(2), Num(0), Num(3)], [], multiset{})
    ensures IdsIn(trace, |nodes|)
    ensures Replay(nodes, trace, [Num(1), Num(2), Num(0), Num(3)], []) == ([Num(10), Num(2), Num(0), Num(12)], [])
  {
    CombineScenarioGraph(nodes);
    CombineScenarioSteps(nodes, trace);
  }

  /** The run of `CombineScenarioRun`, from the graph facts alone. */
  lemma CombineScenarioSteps(nodes: seq<Node>, trace: seq<WorkQueue.Entry>)
    requires |nodes| == 16 && GraphFits(nodes, 4)
    requires nodes[2].steps == StoreSteps(0) && nodes[2].next == [0, 15] && nodes[2].priority == Child
    requires nodes[0].steps == [] && nodes[0].next == [] && nodes[0].priority == Child
    requires nodes[15].priority == Priority.Combine && nodes[15].next == [14] && nodes[15].steps == [ReadStores([0, 1, 2], Sum)]
    requires nodes[14].steps == StoreSteps(3) && nodes[14].next == [12]
    requires nodes[12].steps == [] && nodes[12].next == []
    requires Schedule(nodes, multiset{} + multiset{WorkQueue.Entry(2, nodes[2].priority, Num(10))}, trace,
                      [Num(1), Num(2), Num(0), Num(3)], [], multiset{})
    ensures IdsIn(trace, |nodes|)
    ensures Replay(nodes, trace, [Num(1), Num(2), Num(0), Num(3)], []) == ([Num(10), Num(2), Num(0), Num(12)], [])
  {
    var states := [Num(1), Num(2), Num(0), Num(3)];
    AddToNone(WorkQueue.Entry(2, Child, Num(10)));
    CombineScenarioSums(states);
    CombineRun(nodes, 2, 0, 15, 14, 12, 0, 3, [0, 1, 2], Sum, Num(10), trace, states, []);
  }

  lemma CombineScenarioSums(states: seq<Value>)
    requires states == [Num(1), Num(2), Num(0), Num(3)]
    ensures states[3] == Sum(Read(states, [0, 1, 2]))
    ensures states[0 := Num(10)][3 := Sum(Read(states[0 := Num(10)], [0, 1, 2]))] == [Num(10), Num(2), Num(0), Num(12)]
  {
    assert Read(states, [0, 1, 2]) == [Num(1), Num(2), Num(0)];
    SumOfThree(1, 2, 0);
    assert Read(states[0 := Num(10)], [0, 1, 2]) == [Num(10), Num(2), Num(0)];
    SumOfThree(10, 2, 0);
  }

  /** The graph `CombineScenario` builds. */
  lemma CombineScenarioGraph(nodes: seq<Node>)
    requires nodes == CombineScenarioNodes()
    ensures |nodes| == 16 && nodes[2].steps == StoreSteps(0) && nodes[2].next == [0, 15] && nodes[2].priority == Child
    ensures nodes[0].steps == [] && nodes[0].next == [] && nodes[0].priority == Child
    ensures nodes[15].priority == Priority.Combine && nodes[15].next == [14] && nodes[15].steps == [ReadStores([0, 1, 2], Sum)]
    ensures nodes[14].steps == StoreSteps(3) && nodes[14].next == [12]
    ensures nodes[12].steps == [] && nodes[12].next == []
  {
    var base := ThreeStoreNodes() + StoreNodes(12, "combine", 3);
    CombineScenarioBase(base);
    assert Occurrences([2, 6, 10], 2) == 1 && Repeat(15, 1) == [15];
    assert Occurrences([2, 6, 10], 0) == 0 && Occurrences([2, 6, 10], 12) == 0 && Occurrences([2, 6, 10], 14) == 0;
  }

  lemma CombineScenarioBase(base: seq<Node>)
    requires base == ThreeStoreNodes() + StoreNodes(12, "combine", 3)
    ensures |base| == 15
    ensures base[2].steps == StoreSteps(0) && base[2].next == [0] && base[2].priority == Child
    ensures base[0].steps == [] && base[0].next == [] && base[0].priority == Child
    ensures base[14].steps == StoreSteps(3) && base[14].next == [12]
    ensures base[12].steps == [] && base[12].next == []
  {
  }

  // `testCombineBarrier`'s shape on two operands: a store, a store mapped
  // from it, and a store combining both, watched. A write to the first
  // store reaches the combine node along two paths; the combined store's
  // watcher still fires once.

  /** The nodes and cells of that shape: the store `a` (cell `c`) with
      successors `u` (its `updates`), the map node `p` and the combine node
      `m`; the mapped store `b` (cell `e`) with successors `ub` and `m`; the
      combined store `k` (cell `d`) with successors `uk` and the watcher
      `w`. */
  datatype Diamond = Diamond(a: nat, u: nat, p: nat, b: nat, ub: nat, m: nat, k: nat, uk: nat, w: nat,
                             c: nat, e: nat, d: nat)

  ghost predicate DiamondGraph(nodes: seq<Node>, g: Diamond, f: Value -> Value, fn: seq<Value> -> Value, cells: nat) {
    && GraphFits(nodes, cells) && DiamondIds(g, |nodes|, cells)
    && SourceWired(nodes, g) && MappedWired(nodes, g, f) && CombinedWired(nodes, g, fn)
  }

  predicate DiamondIds(g: Diamond, count: nat, cells: nat) {
    && g.a < count && g.u < count && g.p < count && g.b < count && g.ub < count
    && g.m < count && g.k < count && g.uk < count && g.w < count
    && g.c < cells && g.e < cells && g.d < cells && g.c != g.e && g.d != g.c && g.d != g.e
  }

  /** The first store and its `updates`. */
  ghost predicate SourceWired(nodes: seq<Node>, g: Diamond)
    requires g.a < |nodes| && g.u < |nodes|
  {
    && nodes[g.a].priority == Child && nodes[g.a].steps == StoreSteps(g.c) && nodes[g.a].next == [g.u, g.p, g.m]
    && nodes[g.u].priority == Child && nodes[g.u].steps == [] && nodes[g.u].next == []
  }

  /** The map node, the mapped store and its `updates`. */
  ghost predicate MappedWired(nodes: seq<Node>, g: Diamond, f: Value -> Value)
    requires g.p < |nodes| && g.b < |nodes| && g.ub < |nodes|
  {
    && nodes[g.p].priority == Pure && nodes[g.p].steps == [Compute(f)] && nodes[g.p].next == [g.b]
    && nodes[g.b].priority == Child && nodes[g.b].steps == StoreSteps(g.e) && nodes[g.b].next == [g.ub, g.m]
    && nodes[g.ub].priority == Child && nodes[g.ub].steps == [] && nodes[g.ub].next == []
  }

  /** The combine node, the combined store, its `updates` and the watcher. */
  ghost predicate CombinedWired(nodes: seq<Node>, g: Diamond, fn: seq<Value> -> Value)
    requires g.m < |nodes| && g.k < |nodes| && g.uk < |nodes| && g.w < |nodes|
  {
    && nodes[g.m].priority == Priority.Combine && nodes[g.m].steps == [ReadStores([g.c, g.e], fn)] && nodes[g.m].next == [g.k]
    && nodes[g.k].priority == Child && nodes[g.k].steps == StoreSteps(g.d) && nodes[g.k].next == [g.uk, g.w]
    && nodes[g.uk].priority == Child && nodes[g.uk].steps == [] && nodes[g.uk].next == []
    && nodes[g.w].priority == Effect && nodes[g.w].steps == [Observe(g.w)] && nodes[g.w].next == []
  }

  /** A write of `v` to the first store, once the queue drains: the store
      holds `v`, the mapped store `f(v)` and the combined store
      `x = fn([v, f(v)])`; the watcher received `x` exactly once if the
      combined state changed and not at all otherwise, although the
      combine node ran once per path. A value equal to the store's state
      changes nothing. */
  lemma CombineOnce(nodes: seq<Node>, g: Diamond, f: Value -> Value, fn: seq<Value> -> Value, v: Value,
                    trace: seq<WorkQueue.Entry>, states: seq<Value>, log: seq<Signal>)
    requires DiamondGraph(nodes, g, f, fn, |states|)
    requires Hashable(fn([v, f(v)]))
    requires Schedule(nodes, multiset{WorkQueue.Entry(g.a, Child, v)}, trace, states, log, multiset{})
    ensures IdsIn(trace, |nodes|)
    ensures var x := fn([v, f(v)]);
            Replay(nodes, trace, states, log)
            == if AreEqual(v, states[g.c]) then (states, log)
               else (states[g.c := v][g.e := f(v)][g.d := x],
                     log + if AreEqual(x, states[g.d]) then [] else [Watched(g.w, x)])
  {
    if AreEqual(v, states[g.c]) {
      StoreStopsAlone(nodes, g.a, g.c, v, trace, states, log);
    } else {
      var s := states[g.c := v];
      StoreFansOut(nodes, g.a, g.c, v, trace, states, log);
      DiamondStart(nodes, g, f, fn, v, trace[1..], s, log);
      MappedWrite(nodes, g, f, fn, v, trace[1..][2..], s, log);
    }
  }

  /** A store entry alone in the queue, with a value equal to the store's
      state: nothing changes. */
  lemma StoreStopsAlone(nodes: seq<Node>, n: nat, cell: nat, y: Value,
                        trace: seq<WorkQueue.Entry>, states: seq<Value>, log: seq<Signal>)
    requires GraphFits(nodes, |states|) && n < |nodes| && cell < |states|
    requires nodes[n].priority == Child && nodes[n].steps == StoreSteps(cell) && AreEqual(y, states[cell])
    requires Schedule(nodes, multiset{WorkQueue.Entry(n, Child, y)}, trace, states, log, multiset{})
    ensures IdsIn(trace, |nodes|) && Replay(nodes, trace, states, log) == (states, log)
  {
    var ey := WorkQueue.Entry(n, Child, y);
    StoreWrite(cell, y, states, log);
    ScheduleHead(nodes, multiset{ey}, ey, trace, states, log);
    assert Requeue(nodes, multiset{ey}, ey, states, log) == multiset{};
    ScheduleEmpty(nodes, trace[1..], states, log, multiset{});
  }

  /** A store entry alone in the queue, with a new value, for a store with
      three successors: it is written and the three are queued. */
  lemma StoreFansOut(nodes: seq<Node>, n: nat, cell: nat, y: Value,
                     trace: seq<WorkQueue.Entry>, states: seq<Value>, log: seq<Signal>)
    requires GraphFits(nodes, |states|) && n < |nodes| && cell < |states|
    requires nodes[n].priority == Child && nodes[n].steps == StoreSteps(cell) && |nodes[n].next| == 3
    requires !AreEqual(y, states[cell])
    requires Schedule(nodes, multiset{WorkQueue.Entry(n, Child, y)}, trace, states, log, multiset{})
    ensures trace != [] && IdsIn(trace, |nodes|) && IdsIn(trace[1..], |nodes|)
    ensures var x0 := nodes[n].next[0]; var x1 := nodes[n].next[1]; var x2 := nodes[n].next[2];
            Schedule(nodes, multiset{WorkQueue.Entry(x0, nodes[x0].priority, y), WorkQueue.Entry(x1, nodes[x1].priority, y),
                                     WorkQueue.Entry(x2, nodes[x2].priority, y)},
                     trace[1..], states[cell := y], log, multiset{})
    ensures Replay(nodes, trace, states, log) == Replay(nodes, trace[1..], states[cell := y], log)
  {
    var ey := WorkQueue.Entry(n, Child, y);
    var x0 := nodes[n].next[0];
    var x1 := nodes[n].next[1];
    var x2 := nodes[n].next[2];
    StoreWrite(cell, y, states, log);
    RequeueFanOut(nodes, ey, x0, x1, x2, y, states, log);
    ScheduleHead(nodes, multiset{ey}, ey, trace, states, log);
    IdsTail(nodes, trace);
  }

  /** An entry alone in the queue whose pipeline passes `w` to three
      successors is replaced by their three entries. */
  lemma RequeueFanOut(nodes: seq<Node>, e: WorkQueue.Entry, y0: nat, y1: nat, y2: nat, w: Value,
                      states: seq<Value>, log: seq<Signal>)
    requires GraphFits(nodes, |states|) && e.id < |nodes|
    requires nodes[e.id].next == [y0, y1, y2] && y0 < |nodes| && y1 < |nodes| && y2 < |nodes|
    requires var o := RunSteps(nodes[e.id].steps, e.value, states, log); o.passed && o.value == w
    ensures Requeue(nodes, multiset{e}, e, states, log)
            == multiset{WorkQueue.Entry(y0, nodes[y0].priority, w), WorkQueue.Entry(y1, nodes[y1].priority, w),
                        WorkQueue.Entry(y2, nodes[y2].priority, w)}
  {
    assert Successors(nodes, [y0, y1, y2], w)
           == [WorkQueue.Entry(y0, nodes[y0].priority, w), WorkQueue.Entry(y1, nodes[y1].priority, w),
               WorkQueue.Entry(y2, nodes[y2].priority, w)];
  }

  /** The store's three successors: its `updates` runs first and changes
      nothing, then the map node hands `f(v)` to the mapped store. */
  lemma DiamondStart(nodes: seq<Node>, g: Diamond, f: Value -> Value, fn: seq<Value> -> Value, v: Value,
                     trace: seq<WorkQueue.Entry>, states: seq<Value>, log: seq<Signal>)
    requires DiamondGraph(nodes, g, f, fn, |states|)
    requires Schedule(nodes, multiset{WorkQueue.Entry(g.u, Child, v), WorkQueue.Entry(g.p, Pure, v),
                                      WorkQueue.Entry(g.m, Priority.Combine, v)}, trace, states, log, multiset{})
    ensures |trace| >= 2 && IdsIn(trace, |nodes|) && IdsIn(trace[2..], |nodes|)
    ensures Schedule(nodes, multiset{WorkQueue.Entry(g.m, Priority.Combine, v), WorkQueue.Entry(g.b, Child, f(v))},
                     trace[2..], states, log, multiset{})
    ensures Replay(nodes, trace, states, log) == Replay(nodes, trace[2..], states, log)
  {
    var eu := WorkQueue.Entry(g.u, Child, v);
    var ep := WorkQueue.Entry(g.p, Pure, v);
    var em := WorkQueue.Entry(g.m, Priority.Combine, v);
    ScheduleIds(nodes, multiset{eu, ep, em}, trace, states, log, multiset{});
    SingleStep(Compute(f), v, states, log);
    DropOfThree(nodes, eu, ep, em, trace, states, log);
    ForwardOfTwo(nodes, ep, em, g.b, Child, f(v), trace[1..], states, log);
    assert trace[1..][1..] == trace[2..];
  }

  /** The mapped store takes `f(v)` ahead of the waiting combine entry: a
      stopped write leaves one combine entry, a new state adds a second. */
  lemma MappedWrite(nodes: seq<Node>, g: Diamond, f: Value -> Value, fn: seq<Value> -> Value, v: Value,
                    trace: seq<WorkQueue.Entry>, states: seq<Value>, log: seq<Signal>)
    requires DiamondGraph(nodes, g, f, fn, |states|) && states[g.c] == v
    requires Hashable(fn([v, f(v)]))
    requires Schedule(nodes, multiset{WorkQueue.Entry(g.m, Priority.Combine, v), WorkQueue.Entry(g.b, Child, f(v))},
                      trace, states, log, multiset{})
    ensures IdsIn(trace, |nodes|)
    ensures var s := states[g.e := f(v)]; var x := fn([v, f(v)]);
            Replay(nodes, trace, states, log)
            == (s[g.d := x], log + if AreEqual(x, states[g.d]) then [] else [Watched(g.w, x)])
  {
    var em := WorkQueue.Entry(g.m, Priority.Combine, v);
    if AreEqual(f(v), states[g.e]) {
      MappedStopped(nodes, g, f, fn, v, trace, states, log);
    } else {
      StoreWritesAhead(nodes, em, g.b, g.e, f(v), trace, states, log);
      MappedWritten(nodes, g, f, fn, v, trace[1..], states[g.e := f(v)], log);
    }
  }

  /** The mapped store already holds `f(v)`: it is stopped, and the one
      combine entry runs. */
  lemma MappedStopped(nodes: seq<Node>, g: Diamond, f: Value -> Value, fn: seq<Value> -> Value, v: Value,
                      trace: seq<WorkQueue.Entry>, states: seq<Value>, log: seq<Signal>)
    requires DiamondGraph(nodes, g, f, fn, |states|) && states[g.c] == v && AreEqual(f(v), states[g.e])
    requires Schedule(nodes, multiset{WorkQueue.Entry(g.m, Priority.Combine, v), WorkQueue.Entry(g.b, Child, f(v))},
                      trace, states, log, multiset{})
    ensures IdsIn(trace, |nodes|)
    ensures var s := states[g.e := f(v)]; var x := fn([v, f(v)]);
            Replay(nodes, trace, states, log)
            == (s[g.d := x], log + if AreEqual(x, states[g.d]) then [] else [Watched(g.w, x)])
  {
    StoreStopsAhead(nodes, WorkQueue.Entry(g.m, Priority.Combine, v), g.b, g.e, f(v), trace, states, log);
    assert states[g.e := f(v)] == states;
    ReadPair(states, g.c, g.e);
    OneCombine(nodes, g, f, fn, v, trace[1..], states, log);
  }

  /** The mapped store took `f(v)`: its `updates` runs, and two combine
      entries wait. */
  lemma MappedWritten(nodes: seq<Node>, g: Diamond, f: Value -> Value, fn: seq<Value> -> Value, v: Value,
                      trace: seq<WorkQueue.Entry>, states: seq<Value>, log: seq<Signal>)
    requires DiamondGraph(nodes, g, f, fn, |states|) && states[g.c] == v && states[g.e] == f(v)
    requires Hashable(fn([v, f(v)]))
    requires Schedule(nodes, multiset{WorkQueue.Entry(g.ub, Child, f(v)), WorkQueue.Entry(g.m, Priority.Combine, v),
                                      WorkQueue.Entry(g.m, Priority.Combine, f(v))}, trace, states, log, multiset{})
    ensures IdsIn(trace, |nodes|)
    ensures var x := fn([v, f(v)]);
            Replay(nodes, trace, states, log)
            == (states[g.d := x], log + if AreEqual(x, states[g.d]) then [] else [Watched(g.w, x)])
  {
    var em := WorkQueue.Entry(g.m, Priority.Combine, v);
    var eub := WorkQueue.Entry(g.ub, Child, f(v));
    var em2 := WorkQueue.Entry(g.m, Priority.Combine, f(v));
    ScheduleIds(nodes, multiset{eub, em, em2}, trace, states, log, multiset{});
    DropOfThree(nodes, eub, em, em2, trace, states, log);
    ReadPair(states, g.c, g.e);
    TwoCombines(nodes, g, f, fn, v, f(v), trace[1..], states, log);
  }

  /** A store entry (node `n`, cell `cell`) ahead of one other entry `r`,
      with a value equal to the store's state: it is taken and dropped. */
  lemma StoreStopsAhead(nodes: seq<Node>, r: WorkQueue.Entry, n: nat, cell: nat, y: Value,
                        trace: seq<WorkQueue.Entry>, states: seq<Value>, log: seq<Signal>)
    requires GraphFits(nodes, |states|) && n < |nodes| && cell < |states|
    requires nodes[n].priority == Child && nodes[n].steps == StoreSteps(cell)
    requires WorkQueue.Sort(WorkQueue.Entry(n, Child, y), r) && AreEqual(y, states[cell])
    requires Schedule(nodes, multiset{r, WorkQueue.Entry(n, Child, y)}, trace, states, log, multiset{})
    ensures trace != [] && IdsIn(trace, |nodes|) && IdsIn(trace[1..], |nodes|)
    ensures Schedule(nodes, multiset{r}, trace[1..], states, log, multiset{})
    ensures Replay(nodes, trace, states, log) == Replay(nodes, trace[1..], states, log)
  {
    var ey := WorkQueue.Entry(n, Child, y);
    StoreWrite(cell, y, states, log);
    Swap(r, ey);
    ScheduleIds(nodes, multiset{ey, r}, trace, states, log, multiset{});
    DropOfTwo(nodes, ey, r, trace, states, log);
  }

  /** A store entry ahead of one other entry `r`, with a new value: it is
      written, and the store's two successors join `r`. */
  lemma StoreWritesAhead(nodes: seq<Node>, r: WorkQueue.Entry, n: nat, cell: nat, y: Value,
                         trace: seq<WorkQueue.Entry>, states: seq<Value>, log: seq<Signal>)
    requires GraphFits(nodes, |states|) && n < |nodes| && cell < |states|
    requires nodes[n].priority == Child && nodes[n].steps == StoreSteps(cell) && |nodes[n].next| == 2
    requires WorkQueue.Sort(WorkQueue.Entry(n, Child, y), r) && !AreEqual(y, states[cell])
    requires Schedule(nodes, multiset{r, WorkQueue.Entry(n, Child, y)}, trace, states, log, multiset{})
    ensures trace != [] && IdsIn(trace, |nodes|) && IdsIn(trace[1..], |nodes|)
    ensures var x0 := nodes[n].next[0]; var x1 := nodes[n].next[1];
            Schedule(nodes, multiset{WorkQueue.Entry(x0, nodes[x0].priority, y), r, WorkQueue.Entry(x1, nodes[x1].priority, y)},
                     trace[1..], states[cell := y], log, multiset{})
    ensures Replay(nodes, trace, states, log) == Replay(nodes, trace[1..], states[cell := y], log)
  {
    var ey := WorkQueue.Entry(n, Child, y);
    var x0 := nodes[n].next[0];
    var x1 := nodes[n].next[1];
    StoreWrite(cell, y, states, log);
    assert nodes[n].next == [x0, x1];
    var e0 := WorkQueue.Entry(x0, nodes[x0].priority, y);
    var e1 := WorkQueue.Entry(x1, nodes[x1].priority, y);
    RequeueFork(nodes, multiset{r}, ey, x0, x1, y, states, log);
    JoinAhead(r, e0, e1);
    AheadOfTwo(ey, r);
    Swap(ey, r);
    AddToOne(r, ey);
    ScheduleHead(nodes, multiset{r, ey}, ey, trace, states, log);
    IdsTail(nodes, trace);
  }

  /** The combine node's operands, read. */
  lemma ReadPair(states: seq<Value>, c: nat, e: nat)
    requires c < |states| && e < |states|
    ensures IdsBelow([c, e], |states|) && Read(states, [c, e]) == [states[c], states[e]]
  {
  }

  lemma JoinAhead<T>(r: T, e0: T, e1: T)
    ensures multiset{r} + multiset{e0, e1} == multiset{e0, r, e1}
  {
  }

  /** An entry whose pipeline passes `w` to two successors is replaced by
      their two entries. */
  lemma RequeueFork(nodes: seq<Node>, rest: multiset<WorkQueue.Entry>, e: WorkQueue.Entry, y0: nat, y1: nat, w: Value,
                    states: seq<Value>, log: seq<Signal>)
    requires GraphFits(nodes, |states|) && e.id < |nodes|
    requires nodes[e.id].next == [y0, y1] && y0 < |nodes| && y1 < |nodes|
    requires var o := RunSteps(nodes[e.id].steps, e.value, states, log); o.passed && o.value == w
    ensures Requeue(nodes, rest + multiset{e}, e, states, log)
            == rest + multiset{WorkQueue.Entry(y0, nodes[y0].priority, w), WorkQueue.Entry(y1, nodes[y1].priority, w)}
  {
    assert Successors(nodes, [y0, y1], w) == [WorkQueue.Entry(y0, nodes[y0].priority, w), WorkQueue.Entry(y1, nodes[y1].priority, w)];
    assert rest + multiset{e} - multiset{e} == rest;
  }

  /** Two combine entries: whichever runs first, both hand the same
      value, so the outcome is that of `CombinedWrite`. */
  lemma TwoCombines(nodes: seq<Node>, g: Diamond, f: Value -> Value, fn: seq<Value> -> Value, q1: Value, q2: Value,
                    trace: seq<WorkQueue.Entry>, states: seq<Value>, log: seq<Signal>)
    requires DiamondGraph(nodes, g, f, fn, |states|)
    requires Hashable(fn(Read(states, [g.c, g.e])))
    requires Schedule(nodes, multiset{WorkQueue.Entry(g.m, Priority.Combine, q1), WorkQueue.Entry(g.m, Priority.Combine, q2)},
                      trace, states, log, multiset{})
    ensures IdsIn(trace, |nodes|)
    ensures var x := fn(Read(states, [g.c, g.e]));
            Replay(nodes, trace, states, log)
            == (states[g.d := x], log + if AreEqual(x, states[g.d]) then [] else [Watched(g.w, x)])
  {
    var e1 := WorkQueue.Entry(g.m, Priority.Combine, q1);
    var e2 := WorkQueue.Entry(g.m, Priority.Combine, q2);
    if trace == [] {
      assert false;
    }
    var t := trace[0];
    assert t == e1 || t == e2;
    var other := if t == e1 then e2 else e1;
    PairSplit(e1, e2, t, other);
    CombineFirst(nodes, g, f, fn, t, other, trace, states, log);
  }

  /** The combine entry `t` runs first, `other` waits. */
  lemma CombineFirst(nodes: seq<Node>, g: Diamond, f: Value -> Value, fn: seq<Value> -> Value,
                     t: WorkQueue.Entry, other: WorkQueue.Entry, trace: seq<WorkQueue.Entry>, states: seq<Value>, log: seq<Signal>)
    requires DiamondGraph(nodes, g, f, fn, |states|)
    requires Hashable(fn(Read(states, [g.c, g.e])))
    requires t.id == g.m && other == WorkQueue.Entry(g.m, Priority.Combine, other.value)
    requires Schedule(nodes, multiset{other} + multiset{t}, trace, states, log, multiset{})
    requires trace != [] && trace[0] == t
    ensures IdsIn(trace, |nodes|)
    ensures var x := fn(Read(states, [g.c, g.e]));
            Replay(nodes, trace, states, log)
            == (states[g.d := x], log + if AreEqual(x, states[g.d]) then [] else [Watched(g.w, x)])
  {
    var x := fn(Read(states, [g.c, g.e]));
    ScheduleIds(nodes, multiset{other} + multiset{t}, trace, states, log, multiset{});
    CombineStep(nodes, g, fn, t, other, x, states, log);
    assert multiset{other} + multiset{WorkQueue.Entry(g.k, Child, x)} == multiset{other, WorkQueue.Entry(g.k, Child, x)};
    QuietReplay(nodes, trace, states, log);
    CombinedWrite(nodes, g, f, fn, other.value, x, trace[1..], states, log);
  }

  /** One of two combine entries runs: it changes nothing and leaves the
      other one and the combined store's entry, with `x`. */
  lemma CombineStep(nodes: seq<Node>, g: Diamond, fn: seq<Value> -> Value,
                    t: WorkQueue.Entry, other: WorkQueue.Entry, x: Value, states: seq<Value>, log: seq<Signal>)
    requires GraphFits(nodes, |states|) && t.id == g.m < |nodes| && g.k < |nodes| && g.c < |states| && g.e < |states|
    requires nodes[g.m].steps == [ReadStores([g.c, g.e], fn)] && nodes[g.m].next == [g.k] && nodes[g.k].priority == Child
    requires x == fn(Read(states, [g.c, g.e]))
    ensures Quiet(nodes, t, states, log)
    ensures Requeue(nodes, multiset{other} + multiset{t}, t, states, log) == multiset{other} + multiset{WorkQueue.Entry(g.k, Child, x)}
  {
    SingleStep(ReadStores([g.c, g.e], fn), t.value, states, log);
    RequeueForward(nodes, multiset{other}, t, g.k, Child, x, states, log);
  }

  /** Taking either entry of a pair leaves the other. */
  lemma PairSplit<T>(e1: T, e2: T, t: T, other: T)
    requires (t == e1 && other == e2) || (t == e2 && other == e1)
    ensures multiset{e1, e2} == multiset{other} + multiset{t}
  {
  }

  /** The combined store ahead of the second combine entry: a new state
      reaches the watcher, and the second run, handing the same `x`, is
      stopped by the combined store. */
  lemma CombinedWrite(nodes: seq<Node>, g: Diamond, f: Value -> Value, fn: seq<Value> -> Value, q: Value, x: Value,
                      trace: seq<WorkQueue.Entry>, states: seq<Value>, log: seq<Signal>)
    requires DiamondGraph(nodes, g, f, fn, |states|)
    requires Hashable(x) && x == fn(Read(states, [g.c, g.e]))
    requires Schedule(nodes, multiset{WorkQueue.Entry(g.m, Priority.Combine, q), WorkQueue.Entry(g.k, Child, x)},
                      trace, states, log, multiset{})
    ensures IdsIn(trace, |nodes|)
    ensures Replay(nodes, trace, states, log)
            == (states[g.d := x], log + if AreEqual(x, states[g.d]) then [] else [Watched(g.w, x)])
  {
    if AreEqual(x, states[g.d]) {
      CombinedStopped(nodes, g, f, fn, q, x, trace, states, log);
      assert states[g.d := x] == states && log + [] == log;
    } else {
      CombinedPassed(nodes, g, f, fn, q, x, trace, states, log);
    }
  }

  /** The combined store takes a new `x` ahead of the second combine
      entry. */
  lemma CombinedPassed(nodes: seq<Node>, g: Diamond, f: Value -> Value, fn: seq<Value> -> Value, q: Value, x: Value,
                       trace: seq<WorkQueue.Entry>, states: seq<Value>, log: seq<Signal>)
    requires DiamondGraph(nodes, g, f, fn, |states|)
    requires Hashable(x) && x == fn(Read(states, [g.c, g.e])) && !AreEqual(x, states[g.d])
    requires Schedule(nodes, multiset{WorkQueue.Entry(g.m, Priority.Combine, q), WorkQueue.Entry(g.k, Child, x)},
                      trace, states, log, multiset{})
    ensures IdsIn(trace, |nodes|)
    ensures Replay(nodes, trace, states, log) == (states[g.d := x], log + [Watched(g.w, x)])
  {
    var s := states[g.d := x];
    StoreWritesAhead(nodes, WorkQueue.Entry(g.m, Priority.Combine, q), g.k, g.d, x, trace, states, log);
    ReadPair(states, g.c, g.e);
    ReadPair(s, g.c, g.e);
    CombinedWritten(nodes, g, f, fn, q, x, trace[1..], s, log);
  }

  /** The combined store already holds `x`: it is stopped, and the
      second combine entry hands `x` again, to be stopped again. */
  lemma CombinedStopped(nodes: seq<Node>, g: Diamond, f: Value -> Value, fn: seq<Value> -> Value, q: Value, x: Value,
                        trace: seq<WorkQueue.Entry>, states: seq<Value>, log: seq<Signal>)
    requires DiamondGraph(nodes, g, f, fn, |states|)
    requires x == fn(Read(states, [g.c, g.e])) && AreEqual(x, states[g.d])
    requires Schedule(nodes, multiset{WorkQueue.Entry(g.m, Priority.Combine, q), WorkQueue.Entry(g.k, Child, x)},
                      trace, states, log, multiset{})
    ensures IdsIn(trace, |nodes|)
    ensures Replay(nodes, trace, states, log) == (states, log)
  {
    StoreStopsAhead(nodes, WorkQueue.Entry(g.m, Priority.Combine, q), g.k, g.d, x, trace, states, log);
    OneCombine(nodes, g, f, fn, q, trace[1..], states, log);
    assert states[g.d := x] == states && log + [] == log;
  }

  /** The combined store took `x`: its `updates` runs, then the second
      combine entry. */
  lemma CombinedWritten(nodes: seq<Node>, g: Diamond, f: Value -> Value, fn: seq<Value> -> Value, q: Value, x: Value,
                        trace: seq<WorkQueue.Entry>, states: seq<Value>, log: seq<Signal>)
    requires DiamondGraph(nodes, g, f, fn, |states|)
    requires Hashable(x) && x == fn(Read(states, [g.c, g.e])) && states[g.d] == x
    requires Schedule(nodes, multiset{WorkQueue.Entry(g.uk, Child, x), WorkQueue.Entry(g.m, Priority.Combine, q),
                                      WorkQueue.Entry(g.w, Effect, x)}, trace, states, log, multiset{})
    ensures IdsIn(trace, |nodes|)
    ensures Replay(nodes, trace, states, log) == (states, log + [Watched(g.w, x)])
  {
    var em := WorkQueue.Entry(g.m, Priority.Combine, q);
    var euk := WorkQueue.Entry(g.uk, Child, x);
    var ew := WorkQueue.Entry(g.w, Effect, x);
    ScheduleIds(nodes, multiset{euk, em, ew}, trace, states, log, multiset{});
    DropOfThree(nodes, euk, em, ew, trace, states, log);
    SecondCombineStopped(nodes, g, f, fn, q, x, trace[1..], states, log);
  }

  /** The second combine entry, ahead of the watcher, hands the combined
      store the value it already holds: the store stops it, and the
      watcher then receives `x` once. */
  lemma SecondCombineStopped(nodes: seq<Node>, g: Diamond, f: Value -> Value, fn: seq<Value> -> Value, q: Value, x: Value,
                             trace: seq<WorkQueue.Entry>, states: seq<Value>, log: seq<Signal>)
    requires DiamondGraph(nodes, g, f, fn, |states|)
    requires Hashable(x) && x == fn(Read(states, [g.c, g.e])) && states[g.d] == x
    requires Schedule(nodes, multiset{WorkQueue.Entry(g.m, Priority.Combine, q), WorkQueue.Entry(g.w, Effect, x)},
                      trace, states, log, multiset{})
    ensures IdsIn(trace, |nodes|)
    ensures Replay(nodes, trace, states, log) == (states, log + [Watched(g.w, x)])
  {
    var em := WorkQueue.Entry(g.m, Priority.Combine, q);
    var ek := WorkQueue.Entry(g.k, Child, x);
    var ew := WorkQueue.Entry(g.w, Effect, x);
    ScheduleIds(nodes, multiset{em, ew}, trace, states, log, multiset{});
    SingleStep(ReadStores([g.c, g.e], fn), q, states, log);
    ForwardOfTwo(nodes, em, ew, g.k, Child, x, trace, states, log);
    Swap(ew, ek);
    StoreWrite(g.d, x, states, log);
    DropOfTwo(nodes, ek, ew, trace[1..], states, log);
    assert trace[1..][1..] == trace[2..];
    ScheduleLast(nodes, g.w, x, trace[2..], states, log);
    Events.WatchReceives(g.w, x, states, log);
  }

  /** One combine entry: it hands `x` to the combined store. */
  lemma OneCombine(nodes: seq<Node>, g: Diamond, f: Value -> Value, fn: seq<Value> -> Value, q: Value,
                   trace: seq<WorkQueue.Entry>, states: seq<Value>, log: seq<Signal>)
    requires DiamondGraph(nodes, g, f, fn, |states|)
    requires Schedule(nodes, multiset{WorkQueue.Entry(g.m, Priority.Combine, q)}, trace, states, log, multiset{})
    ensures IdsIn(trace, |nodes|)
    ensures var x := fn(Read(states, [g.c, g.e]));
            Replay(nodes, trace, states, log)
            == (states[g.d := x], log + if AreEqual(x, states[g.d]) then [] else [Watched(g.w, x)])
  {
    var x := fn(Read(states, [g.c, g.e]));
    SingleStep(ReadStores([g.c, g.e], fn), q, states, log);
    ScheduleChain(nodes, g.m, g.k, q, trace, states, log);
    CombinedAlone(nodes, g, f, fn, x, trace[1..], states, log);
  }

  /** The combined store alone in the queue: a new state is written and
      reaches the watcher, an equal one is stopped. */
  lemma CombinedAlone(nodes: seq<Node>, g: Diamond, f: Value -> Value, fn: seq<Value> -> Value, x: Value,
                      trace: seq<WorkQueue.Entry>, states: seq<Value>, log: seq<Signal>)
    requires DiamondGraph(nodes, g, f, fn, |states|)
    requires Schedule(nodes, multiset{WorkQueue.Entry(g.k, Child, x)}, trace, states, log, multiset{})
    ensures IdsIn(trace, |nodes|)
    ensures Replay(nodes, trace, states, log)
            == (states[g.d := x], log + if AreEqual(x, states[g.d]) then [] else [Watched(g.w, x)])
  {
    var ek := WorkQueue.Entry(g.k, Child, x);
    StoreWrite(g.d, x, states, log);
    ScheduleHead(nodes, multiset{ek}, ek, trace, states, log);
    if AreEqual(x, states[g.d]) {
      assert Requeue(nodes, multiset{ek}, ek, states, log) == multiset{};
      ScheduleEmpty(nodes, trace[1..], states, log, multiset{});
      assert states[g.d := x] == states && log + [] == log;
    } else {
      WatcherFires(nodes, g, f, fn, x, trace[1..], states[g.d := x], log);
    }
  }

  /** After the combined store took `x`: its `updates` runs, then the
      watcher receives `x`. */
  lemma WatcherFires(nodes: seq<Node>, g: Diamond, f: Value -> Value, fn: seq<Value> -> Value, x: Value,
                trace: seq<WorkQueue.Entry>, states: seq<Value>, log: seq<Signal>)
    requires DiamondGraph(nodes, g, f, fn, |states|)
    requires Schedule(nodes, multiset{WorkQueue.Entry(g.k, Child, x)} - multiset{WorkQueue.Entry(g.k, Child, x)}
                             + multiset(Successors(nodes, [g.uk, g.w], x)), trace, states, log, multiset{})
    ensures IdsIn(trace, |nodes|)
    ensures Replay(nodes, trace, states, log) == (states, log + [Watched(g.w, x)])
  {
    var euk := WorkQueue.Entry(g.uk, Child, x);
    var ew := WorkQueue.Entry(g.w, Effect, x);
    assert Successors(nodes, [g.uk, g.w], x) == [euk, ew];
    assert multiset{WorkQueue.Entry(g.k, Child, x)} - multiset{WorkQueue.Entry(g.k, Child, x)} + multiset([euk, ew])
           == multiset{euk, ew};
    ScheduleIds(nodes, multiset{euk, ew}, trace, states, log, multiset{});
    DropOfTwo(nodes, euk, ew, trace, states, log);
    ScheduleLast(nodes, g.w, x, trace[1..], states, log);
    Events.WatchReceives(g.w, x, states, log);
  }

  // `testCombineBarrier` on two operands: `testStoreMap`'s store (1) and
  // its `$0 + 1` map (2), combined by their sum and watched; the store is
  // then set to 2.

  /** The watcher is called with 3 when it is attached and once more, with
      5, after the write, although the write reaches the combine node
      along two paths. */
  method CombineBarrierScenario(fuel: nat) returns (drained: bool, combined: Value, w: nat, log: seq<Signal>)
    ensures w == 12
    ensures drained ==> combined == Num(5) && log == [Watched(w, Num(3)), Watched(w, Num(5))]
  {
    var rt, st, c;
    rt, st, c, w := BuildBarrierScenario();
    ghost var nodes := rt.nodes;
    ghost var trace;
    drained, trace := SetState(rt, st, Num(2), fuel);
    if drained {
      BarrierScenarioRun(nodes, trace);
    }
    combined := GetState(rt, c);
    log := rt.log;
  }

  function BarrierCombinedNodes(): seq<Node> {
    AppendEdges(MapScenarioNodes("store", "store" + ":map") + StoreNodes(8, "combine", 2), [2, 6], 11)
    + [Node(11, "combine", StoreKind, Priority.Combine, [10], [ReadStores([0, 1], Sum)])]
  }

  function BarrierNodes(): seq<Node> {
    AppendEdges(BarrierCombinedNodes(), [10], 12) + [Node(12, "combine" + ":watch", Regular, Effect, [], [Observe(12)])]
  }

  /** The store at node 2 and cell 0, the mapped store at node 6 and cell
      1, the combined store at node 10 and cell 2, the combine node 11 and
      the watcher 12. */
  method BuildBarrierScenario() returns (rt: Runtime, st: Store, combined: Store, w: nat)
    ensures fresh(rt) && fresh(rt.queue) && rt.Valid() && rt.queue.Contents() == multiset{}
    ensures rt.nodes == BarrierNodes() && |rt.nodes| == 13
    ensures rt.states == [Num(1), Num(2), Num(3)] && rt.log == [Watched(12, Num(3))]
    ensures st.node == 2 && st.cell == 0 && combined.node == 10 && combined.cell == 2 && w == 12
  {
    rt, st, combined := BuildBarrierCombined();
    w := Watch(rt, combined, None);
  }

  /** The graph of `CombineBarrierScenario` before the watcher. */
  method BuildBarrierCombined() returns (rt: Runtime, st: Store, combined: Store)
    ensures fresh(rt) && fresh(rt.queue) && rt.Valid() && rt.queue.Contents() == multiset{}
    ensures rt.nodes == BarrierCombinedNodes() && |rt.nodes| == 12
    ensures rt.states == [Num(1), Num(2), Num(3)] && rt.log == []
    ensures st.node == 2 && st.cell == 0 && combined == Store(10, 2, "combine", Num(3), true,
                         Events.Event(8, "combine" + ":updates", true), Events.Event(9, "combine" + ":reinit", true))
  {
    var mapped;
    rt, st, mapped := BuildMapScenario();
    assert Cells([st, mapped]) == [0, 1] && NodeIds([st, mapped]) == [2, 6];
    ReadPair(rt.states, 0, 1);
    SumOfTwo(1, 2);
    combined := Combine(rt, [st, mapped], Sum);
  }

  lemma SumOfTwo(a: int, b: int)
    ensures Sum([Num(a), Num(b)]) == Num(a + b)
  {
    assert [Num(a), Num(b)][1..] == [Num(b)];
    assert [Num(b)][1..] == [];
  }

  /** Setting the store to 2 leaves 2, 3 and 5 in the cells and one more
      call of the watcher, with 5. */
  lemma BarrierScenarioRun(nodes: seq<Node>, trace: seq<WorkQueue.Entry>)
    requires nodes == BarrierNodes() && GraphFits(nodes, 3)
    requires Schedule(nodes, multiset{} + multiset{WorkQueue.Entry(2, nodes[2].priority, Num(2))}, trace,
                      [Num(1), Num(2), Num(3)], [Watched(12, Num(3))], multiset{})
    ensures IdsIn(trace, |nodes|)
    ensures Replay(nodes, trace, [Num(1), Num(2), Num(3)], [Watched(12, Num(3))])
            == ([Num(2), Num(3), Num(5)], [Watched(12, Num(3)), Watched(12, Num(5))])
  {
    var g := Diamond(2, 0, 7, 6, 4, 11, 10, 8, 12, 0, 1, 2);
    BarrierGraph(nodes, g);
    AddToNone(WorkQueue.Entry(2, Child, Num(2)));
    BarrierSteps(nodes, g, trace);
  }

  /** The run of `BarrierScenarioRun`, from the shape of the graph alone. */
  lemma BarrierSteps(nodes: seq<Node>, g: Diamond, trace: seq<WorkQueue.Entry>)
    requires g == Diamond(2, 0, 7, 6, 4, 11, 10, 8, 12, 0, 1, 2) && DiamondGraph(nodes, g, PlusOne, Sum, 3)
    requires Schedule(nodes, multiset{WorkQueue.Entry(2, Child, Num(2))}, trace,
                      [Num(1), Num(2), Num(3)], [Watched(12, Num(3))], multiset{})
    ensures IdsIn(trace, |nodes|)
    ensures Replay(nodes, trace, [Num(1), Num(2), Num(3)], [Watched(12, Num(3))])
            == ([Num(2), Num(3), Num(5)], [Watched(12, Num(3)), Watched(12, Num(5))])
  {
    var states := [Num(1), Num(2), Num(3)];
    BarrierValues();
    CombineOnce(nodes, g, PlusOne, Sum, Num(2), trace, states, [Watched(12, Num(3))]);
    assert states[0 := Num(2)][1 := Num(3)][2 := Num(5)] == [Num(2), Num(3), Num(5)];
    assert !AreEqual(Num(2), states[0]) && !AreEqual(Num(5), states[2]);
    assert [Watched(12, Num(3))] + [Watched(12, Num(5))] == [Watched(12, Num(3)), Watched(12, Num(5))];
  }

  lemma BarrierValues()
    ensures PlusOne(Num(2)) == Num(3) && Sum([Num(2), PlusOne(Num(2))]) == Num(5) && Hashable(Num(5))
    ensures !AreEqual(Num(2), Num(1)) && !AreEqual(Num(5), Num(3))
  {
    SumOfTwo(2, 3);
  }

  /** The graph `CombineBarrierScenario` builds has the shape of
      `CombineOnce`. */
  lemma BarrierGraph(nodes: seq<Node>, g: Diamond)
    requires nodes == BarrierNodes() && GraphFits(nodes, 3)
    requires g == Diamond(2, 0, 7, 6, 4, 11, 10, 8, 12, 0, 1, 2)
    ensures DiamondGraph(nodes, g, PlusOne, Sum, 3)
  {
    var base := MapScenarioNodes("store", "store" + ":map") + StoreNodes(8, "combine", 2);
    BarrierBase(base);
    BarrierCombined(base, BarrierCombinedNodes());
    BarrierWatched(BarrierCombinedNodes(), nodes);
  }

  lemma BarrierWatched(combined: seq<Node>, nodes: seq<Node>)
    requires |combined| == 12
    requires combined[2].priority == Child && combined[2].steps == StoreSteps(0) && combined[2].next == [0, 7, 11]
    requires combined[0].priority == Child && combined[0].steps == [] && combined[0].next == []
    requires combined[7].priority == Pure && combined[7].steps == [Compute(PlusOne)] && combined[7].next == [6]
    requires combined[6].priority == Child && combined[6].steps == StoreSteps(1) && combined[6].next == [4, 11]
    requires combined[4].priority == Child && combined[4].steps == [] && combined[4].next == []
    requires combined[10].priority == Child && combined[10].steps == StoreSteps(2) && combined[10].next == [8]
    requires combined[8].priority == Child && combined[8].steps == [] && combined[8].next == []
    requires combined[11] == Node(11, "combine", StoreKind, Priority.Combine, [10], [ReadStores([0, 1], Sum)])
    requires nodes == AppendEdges(combined, [10], 12) + [Node(12, "combine" + ":watch", Regular, Effect, [], [Observe(12)])]
    ensures |nodes| == 13
    ensures SourceWired(nodes, Diamond(2, 0, 7, 6, 4, 11, 10, 8, 12, 0, 1, 2))
    ensures MappedWired(nodes, Diamond(2, 0, 7, 6, 4, 11, 10, 8, 12, 0, 1, 2), PlusOne)
    ensures CombinedWired(nodes, Diamond(2, 0, 7, 6, 4, 11, 10, 8, 12, 0, 1, 2), Sum)
  {
    assert Occurrences([10], 10) == 1 && Repeat(12, 1) == [12];
    assert Occurrences([10], 2) == 0 && Occurrences([10], 0) == 0 && Occurrences([10], 7) == 0;
    assert Occurrences([10], 6) == 0 && Occurrences([10], 4) == 0 && Occurrences([10], 11) == 0 && Occurrences([10], 8) == 0;
  }

  lemma BarrierCombined(base: seq<Node>, combined: seq<Node>)
    requires |base| == 11
    requires base[2].priority == Child && base[2].steps == StoreSteps(0) && base[2].next == [0, 7]
    requires base[0].priority == Child && base[0].steps == [] && base[0].next == []
    requires base[7].priority == Pure && base[7].steps == [Compute(PlusOne)] && base[7].next == [6]
    requires base[6].priority == Child && base[6].steps == StoreSteps(1) && base[6].next == [4]
    requires base[4].priority == Child && base[4].steps == [] && base[4].next == []
    requires base[10].priority == Child && base[10].steps == StoreSteps(2) && base[10].next == [8]
    requires base[8].priority == Child && base[8].steps == [] && base[8].next == []
    requires combined == AppendEdges(base, [2, 6], 11) + [Node(11, "combine", StoreKind, Priority.Combine, [10], [ReadStores([0, 1], Sum)])]
    ensures |combined| == 12
    ensures combined[2].priority == Child && combined[2].steps == StoreSteps(0) && combined[2].next == [0, 7, 11]
    ensures combined[0].priority == Child && combined[0].steps == [] && combined[0].next == []
    ensures combined[7].priority == Pure && combined[7].steps == [Compute(PlusOne)] && combined[7].next == [6]
    ensures combined[6].priority == Child && combined[6].steps == StoreSteps(1) && combined[6].next == [4, 11]
    ensures combined[4].priority == Child && combined[4].steps == [] && combined[4].next == []
    ensures combined[10].priority == Child && combined[10].steps == StoreSteps(2) && combined[10].next == [8]
    ensures combined[8].priority == Child && combined[8].steps == [] && combined[8].next == []
    ensures combined[11] == Node(11, "combine", StoreKind, Priority.Combine, [10], [ReadStores([0, 1], Sum)])
  {
    assert Occurrences([2, 6], 2) == 1 && Occurrences([2, 6], 6) == 1 && Repeat(11, 1) == [11];
    assert Occurrences([2, 6], 0) == 0 && Occurrences([2, 6], 7) == 0 && Occurrences([2, 6], 4) == 0;
    assert Occurrences([2, 6], 10) == 0 && Occurrences([2, 6], 8) == 0;
  }

  lemma BarrierBase(base: seq<Node>)
    requires base == MapScenarioNodes("store", "store" + ":map") + StoreNodes(8, "combine", 2)
    ensures |base| == 11
    ensures base[2].priority == Child && base[2].steps == StoreSteps(0) && base[2].next == [0, 7]
    ensures base[0].priority == Child && base[0].steps == [] && base[0].next == []
    ensures base[7].priority == Pure && base[7].steps == [Compute(PlusOne)] && base[7].next == [6]
    ensures base[6].priority == Child && base[6].steps == StoreSteps(1) && base[6].next == [4]
    ensures base[4].priority == Child && base[4].steps == [] && base[4].next == []
    ensures base[10].priority == Child && base[10].steps == StoreSteps(2) && base[10].next == [8]
    ensures base[8].priority == Child && base[8].steps == [] && base[8].next == []
  {
    var mapped := MapScenarioNodes("store", "store" + ":map");
    MapScenarioGraph(mapped, "store", "store" + ":map");
    assert base[..8] == mapped;
  }
}
