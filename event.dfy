// Events (Effector/Event.swift): a child-priority node without steps.
// Operators allocate a derived event and a node wired from this one.

module Events {
  import opened Values
  import opened Nodes
  import opened Optional
  import opened Kernel

  /** An event unit: its node, its name and whether it is derived (a
      derived event cannot be called directly). */
  datatype Event = Event(node: nat, name: string, isDerived: bool)

  /** The node an event owns. */
  function EventNode(id: nat, name: string): Node {
    Node(id, name, EventKind, Child, [], [])
  }

  /** `Event.init`. */
  method NewEvent(rt: Runtime, name: string, isDerived: bool) returns (ev: Event)
    requires rt.Valid()
    modifies rt
    ensures rt.Valid()
    ensures ev == Event(|old(rt.nodes)|, name, isDerived)
    ensures rt.nodes == old(rt.nodes) + [EventNode(ev.node, name)]
    ensures rt.states == old(rt.states) && rt.log == old(rt.log)
  {
    var id := rt.NewNode(name, EventKind, Child, [], []);
    ev := Event(id, name, isDerived);
  }

  /** `run`: calling a derived event is a fatal error; otherwise launch the
      event's node with the payload. */
  method Run(rt: Runtime, ev: Event, payload: Value, fuel: nat) returns (drained: bool, ghost trace: seq<WorkQueue.Entry>)
    requires rt.Valid() && ev.node < |rt.nodes|
    requires !ev.isDerived
    modifies rt, rt.queue
    ensures rt.Valid() && rt.nodes == old(rt.nodes)
    ensures GraphFits(rt.nodes, |old(rt.states)|)
    ensures drained <==> rt.queue.Contents() == multiset{}
    ensures Schedule(rt.nodes, old(rt.queue.Contents()) + multiset{WorkQueue.Entry(ev.node, rt.nodes[ev.node].priority, payload)},
                     trace, old(rt.states), old(rt.log), rt.queue.Contents())
    ensures IdsIn(trace, |rt.nodes|)
    ensures (rt.states, rt.log) == Replay(rt.nodes, trace, old(rt.states), old(rt.log))
  {
    drained, trace := rt.Launch(ev.node, payload, fuel);
  }

  /** `watch`: an effect-priority node after the event whose step hands the
      payload to the watcher (identified by the node's id). */
  method Watch(rt: Runtime, ev: Event) returns (w: nat)
    requires rt.Valid() && ev.node < |rt.nodes|
    modifies rt
    ensures rt.Valid() && w == |old(rt.nodes)|
    ensures rt.nodes == AppendEdges(old(rt.nodes), [ev.node], w)
                        + [Node(w, ev.name + ":watch", Regular, Effect, [], [Observe(w)])]
    ensures rt.states == old(rt.states) && rt.log == old(rt.log)
  {
    w := rt.CreateNode(ev.name + ":watch", Regular, Effect, [ev.node], [Observe(|rt.nodes|)], []);
  }

  /** `map`: a derived event fed by a pure node computing `f`. */
  method Map(rt: Runtime, ev: Event, name: Option<string>, f: Value -> Value) returns (mapped: Event)
    requires rt.Valid() && ev.node < |rt.nodes|
    modifies rt
    ensures rt.Valid()
    ensures var n := |old(rt.nodes)|; var nodeName := name.GetOr(ev.name + ":map");
            mapped == Event(n, nodeName, true)
            && rt.nodes == AppendEdges(old(rt.nodes) + [EventNode(n, nodeName)], [ev.node], n + 1)
                           + [Node(n + 1, nodeName, Regular, Pure, [n], [Compute(f)])]
    ensures rt.states == old(rt.states) && rt.log == old(rt.log)
  {
    var nodeName := name.GetOr(ev.name + ":map");
    mapped := NewEvent(rt, nodeName, true);
    var _ := rt.CreateNode(nodeName, Regular, Pure, [ev.node], [Compute(f)], [mapped.node]);
  }

  /** `prepend`: a new, callable event whose payloads are mapped by `f`
      into this one through a child-priority node. */
  method Prepend(rt: Runtime, ev: Event, name: Option<string>, f: Value -> Value) returns (before: Event)
    requires rt.Valid() && ev.node < |rt.nodes|
    modifies rt
    ensures rt.Valid()
    ensures var n := |old(rt.nodes)|; var nodeName := name.GetOr(ev.name + ":prepend");
            before == Event(n, nodeName, false)
            && rt.nodes == AppendEdges(old(rt.nodes) + [EventNode(n, nodeName)], [n], n + 1)
                           + [Node(n + 1, nodeName, Regular, Child, [ev.node], [Compute(f)])]
    ensures rt.states == old(rt.states) && rt.log == old(rt.log)
  {
    var nodeName := name.GetOr(ev.name + ":prepend");
    before := NewEvent(rt, nodeName, false);
    var _ := rt.CreateNode(nodeName, Regular, Child, [before.node], [Compute(f)], [ev.node]);
  }

  /** `filter`: a derived event fed by a pure node with one filter step. */
  method Filter(rt: Runtime, ev: Event, name: Option<string>, p: Value -> bool) returns (filtered: Event)
    requires rt.Valid() && ev.node < |rt.nodes|
    modifies rt
    ensures rt.Valid()
    ensures var n := |old(rt.nodes)|; var nodeName := name.GetOr(ev.name + ":filter");
            filtered == Event(n, nodeName, true)
            && rt.nodes == AppendEdges(old(rt.nodes) + [EventNode(n, nodeName)], [ev.node], n + 1)
                           + [Node(n + 1, nodeName, Regular, Pure, [n], [Step.Filter(p)])]
    ensures rt.states == old(rt.states) && rt.log == old(rt.log)
  {
    var nodeName := name.GetOr(ev.name + ":filter");
    filtered := NewEvent(rt, nodeName, true);
    var _ := rt.CreateNode(nodeName, Regular, Pure, [ev.node], [Step.Filter(p)], [filtered.node]);
  }

  /** The three steps of `filterMap`: apply `f`, drop nil, unwrap. An
      optional's wrapped value stands for itself, so unwrapping is the
      identity on the values that get through. */
  function FilterMapSteps(f: Value -> Value): seq<Step> {
    [Compute(f), Step.Filter(x => x != Nil), Compute(x => x)]
  }

  /** `filterMap`: a derived event fed by a pure node running
      `FilterMapSteps(f)`. */
  method FilterMap(rt: Runtime, ev: Event, name: Option<string>, f: Value -> Value) returns (mapped: Event)
    requires rt.Valid() && ev.node < |rt.nodes|
    modifies rt
    ensures rt.Valid()
    ensures var n := |old(rt.nodes)|; var nodeName := name.GetOr(ev.name + ":filterMap");
            mapped == Event(n, nodeName, true)
            && rt.nodes == AppendEdges(old(rt.nodes) + [EventNode(n, nodeName)], [ev.node], n + 1)
                           + [Node(n + 1, nodeName, Regular, Pure, [n], FilterMapSteps(f))]
    ensures rt.states == old(rt.states) && rt.log == old(rt.log)
  {
    var nodeName := name.GetOr(ev.name + ":filterMap");
    mapped := NewEvent(rt, nodeName, true);
    var _ := rt.CreateNode(nodeName, Regular, Pure, [ev.node], FilterMapSteps(f), [mapped.node]);
  }

  // Payload-level behaviour of the operator nodes.

  function MapAll(f: Value -> Value, ps: seq<Value>): (r: seq<Value>)
    ensures |r| == |ps| && forall i :: 0 <= i < |ps| ==> r[i] == f(ps[i])
  {
    seq(|ps|, i requires 0 <= i < |ps| => f(ps[i]))
  }

  /** The payloads that satisfy `p`, in their order: a subsequence of
      `ps` holding every satisfying payload as often as `ps` does and no
      other. */
  function Keep(p: Value -> bool, ps: seq<Value>): (r: seq<Value>)
    ensures |r| <= |ps|
    ensures forall i :: 0 <= i < |r| ==> p(r[i]) && r[i] in ps
    ensures forall x :: multiset(r)[x] == if p(x) then multiset(ps)[x] else 0
  {
    if ps == [] then []
    else
      assert ps == [ps[0]] + ps[1..];
      var rest := Keep(p, ps[1..]);
      assert multiset(ps) == multiset{ps[0]} + multiset(ps[1..]);
      (if p(ps[0]) then [ps[0]] else []) + rest
  }

  /** A map node emits `f(p)` for every payload `p`, in order. */
  lemma {:induction false} MapEmitsAll(f: Value -> Value, ps: seq<Value>, states: seq<Value>)
    ensures Emitted([Compute(f)], ps, states) == MapAll(f, ps)
    decreases |ps|
  {
    if ps != [] {
      SingleStep(Compute(f), ps[0], states, []);
      MapEmitsAll(f, ps[1..], states);
      assert MapAll(f, ps) == [f(ps[0])] + MapAll(f, ps[1..]);
    }
  }

  /** A filter node emits exactly the payloads that satisfy `p`, in order. */
  lemma {:induction false} FilterKeepsSatisfying(p: Value -> bool, ps: seq<Value>, states: seq<Value>)
    ensures Emitted([Step.Filter(p)], ps, states) == Keep(p, ps)
    decreases |ps|
  {
    if ps != [] {
      SingleStep(Step.Filter(p), ps[0], states, []);
      FilterKeepsSatisfying(p, ps[1..], states);
    }
  }

  /** A filterMap node drops the payloads `f` maps to nil and emits the
      other results, in order. */
  lemma {:induction false} FilterMapDropsNil(f: Value -> Value, ps: seq<Value>, states: seq<Value>)
    ensures Emitted(FilterMapSteps(f), ps, states) == Keep(x => x != Nil, MapAll(f, ps))
    decreases |ps|
  {
    if ps != [] {
      FilterMapDropsNil(f, ps[1..], states);
      assert MapAll(f, ps)[1..] == MapAll(f, ps[1..]);
      FilterMapRun(f, ps[0], states, []);
    }
  }

  /** One payload through the filterMap steps. */
  lemma FilterMapRun(f: Value -> Value, p: Value, states: seq<Value>, log: seq<Kernel.Signal>)
    ensures RunSteps(FilterMapSteps(f), p, states, log) == Outcome(f(p) != Nil, f(p), states, log)
  {
    var steps := FilterMapSteps(f);
    assert steps[1..] == [Step.Filter(x => x != Nil), Compute(x => x)];
    assert steps[1..][1..] == [Compute((x: Value) => x)];
    assert steps[1..][1..][1..] == [];
    var v := f(p);
    assert RunSteps(steps[1..][1..], v, states, log) == Outcome(true, v, states, log);
    assert RunSteps(steps[1..], v, states, log) == Outcome(v != Nil, v, states, log);
  }

  /** A run from a prepended event `a`: its prepend node `p` applies `f`
      and hands the result to the original event `t`, whose watcher logs
      `f(b)`; no cell changes. */
  lemma PrependRun(nodes: seq<Node>, a: nat, p: nat, t: nat, w: nat, f: Value -> Value, b: Value,
                   trace: seq<WorkQueue.Entry>, states: seq<Value>, log: seq<Kernel.Signal>)
    requires GraphFits(nodes, |states|) && a < |nodes| && p < |nodes| && t < |nodes| && w < |nodes|
    requires nodes[a].steps == [] && nodes[a].next == [p]
    requires nodes[p].steps == [Compute(f)] && nodes[p].next == [t]
    requires nodes[t].steps == [] && nodes[t].next == [w]
    requires nodes[w].steps == [Observe(w)] && nodes[w].next == []
    requires Schedule(nodes, multiset{WorkQueue.Entry(a, nodes[a].priority, b)}, trace, states, log, multiset{})
    ensures IdsIn(trace, |nodes|)
    ensures Replay(nodes, trace, states, log) == (states, log + [Kernel.Watched(w, f(b))])
  {
    EmptyPipelineForwards(b, states, log);
    SingleStep(Compute(f), b, states, log);
    EmptyPipelineForwards(f(b), states, log);
    ScheduleChain(nodes, a, p, b, trace, states, log);
    ScheduleChain(nodes, p, t, b, trace[1..], states, log);
    ScheduleChain(nodes, t, w, f(b), trace[1..][1..], states, log);
    ScheduleLast(nodes, w, f(b), trace[1..][1..][1..], states, log);
    WatchReceives(w, f(b), states, log);
  }

  /** A watcher node records every payload it receives. */
  lemma WatchReceives(w: nat, p: Value, states: seq<Value>, log: seq<Kernel.Signal>)
    ensures RunSteps([Observe(w)], p, states, log) == Outcome(true, Void, states, log + [Kernel.Watched(w, p)])
  {
    assert [Observe(w)][1..] == [];
  }
}
