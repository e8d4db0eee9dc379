// `merge` (Effector/Merge.swift): a derived event fed by one step-less,
// effect-priority node that every operand event feeds.

module Merging {
  import opened Values
  import opened Nodes
  import opened Kernel
  import opened Events

  function EventIds(events: seq<Event>): (r: seq<nat>)
    ensures |r| == |events| && forall i :: 0 <= i < |events| ==> r[i] == events[i].node
  {
    seq(|events|, i requires 0 <= i < |events| => events[i].node)
  }

  /** `merge(events...)`. */
  method Merge(rt: Runtime, events: seq<Event>) returns (merged: Event)
    requires rt.Valid() && forall i :: 0 <= i < |events| ==> events[i].node < |rt.nodes|
    modifies rt
    ensures rt.Valid()
    ensures var n := |old(rt.nodes)|;
            merged == Event(n, "merge", true)
            && rt.nodes == AppendEdges(old(rt.nodes) + [EventNode(n, "merge")], EventIds(events), n + 1)
                           + [Node(n + 1, "merge", EventKind, Effect, [n], [])]
    ensures rt.states == old(rt.states) && rt.log == old(rt.log)
  {
    merged := NewEvent(rt, "merge", true);
    var _ := rt.CreateNode("merge", EventKind, Effect, EventIds(events), [], [merged.node]);
  }

  /** A run from an operand that feeds only the merge node: the step-less
      operand, merge node and merged event hand the payload on unchanged,
      and a watcher of the merged event logs it; no cell changes. */
  lemma MergeRun(nodes: seq<Node>, a: nat, m: nat, t: nat, w: nat, v: Value, trace: seq<WorkQueue.Entry>,
                 states: seq<Value>, log: seq<Signal>)
    requires GraphFits(nodes, |states|) && a < |nodes| && m < |nodes| && t < |nodes| && w < |nodes|
    requires nodes[a].steps == [] && nodes[a].next == [m]
    requires nodes[m].steps == [] && nodes[m].next == [t]
    requires nodes[t].steps == [] && nodes[t].next == [w]
    requires nodes[w].steps == [Observe(w)] && nodes[w].next == []
    requires Schedule(nodes, multiset{WorkQueue.Entry(a, nodes[a].priority, v)}, trace, states, log, multiset{})
    ensures IdsIn(trace, |nodes|)
    ensures Replay(nodes, trace, states, log) == (states, log + [Watched(w, v)])
  {
    EmptyPipelineForwards(v, states, log);
    ScheduleChain(nodes, a, m, v, trace, states, log);
    ScheduleChain(nodes, m, t, v, trace[1..], states, log);
    ScheduleChain(nodes, t, w, v, trace[1..][1..], states, log);
    ScheduleLast(nodes, w, v, trace[1..][1..][1..], states, log);
    WatchReceives(w, v, states, log);
  }

  // `testTwoEvents`, without the store that also sums the merged payloads:
  // the watcher of `merge(event1, event2)` sees 1 and then 2.

  /** `event1(1)` and then `event2(2)` both reach the merged event's
      watcher, in that order. */
  method MergeScenario(fuel: nat) returns (first: bool, second: bool, log: seq<Signal>)
    ensures first && second ==> log == [Watched(4, Num(1)), Watched(4, Num(2))]
  {
    var rt, event1, event2 := BuildMergeScenario();
    ghost var nodes := rt.nodes;
    ghost var trace;
    first, trace := Run(rt, event1, Num(1), fuel);
    if first {
      MergeScenarioRun(nodes, 0, Num(1), trace, []);
      assert [] + [Watched(4, Num(1))] == [Watched(4, Num(1))];
      second, trace := Run(rt, event2, Num(2), fuel);
      if second {
        MergeScenarioRun(nodes, 1, Num(2), trace, [Watched(4, Num(1))]);
      }
    } else {
      second := false;
    }
    log := rt.log;
  }

  function MergeScenarioNodes(): seq<Node> {
    [Node(0, "event", EventKind, Child, [3], []), Node(1, "event", EventKind, Child, [3], []),
     Node(2, "merge", EventKind, Child, [4], []), Node(3, "merge", EventKind, Effect, [2], []),
     Node(4, "merge" + ":watch", Regular, Effect, [], [Observe(4)])]
  }

  /** Two events at nodes 0 and 1, merged into the event at node 2 by the
      merge node 3, and a watcher of the merged event at node 4. */
  method BuildMergeScenario() returns (rt: Runtime, event1: Event, event2: Event)
    ensures fresh(rt) && fresh(rt.queue) && rt.Valid() && rt.queue.Contents() == multiset{}
    ensures rt.nodes == MergeScenarioNodes() && rt.states == [] && rt.log == []
    ensures event1 == Event(0, "event", false) && event2 == Event(1, "event", false)
  {
    var merged;
    rt, event1, event2, merged := BuildMergedEvents();
    var w := Watch(rt, merged);
    MergeScenarioWatched();
  }

  /** `merge(event1, event2)` on a fresh runtime. */
  method BuildMergedEvents() returns (rt: Runtime, event1: Event, event2: Event, merged: Event)
    ensures fresh(rt) && fresh(rt.queue) && rt.Valid() && rt.queue.Contents() == multiset{}
    ensures rt.nodes == MergeScenarioBase() && rt.states == [] && rt.log == []
    ensures event1 == Event(0, "event", false) && event2 == Event(1, "event", false)
    ensures merged == Event(2, "merge", true)
  {
    rt := new Runtime();
    assert rt.queue.Contents() == multiset{};
    event1 := NewEvent(rt, "event", false);
    event2 := NewEvent(rt, "event", false);
    merged := Merge(rt, [event1, event2]);
    assert EventIds([event1, event2]) == [0, 1];
    MergeScenarioMerged();
  }

  /** The graph after `merge(event1, event2)`. */
  function MergeScenarioBase(): seq<Node> {
    [Node(0, "event", EventKind, Child, [3], []), Node(1, "event", EventKind, Child, [3], []),
     Node(2, "merge", EventKind, Child, [], []), Node(3, "merge", EventKind, Effect, [2], [])]
  }

  lemma MergeScenarioMerged()
    ensures AppendEdges([EventNode(0, "event"), EventNode(1, "event")] + [EventNode(2, "merge")], [0, 1], 3)
            + [Node(3, "merge", EventKind, Effect, [2], [])] == MergeScenarioBase()
  {
    var r := AppendEdges([EventNode(0, "event"), EventNode(1, "event")] + [EventNode(2, "merge")], [0, 1], 3);
    assert Occurrences([0, 1], 0) == 1 && Occurrences([0, 1], 1) == 1 && Occurrences([0, 1], 2) == 0;
    assert Repeat(3, 1) == [3] && Repeat(3, 0) == [];
    assert r[0] == Node(0, "event", EventKind, Child, [3], []);
    assert r[1] == Node(1, "event", EventKind, Child, [3], []);
    assert r[2] == Node(2, "merge", EventKind, Child, [], []);
  }

  lemma MergeScenarioWatched()
    ensures AppendEdges(MergeScenarioBase(), [2], 4) + [Node(4, "merge" + ":watch", Regular, Effect, [], [Observe(4)])]
            == MergeScenarioNodes()
  {
    var g := MergeScenarioBase();
    var r := AppendEdges(g, [2], 4);
    assert Occurrences([2], 2) == 1 && Repeat(4, 1) == [4] && Repeat(4, 0) == [];
    assert Occurrences([2], 0) == 0 && Occurrences([2], 1) == 0 && Occurrences([2], 3) == 0;
    assert r[0] == g[0] && r[1] == g[1] && r[3] == g[3];
    assert r[2] == Node(2, "merge", EventKind, Child, [4], []);
  }

  /** A run from either event of `testTwoEvents` appends one watch signal
      for its payload and changes nothing else. */
  lemma MergeScenarioRun(nodes: seq<Node>, a: nat, v: Value, trace: seq<WorkQueue.Entry>, log: seq<Signal>)
    requires nodes == MergeScenarioNodes() && GraphFits(nodes, 0) && a <= 1
    requires Schedule(nodes, multiset{} + multiset{WorkQueue.Entry(a, nodes[a].priority, v)}, trace, [], log, multiset{})
    ensures IdsIn(trace, |nodes|) && Replay(nodes, trace, [], log) == ([], log + [Watched(4, v)])
  {
    AddToNone(WorkQueue.Entry(a, Child, v));
    MergeRun(nodes, a, 3, 2, 4, v, trace, [], log);
  }
}
