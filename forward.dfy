// `forward` (Effector/Forward.swift): one step-less child-priority node
// from the `from` units to the `to` units.

module Forwarding {
  import opened Values
  import opened Nodes
  import opened Kernel
  import Stores

  /** `forward(from: [Unit], to: [Unit])`. */
  method Forward(rt: Runtime, from: seq<nat>, to: seq<nat>) returns (id: nat)
    requires rt.Valid() && IdsBelow(from, |rt.nodes|) && IdsBelow(to, |rt.nodes|)
    modifies rt
    ensures rt.Valid() && id == |old(rt.nodes)|
    ensures rt.nodes == AppendEdges(old(rt.nodes), from, id) + [Node(id, "forward", Regular, Child, to, [])]
    ensures rt.states == old(rt.states) && rt.log == old(rt.log)
  {
    id := rt.CreateNode("forward", Regular, Child, from, [], to);
  }

  /** The single-unit overloads are the list form on singleton lists. */
  method ForwardUnit(rt: Runtime, from: nat, to: nat) returns (id: nat)
    requires rt.Valid() && from < |rt.nodes| && to < |rt.nodes|
    modifies rt
    ensures rt.Valid() && id == |old(rt.nodes)|
    ensures rt.nodes == AppendEdges(old(rt.nodes), [from], id) + [Node(id, "forward", Regular, Child, [to], [])]
    ensures rt.states == old(rt.states) && rt.log == old(rt.log)
  {
    id := Forward(rt, [from], [to]);
  }

  /** Forwarding into a store delivers each payload to it: the forward
      node passes the payload on unchanged and the store ends holding it. */
  lemma {:induction false} ForwardIntoStore(c: nat, p: Value, states: seq<Value>, log: seq<Signal>)
    requires c < |states|
    ensures var o := RunSteps([], p, states, log);
            o.passed && o.value == p
            && RunSteps(Stores.StoreSteps(c), o.value, o.states, o.log).states == states[c := p]
  {
    EmptyPipelineForwards(p, states, log);
    Stores.StoreHoldsLastWrite(c, p, states, log);
  }
}
