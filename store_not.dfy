// `Store<Bool>.not` (Effector/Store+not.swift): `map { !$0 }`.

module Negation {
  import opened Values
  import opened Nodes
  import opened Optional
  import opened Kernel
  import opened Stores

  function Negate(v: Value): (r: Value)
    ensures r.Flag? && (v.Flag? ==> r.b == !v.b)
  {
    Flag(!AsBool(v))
  }

  /** `not()`: a derived store seeded with the negated state, fed at pure
      priority from this store. */
  method Not(rt: Runtime, st: Store) returns (negated: Store)
    requires rt.Valid() && Fits(st, |rt.nodes|, |rt.states|)
    modifies rt
    ensures rt.Valid()
    ensures var n := |old(rt.nodes)|; var c := |old(rt.states)|;
            var nodeName := st.name + ":map";
            negated == Store(n + 2, c, nodeName, Negate(old(rt.states)[st.cell]), true,
                             Events.Event(n, nodeName + ":updates", true), Events.Event(n + 1, nodeName + ":reinit", true))
            && rt.states == old(rt.states) + [Negate(old(rt.states)[st.cell])]
            && rt.nodes == AppendEdges(old(rt.nodes) + StoreNodes(n, nodeName, c), [st.node], n + 3)
                           + [Node(n + 3, nodeName, Regular, Pure, [n + 2], [Compute(Negate)])]
    ensures rt.log == old(rt.log)
  {
    negated := Map(rt, st, None, Negate);
  }

  /** After the source accepts `b`, the negated store holds `!b`. */
  lemma {:induction false} NotFollows(src: nat, dst: nat, b: bool, states: seq<Value>, log: seq<Signal>)
    requires src < |states| && dst < |states| && src != dst
    requires states[src] != Flag(b)
    ensures StepsFit(StoreSteps(src), |states|) && StepsFit([Compute(Negate)], |states|)
    ensures var a := RunSteps(StoreSteps(src), Flag(b), states, log);
            var m := RunSteps([Compute(Negate)], a.value, a.states, a.log);
            var d := RunSteps(StoreSteps(dst), m.value, m.states, m.log);
            d.states[src] == Flag(b) && d.states[dst] == Flag(!b)
  {
    MappedStoreFollows(src, dst, Negate, Flag(b), states, log);
  }
}
