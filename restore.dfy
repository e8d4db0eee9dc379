// `restore` (Effector/Restore.swift): a store named `<event>:restore`
// that takes every payload of the event as its state.

module Restoring {
  import opened Values
  import opened Nodes
  import opened Optional
  import opened Kernel
  import opened Events
  import opened Stores

  /** The reducer `{ _, payload in payload }`. */
  function TakePayload(state: Value, payload: Value): Value {
    payload
  }

  /** `restore(event, initial)`; `restore(event)` is this with `Nil`. */
  method Restore(rt: Runtime, ev: Event, initial: Value) returns (st: Store)
    requires rt.Valid() && ev.node < |rt.nodes|
    modifies rt
    ensures rt.Valid()
    ensures var n := |old(rt.nodes)|; var c := |old(rt.states)|; var name := ev.name + ":restore";
            && st == Store(n + 2, c, name, initial, false,
                           Event(n, name + ":updates", true), Event(n + 1, name + ":reinit", true))
            && rt.states == old(rt.states) + [initial]
            && rt.nodes == AppendEdges(old(rt.nodes) + StoreInitNodes(n, name, c, initial, false), [ev.node], n + 4)
                           + [OnNode(n + 4, name + ":on", c, TakePayload, n + 2)]
    ensures rt.log == old(rt.log)
  {
    st := NewStore(rt, ev.name + ":restore", initial, false);
    On(rt, st, None, [ev.node], TakePayload);
  }

  method RestoreOptional(rt: Runtime, ev: Event) returns (st: Store)
    requires rt.Valid() && ev.node < |rt.nodes|
    modifies rt
    ensures rt.Valid()
    ensures st.defaultState == Nil && !st.isDerived && st.name == ev.name + ":restore"
    ensures st.cell == |old(rt.states)| && rt.states == old(rt.states) + [Nil]
  {
    st := Restore(rt, ev, Nil);
  }

  /** After the event fired with `ps`, the restored store holds the last
      payload, and no other cell changed. */
  lemma {:induction false} RestoreHoldsLast(c: nat, ps: seq<Value>, states: seq<Value>)
    requires c < |states| && ps != []
    ensures OnChain(c, TakePayload, ps, states) == states[c := ps[|ps| - 1]]
    decreases |ps|
  {
    DeliverWrites(c, TakePayload, ps[0], states);
    var next := states[c := ps[0]];
    if |ps| == 1 {
      assert ps[1..] == [];
    } else {
      RestoreHoldsLast(c, ps[1..], next);
      assert ps[1..][|ps[1..]| - 1] == ps[|ps| - 1];
      assert next[c := ps[|ps| - 1]] == states[c := ps[|ps| - 1]];
    }
  }
}
