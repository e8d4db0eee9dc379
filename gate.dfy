// `Gate` (Effector/Gate.swift): a `state` store (initially nil) and a
// `status` store (initially false), switched by the `open` and `close`
// events.

module Gates {
  import opened Values
  import opened Nodes
  import opened Optional
  import opened Kernel
  import opened Events
  import opened Stores

  datatype Gate = Gate(state: Store, status: Store, open: Event, close: Event)

  function OpenStatus(s: Value, p: Value): Value { Flag(true) }
  function CloseStatus(s: Value, p: Value): Value { Flag(false) }
  function OpenState(s: Value, p: Value): Value { p }
  function CloseState(s: Value, p: Value): Value { Nil }

  /** The ten nodes of the gate's stores and events, from id `n` on,
      before the reducers are wired. */
  function GateUnitNodes(n: nat, c: nat): seq<Node> {
    StoreInitNodes(n, "store", c, Nil, false)
    + StoreInitNodes(n + 4, "store", c + 1, Flag(false), false)
    + [EventNode(n + 8, "event"), EventNode(n + 9, "event")]
  }

  /** The fourteen nodes `Gate.init` creates from id `n` on, with state's
      cell at `c` and status's at `c + 1`: open feeds status's and then
      state's reducer, and so does close. */
  function GateNodes(n: nat, c: nat): seq<Node> {
    var u := GateUnitNodes(n, c);
    u[8 := u[8].(next := [n + 10, n + 12])][9 := u[9].(next := [n + 11, n + 13])]
    + [OnNode(n + 10, "store" + ":on", c + 1, OpenStatus, n + 6),
       OnNode(n + 11, "store" + ":on", c + 1, CloseStatus, n + 6),
       OnNode(n + 12, "store" + ":on", c, OpenState, n + 2),
       OnNode(n + 13, "store" + ":on", c, CloseState, n + 2)]
  }

  /** `n` with `m` appended to its successors. */
  function Link(nodes: seq<Node>, n: nat, m: nat): seq<Node>
    requires n < |nodes|
  {
    nodes[n := nodes[n].(next := nodes[n].next + [m])]
  }

  lemma GateNodesBuilt(base: seq<Node>, n: nat, c: nat)
    requires n == |base|
    ensures var u := base + GateUnitNodes(n, c);
            var s := Link(Link(u, n + 8, n + 10), n + 9, n + 11)
                     + [OnNode(n + 10, "store" + ":on", c + 1, OpenStatus, n + 6),
                        OnNode(n + 11, "store" + ":on", c + 1, CloseStatus, n + 6)];
            Link(Link(s, n + 8, n + 12), n + 9, n + 13)
            + [OnNode(n + 12, "store" + ":on", c, OpenState, n + 2),
               OnNode(n + 13, "store" + ":on", c, CloseState, n + 2)]
            == base + GateNodes(n, c)
  {
    var u := base + GateUnitNodes(n, c);
    var s := Link(Link(u, n + 8, n + 10), n + 9, n + 11)
             + [OnNode(n + 10, "store" + ":on", c + 1, OpenStatus, n + 6),
                OnNode(n + 11, "store" + ":on", c + 1, CloseStatus, n + 6)];
    var r := Link(Link(s, n + 8, n + 12), n + 9, n + 13)
             + [OnNode(n + 12, "store" + ":on", c, OpenState, n + 2),
                OnNode(n + 13, "store" + ":on", c, CloseState, n + 2)];
    var g := base + GateNodes(n, c);
    assert |r| == |g|;
    forall i | 0 <= i < |r| ensures r[i] == g[i] {
      if i >= n {
        assert g[i] == GateNodes(n, c)[i - n];
      }
    }
  }

  /** `store.on(open) { ... }.on(close) { ... }`: two reducer nodes for the
      store, the first fed by `open`, the second by `close`. */
  method OnOpenClose(rt: Runtime, st: Store, open: nat, close: nat, onOpen: (Value, Value) -> Value, onClose: (Value, Value) -> Value)
    requires rt.Valid() && Fits(st, |rt.nodes|, |rt.states|) && !st.isDerived
    requires open < |rt.nodes| && close < |rt.nodes| && open != close
    modifies rt
    ensures rt.Valid()
    ensures var n := |old(rt.nodes)|;
            rt.nodes == Link(Link(old(rt.nodes), open, n), close, n + 1)
                        + [OnNode(n, st.name + ":on", st.cell, onOpen, st.node),
                           OnNode(n + 1, st.name + ":on", st.cell, onClose, st.node)]
    ensures rt.states == old(rt.states) && rt.log == old(rt.log)
  {
    ghost var base := rt.nodes;
    var n := |rt.nodes|;
    On(rt, st, None, [open], onOpen);
    AppendEdgesSingle(base, open, n);
    ghost var mid := rt.nodes;
    On(rt, st, None, [close], onClose);
    AppendEdgesSingle(mid, close, n + 1);
    assert Link(mid, close, n + 1) == Link(Link(base, open, n), close, n + 1)
                                      + [OnNode(n, st.name + ":on", st.cell, onOpen, st.node)];
  }

  /** The stored properties of a gate: state, status, open, close. */
  method GateUnits(rt: Runtime) returns (state: Store, status: Store, open: Event, close: Event)
    requires rt.Valid()
    modifies rt
    ensures rt.Valid()
    ensures var n := |old(rt.nodes)|; var c := |old(rt.states)|;
            && state == Store(n + 2, c, "store", Nil, false,
                              Event(n, "store" + ":updates", true), Event(n + 1, "store" + ":reinit", true))
            && status == Store(n + 6, c + 1, "store", Flag(false), false,
                               Event(n + 4, "store" + ":updates", true), Event(n + 5, "store" + ":reinit", true))
            && open == Event(n + 8, "event", false) && close == Event(n + 9, "event", false)
            && rt.states == old(rt.states) + [Nil, Flag(false)]
            && rt.nodes == old(rt.nodes) + GateUnitNodes(n, c)
    ensures rt.log == old(rt.log)
  {
    var n := |rt.nodes|;
    var c := |rt.states|;
    ghost var base := rt.nodes;
    state := NewStore(rt, "store", Nil, false);
    status := NewStore(rt, "store", Flag(false), false);
    open := NewEvent(rt, "event", false);
    close := NewEvent(rt, "event", false);
    assert rt.nodes == base + StoreInitNodes(n, "store", c, Nil, false)
                       + StoreInitNodes(n + 4, "store", c + 1, Flag(false), false)
                       + [EventNode(n + 8, "event")] + [EventNode(n + 9, "event")];
  }

  /** `Gate.init`: the two stores and two events in declaration order, then
      the reducers of status and of state on open and close. */
  method NewGate(rt: Runtime) returns (g: Gate)
    requires rt.Valid()
    modifies rt
    ensures rt.Valid()
    ensures var n := |old(rt.nodes)|; var c := |old(rt.states)|;
            && g.state == Store(n + 2, c, "store", Nil, false,
                                Event(n, "store" + ":updates", true), Event(n + 1, "store" + ":reinit", true))
            && g.status == Store(n + 6, c + 1, "store", Flag(false), false,
                                 Event(n + 4, "store" + ":updates", true), Event(n + 5, "store" + ":reinit", true))
            && g.open == Event(n + 8, "event", false) && g.close == Event(n + 9, "event", false)
            && rt.states == old(rt.states) + [Nil, Flag(false)]
            && rt.nodes == old(rt.nodes) + GateNodes(n, c)
    ensures rt.log == old(rt.log)
  {
    var n := |rt.nodes|;
    var c := |rt.states|;
    ghost var base := rt.nodes;
    var state, status, open, close := GateUnits(rt);
    OnOpenClose(rt, status, open.node, close.node, OpenStatus, CloseStatus);
    OnOpenClose(rt, state, open.node, close.node, OpenState, CloseState);
    GateNodesBuilt(base, n, c);
    g := Gate(state, status, open, close);
  }

  /** A call of the gate's events. */
  datatype Call = Open(value: Value) | Close

  /** The status and state cells after the calls, one after another: each
      event reaches status's reducer first (lower id), then state's. */
  function After(status: nat, state: nat, calls: seq<Call>, states: seq<Value>): (r: seq<Value>)
    requires status < |states| && state < |states|
    ensures |r| == |states|
    decreases |calls|
  {
    if calls == [] then states
    else
      var next := match calls[0]
        case Open(v) => Deliver(state, OpenState, v, Deliver(status, OpenStatus, v, states))
        case Close => Deliver(state, CloseState, Void, Deliver(status, CloseStatus, Void, states));
      After(status, state, calls[1..], next)
  }

  /** `open(v)` makes status true and state `v`; `close()` makes status
      false and state nil. */
  lemma {:induction false} OneCall(status: nat, state: nat, call: Call, states: seq<Value>)
    requires status < |states| && state < |states| && status != state
    ensures After(status, state, [call], states)
            == states[status := Flag(call.Open?)][state := if call.Open? then call.value else Nil]
  {
    assert [call][1..] == [];
    match call
    case Open(v) =>
      DeliverWrites(status, OpenStatus, v, states);
      DeliverWrites(state, OpenState, v, states[status := Flag(true)]);
    case Close =>
      DeliverWrites(status, CloseStatus, Void, states);
      DeliverWrites(state, CloseState, Void, states[status := Flag(false)]);
  }

  /** After any non-empty run of calls the gate reflects the last one: open
      with the last opened value, or closed with state nil. */
  lemma {:induction false} LastCallWins(status: nat, state: nat, calls: seq<Call>, states: seq<Value>)
    requires status < |states| && state < |states| && status != state
    requires calls != []
    ensures var r := After(status, state, calls, states);
            var last := calls[|calls| - 1];
            r[status] == Flag(last.Open?) && r[state] == (if last.Open? then last.value else Nil)
    decreases |calls|
  {
    OneCall(status, state, calls[0], states);
    assert [calls[0]][1..] == [];
    var next := After(status, state, [calls[0]], states);
    if |calls| > 1 {
      LastCallWins(status, state, calls[1..], next);
      assert calls[1..][|calls[1..]| - 1] == calls[|calls| - 1];
    }
  }
}
