// attach (Effector/Attach.swift): a derived effect whose handler is built
// from another effect's handler, as it is when attach is called, and/or
// from a store's state, as it is when the handler is called.

module Attaching {
  import opened Values
  import opened Nodes
  import opened Optional
  import opened Kernel
  import opened Stores
  import opened Effects

  /** The state of cell `cell` among the store cells of the moment. */
  function StateAt(states: seq<Value>, cell: nat): Value {
    if cell < |states| then states[cell] else Void
  }

  /** The handler of `attach(effect:mapping:)`: the captured handler `h` on
      the mapped params. */
  function Mapped(h: Handler, mapping: Value -> Value): Handler {
    (states: seq<Value>, p: Value) => h(states, mapping(p))
  }

  /** The identity mapping `{ $0 }`. */
  function Same(v: Value): Value {
    v
  }

  /** The handler of `attach(store:effect:)`: `fn` on the store's state at
      the time of the call and the params. */
  function WithState(cell: nat, fn: (Value, Value) -> Completion): Handler {
    (states: seq<Value>, p: Value) => fn(StateAt(states, cell), p)
  }

  /** The handler of `attach(store:mapping:effect:)`: the captured handler on
      `mapping(state, params)`, the state read at the time of the call. */
  function WithStateMapped(cell: nat, mapping: (Value, Value) -> Value, h: Handler): Handler {
    (states: seq<Value>, p: Value) => h(states, mapping(StateAt(states, cell), p))
  }

  /** `attach(name:effect:mapping:)`: a derived effect named `attach` unless a
      name is given, running the handler `fx` has NOW on mapped params. */
  method Attach(rt: Runtime, name: Option<string>, fx: EffectUnit, mapping: Value -> Value) returns (attached: EffectUnit)
    requires rt.Valid()
    modifies rt
    ensures rt.Valid() && attached.In(rt) && fresh(attached)
    ensures var n := |old(rt.nodes)|; var c := |old(rt.states)|;
            && attached.node == n && attached.name == name.GetOr("attach") && attached.isDerived
            && rt.nodes == old(rt.nodes) + EffectNodes(n, c, attached.name)
            && rt.states == old(rt.states) + [Num(0), Flag(false)]
            && rt.log == old(rt.log)
    ensures attached.GetCurrent() == Mapped(fx.GetCurrent(), mapping)
  {
    var handler := fx.GetCurrent();
    attached := new EffectUnit(rt, name.GetOr("attach"), true, Mapped(handler, mapping));
  }

  /** `attach(name:effect:)`: the identity mapping. The source passes only
      the effect on, so the name given is dropped and the effect is always
      named `attach`. */
  method AttachSame(rt: Runtime, name: Option<string>, fx: EffectUnit) returns (attached: EffectUnit)
    requires rt.Valid()
    modifies rt
    ensures rt.Valid() && attached.In(rt) && fresh(attached)
    ensures var n := |old(rt.nodes)|; var c := |old(rt.states)|;
            && attached.node == n && attached.name == "attach" && attached.isDerived
            && rt.nodes == old(rt.nodes) + EffectNodes(n, c, "attach")
            && rt.states == old(rt.states) + [Num(0), Flag(false)]
            && rt.log == old(rt.log)
    ensures attached.GetCurrent() == Mapped(fx.GetCurrent(), Same)
    ensures forall states, p :: attached.GetCurrent()(states, p) == fx.GetCurrent()(states, p)
  {
    attached := Attach(rt, None, fx, Same);
    forall states, p ensures attached.GetCurrent()(states, p) == fx.GetCurrent()(states, p) {
      assert Same(p) == p;
    }
  }

  /** `attach(name:store:effect:)`: a derived effect whose handler reads
      the store's state when it is called. */
  method AttachStore(rt: Runtime, name: Option<string>, st: Store, fn: (Value, Value) -> Completion) returns (fx: EffectUnit)
    requires rt.Valid()
    modifies rt
    ensures rt.Valid() && fx.In(rt) && fresh(fx)
    ensures var n := |old(rt.nodes)|; var c := |old(rt.states)|;
            && fx.node == n && fx.name == name.GetOr("attach") && fx.isDerived
            && rt.nodes == old(rt.nodes) + EffectNodes(n, c, fx.name)
            && rt.states == old(rt.states) + [Num(0), Flag(false)]
            && rt.log == old(rt.log)
    ensures fx.GetCurrent() == WithState(st.cell, fn)
  {
    fx := new EffectUnit(rt, name.GetOr("attach"), true, WithState(st.cell, fn));
  }

  /** `attach(name:store:mapping:effect:)`: the handler `effect` has now, on
      params mapped together with the store's state at call time. */
  method AttachStoreMapped(rt: Runtime, name: Option<string>, st: Store, mapping: (Value, Value) -> Value, effect: EffectUnit)
    returns (fx: EffectUnit)
    requires rt.Valid()
    modifies rt
    ensures rt.Valid() && fx.In(rt) && fresh(fx)
    ensures var n := |old(rt.nodes)|; var c := |old(rt.states)|;
            && fx.node == n && fx.name == name.GetOr("attach") && fx.isDerived
            && rt.nodes == old(rt.nodes) + EffectNodes(n, c, fx.name)
            && rt.states == old(rt.states) + [Num(0), Flag(false)]
            && rt.log == old(rt.log)
    ensures fx.GetCurrent() == WithStateMapped(st.cell, mapping, effect.GetCurrent())
  {
    var effectFn := effect.GetCurrent();
    fx := new EffectUnit(rt, name.GetOr("attach"), true, WithStateMapped(st.cell, mapping, effectFn));
  }

  /** The handler is captured when attach is called: a later `use` on the
      original effect changes the original only. */
  method UseAfterAttach(rt: Runtime, first: Handler, later: Handler, mapping: Value -> Value)
    returns (fx: EffectUnit, attached: EffectUnit)
    requires rt.Valid()
    modifies rt
    ensures fx.GetCurrent() == later
    ensures attached.GetCurrent() == Mapped(first, mapping)
  {
    fx := new EffectUnit(rt, "fx", false, first);
    attached := Attach(rt, None, fx, mapping);
    fx.Use(later);
  }

  /** Attaching to an attached effect maps the params through both
      mappings, the outer one first, and runs the handler the origin had
      when the first attach was made. */
  method AttachTwice(rt: Runtime, fx: EffectUnit, inner: Value -> Value, outer: Value -> Value)
    returns (once: EffectUnit, twice: EffectUnit)
    requires rt.Valid()
    modifies rt
    ensures rt.Valid() && twice.In(rt)
    ensures forall states, p :: twice.GetCurrent()(states, p) == old(fx.GetCurrent())(states, inner(outer(p)))
  {
    once := Attach(rt, None, fx, inner);
    twice := Attach(rt, None, once, outer);
  }

  /** `testAttachWithMappedParams`: an effect returning its params,
      attached with `{ $0 + 10 }`, resolves to 11 when called with 1. */
  method MappedParamsScenario() returns (got: Completion)
    ensures got == Resolved(Num(11))
  {
    var rt := new Runtime();
    var identity := (states: seq<Value>, p: Value) => Resolved(p);
    var fx := new EffectUnit(rt, "effect", false, identity);
    var attached := Attach(rt, None, fx, PlusTen);
    assert attached.GetCurrent() == Mapped(identity, PlusTen);
    assert PlusTen(Num(1)) == Num(11);
    got := attached.GetCurrent()(rt.states, Num(1));
  }

  /** `{ $0 + 10 }`. */
  function PlusTen(v: Value): Value {
    Num(AsInt(v) + 10)
  }

  /** The store overloads read the state the store holds when the handler
      is called, not the one it held at attach time: after the store took
      `v`, the handler sees `v`. */
  lemma StoreReadAtCall(cell: nat, fn: (Value, Value) -> Completion, mapping: (Value, Value) -> Value, h: Handler,
                        states: seq<Value>, v: Value, p: Value)
    requires cell < |states|
    ensures WithState(cell, fn)(states[cell := v], p) == fn(v, p)
    ensures WithStateMapped(cell, mapping, h)(states[cell := v], p) == h(states[cell := v], mapping(v, p))
  {
    assert StateAt(states[cell := v], cell) == v;
  }

  /** The completion that `Settle` launches `finally` with, for an
      attached effect: after the store took `v`, it is the captured
      handler's outcome on `mapping(v, params)`. */
  lemma AttachedSettles(cell: nat, mapping: (Value, Value) -> Value, h: Handler, states: seq<Value>, v: Value, params: Value)
    requires cell < |states|
    ensures var r := Finally(params, WithStateMapped(cell, mapping, h)(states[cell := v], params));
            var o := h(states[cell := v], mapping(v, params));
            (o.Resolved? ==> r == Done(params, o.result)) && (o.Rejected? ==> r == Fail(params, o.error))
  {
    StoreReadAtCall(cell, (s: Value, q: Value) => Resolved(s), mapping, h, states, v, params);
  }

  /** The nodes of an attached effect only lead to each other: nothing the
      new effect runs reaches the nodes of the effect it was attached to. */
  lemma {:induction false} AttachedIsolated(n: nat, c: nat, name: string)
    ensures |EffectNodes(n, c, name)| == 20
    ensures var g := EffectNodes(n, c, name);
            forall i, k :: 0 <= i < |g| && 0 <= k < |g[i].next| ==> n <= g[i].next[k] < n + 20
  {
    var g := EffectNodes(n, c, name);
    assert |g| == 20;
    forall i, k | 0 <= i < |g| && 0 <= k < |g[i].next| ensures n <= g[i].next[k] < n + 20 {
      assert i < 20;
    }
  }
}
