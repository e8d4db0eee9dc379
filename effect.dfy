// Effects (Effector/Effect.swift), synchronous part: the effect-priority
// node whose step hands the params to the handler, the inFlight and pending
// stores, and the finally / done / fail / doneData / failData events. The
// handler's asynchronous completion is a separate call, `Settle`, which
// launches `finally` with the outcome.

module Effects {
  import opened Values
  import opened Nodes
  import opened Optional
  import opened Kernel
  import opened Events
  import opened Stores
  import opened WorkQueue

  /** How the handler finishes: it returns a result or throws. */
  datatype Completion = Resolved(result: Value) | Rejected(error: Value)

  /** `Handler = (Params) async throws -> Done`. A handler may read stores
      when it runs (the store overloads of `attach` do), so it is given the
      store cells at that moment besides the params. */
  type Handler = (seq<Value>, Value) -> Completion

  /** The closure of `done`'s filterMap: the params and result of a
      successful run, nil for a failure. */
  function DoneOf(v: Value): Value {
    if v.Done? then Pair(v.params, v.result) else Nil
  }

  /** The closure of `fail`'s filterMap. */
  function FailOf(v: Value): Value {
    if v.Fail? then Pair(v.params, v.error) else Nil
  }

  /** `$0.1`, as doneData and failData apply it. */
  function Second(v: Value): Value {
    if v.Pair? then v.snd else Void
  }

  /** pending's mapping `$0 > 0`. */
  function Positive(v: Value): Value {
    Flag(AsInt(v) > 0)
  }

  /** inFlight's reducers on a run (`n + 1`) and on finally (`n - 1`). */
  function Increment(n: Value, p: Value): Value {
    Num(AsInt(n) + 1)
  }

  function Decrement(n: Value, p: Value): Value {
    Num(AsInt(n) - 1)
  }

  /** What the finally event carries once the handler completed. */
  function Finally(params: Value, c: Completion): (r: Value)
    ensures r.Done? <==> c.Resolved?
    ensures r.Fail? <==> c.Rejected?
  {
    match c
    case Resolved(d) => Done(params, d)
    case Rejected(e) => Fail(params, e)
  }

  /** The nodes `Effect.init` creates for its own node and the inFlight
      and pending stores, from id `n` on, before inFlight's reducers are
      wired. */
  function StoreGraph(n: nat, c: nat, name: string): seq<Node> {
    var inFlight := name + ":inFlight";
    var pending := name + ":pending";
    [Node(n, name, EffectKind, Effect, [], [Spawn(n)]),
     EventNode(n + 1, inFlight + ":updates"),
     EventNode(n + 2, inFlight + ":reinit").(next := [n + 4]),
     Node(n + 3, inFlight, StoreKind, Child, [n + 1, n + 8], StoreSteps(c)),
     OnNode(n + 4, inFlight + ":reset", c, ResetReducer(Num(0)), n + 3),
     EventNode(n + 5, pending + ":updates"),
     EventNode(n + 6, pending + ":reinit"),
     Node(n + 7, pending, StoreKind, Child, [n + 5], StoreSteps(c + 1)),
     Node(n + 8, pending, Regular, Pure, [n + 7], [Compute(Positive)])]
  }

  /** The finally event from id `m` on and the events derived from it. */
  function FinallyGraph(m: nat, name: string): seq<Node> {
    [EventNode(m, name + ":finally").(next := [m + 2, m + 4]),
     EventNode(m + 1, name + ":done").(next := [m + 6]),
     Node(m + 2, name + ":done", Regular, Pure, [m + 1], FilterMapSteps(DoneOf)),
     EventNode(m + 3, name + ":fail").(next := [m + 8]),
     Node(m + 4, name + ":fail", Regular, Pure, [m + 3], FilterMapSteps(FailOf)),
     EventNode(m + 5, name + ":doneData"),
     Node(m + 6, name + ":doneData", Regular, Pure, [m + 5], [Compute(Second)]),
     EventNode(m + 7, name + ":failData"),
     Node(m + 8, name + ":failData", Regular, Pure, [m + 7], [Compute(Second)])]
  }

  /** The twenty nodes `Effect.init` creates from id `n` on, with the
      inFlight cell at `c` and pending's at `c + 1`, in creation order and
      with their final successor lists: the effect node feeds inFlight's
      increment, finally feeds done, fail and inFlight's decrement. */
  function EffectNodes(n: nat, c: nat, name: string): seq<Node> {
    var stores := StoreGraph(n, c, name);
    var events := FinallyGraph(n + 9, name);
    stores[0 := stores[0].(next := [n + 18])]
    + events[0 := events[0].(next := [n + 11, n + 13, n + 19])]
    + [OnNode(n + 18, (name + ":inFlight") + ":on", c, Increment, n + 3),
       OnNode(n + 19, (name + ":inFlight") + ":on", c, Decrement, n + 3)]
  }

  // The sequences the wiring methods build, step by step, are the graphs
  // above.

  lemma StoreGraphBuilt(n: nat, c: nat, name: string)
    ensures var inFlight := name + ":inFlight"; var pending := name + ":pending";
            var s1 := [Node(n, name, EffectKind, Effect, [], [Spawn(n)])]
                      + StoreInitNodes(n + 1, inFlight, c, Num(0), false);
            var s3 := s1 + StoreNodes(n + 5, pending, c + 1);
            s3[3 := s3[3].(next := s3[3].next + [n + 8])]
            + [Node(n + 8, pending, Regular, Pure, [n + 7], [Compute(Positive)])]
            == StoreGraph(n, c, name)
  {
    var inFlight := name + ":inFlight";
    var pending := name + ":pending";
    var s1 := [Node(n, name, EffectKind, Effect, [], [Spawn(n)])]
              + StoreInitNodes(n + 1, inFlight, c, Num(0), false);
    var s3 := s1 + StoreNodes(n + 5, pending, c + 1);
    var s := s3[3 := s3[3].(next := s3[3].next + [n + 8])]
            + [Node(n + 8, pending, Regular, Pure, [n + 7], [Compute(Positive)])];
    var g := StoreGraph(n, c, name);
    assert |s| == |g|;
    forall i | 0 <= i < |s| ensures s[i] == g[i] { }
  }

  /** finally with done and fail derived from it: the first five nodes of
      `FinallyGraph`, before doneData and failData exist. */
  function OutcomeGraph(m: nat, name: string): seq<Node> {
    [EventNode(m, name + ":finally").(next := [m + 2, m + 4]),
     EventNode(m + 1, name + ":done"),
     Node(m + 2, name + ":done", Regular, Pure, [m + 1], FilterMapSteps(DoneOf)),
     EventNode(m + 3, name + ":fail"),
     Node(m + 4, name + ":fail", Regular, Pure, [m + 3], FilterMapSteps(FailOf))]
  }

  lemma OutcomeGraphBuilt(m: nat, name: string)
    ensures var s1 := [EventNode(m, name + ":finally")];
            var s2 := (s1 + [EventNode(m + 1, name + ":done")])[0 := s1[0].(next := s1[0].next + [m + 2])]
                      + [Node(m + 2, name + ":done", Regular, Pure, [m + 1], FilterMapSteps(DoneOf))];
            (s2 + [EventNode(m + 3, name + ":fail")])[0 := s2[0].(next := s2[0].next + [m + 4])]
            + [Node(m + 4, name + ":fail", Regular, Pure, [m + 3], FilterMapSteps(FailOf))]
            == OutcomeGraph(m, name)
  {
    var s1 := [EventNode(m, name + ":finally")];
    var s2 := (s1 + [EventNode(m + 1, name + ":done")])[0 := s1[0].(next := s1[0].next + [m + 2])]
              + [Node(m + 2, name + ":done", Regular, Pure, [m + 1], FilterMapSteps(DoneOf))];
    var s := (s2 + [EventNode(m + 3, name + ":fail")])[0 := s2[0].(next := s2[0].next + [m + 4])]
             + [Node(m + 4, name + ":fail", Regular, Pure, [m + 3], FilterMapSteps(FailOf))];
    var g := OutcomeGraph(m, name);
    assert |s| == |g|;
    forall i | 0 <= i < |s| ensures s[i] == g[i] { }
  }

  lemma FinallyGraphBuilt(m: nat, name: string)
    ensures var s3 := OutcomeGraph(m, name);
            var s4 := (s3 + [EventNode(m + 5, name + ":doneData")])[1 := s3[1].(next := s3[1].next + [m + 6])]
                      + [Node(m + 6, name + ":doneData", Regular, Pure, [m + 5], [Compute(Second)])];
            (s4 + [EventNode(m + 7, name + ":failData")])[3 := s4[3].(next := s4[3].next + [m + 8])]
            + [Node(m + 8, name + ":failData", Regular, Pure, [m + 7], [Compute(Second)])]
            == FinallyGraph(m, name)
  {
    var s3 := OutcomeGraph(m, name);
    var s4 := (s3 + [EventNode(m + 5, name + ":doneData")])[1 := s3[1].(next := s3[1].next + [m + 6])]
              + [Node(m + 6, name + ":doneData", Regular, Pure, [m + 5], [Compute(Second)])];
    var s := (s4 + [EventNode(m + 7, name + ":failData")])[3 := s4[3].(next := s4[3].next + [m + 8])]
             + [Node(m + 8, name + ":failData", Regular, Pure, [m + 7], [Compute(Second)])];
    var g := FinallyGraph(m, name);
    assert |s| == |g|;
    forall i | 0 <= i < |s| ensures s[i] == g[i] { }
  }

  lemma EffectNodesBuilt(n: nat, c: nat, name: string)
    ensures var s1 := StoreGraph(n, c, name) + FinallyGraph(n + 9, name);
            var s2 := s1[0 := s1[0].(next := s1[0].next + [n + 18])]
                      + [OnNode(n + 18, (name + ":inFlight") + ":on", c, Increment, n + 3)];
            s2[9 := s2[9].(next := s2[9].next + [n + 19])]
            + [OnNode(n + 19, (name + ":inFlight") + ":on", c, Decrement, n + 3)]
            == EffectNodes(n, c, name)
  {
    var s1 := StoreGraph(n, c, name) + FinallyGraph(n + 9, name);
    var s2 := s1[0 := s1[0].(next := s1[0].next + [n + 18])]
                      + [OnNode(n + 18, (name + ":inFlight") + ":on", c, Increment, n + 3)];
    var s := s2[9 := s2[9].(next := s2[9].next + [n + 19])]
            + [OnNode(n + 19, (name + ":inFlight") + ":on", c, Decrement, n + 3)];
    var g := EffectNodes(n, c, name);
    assert |s| == |g|;
    forall i | 0 <= i < |s| ensures s[i] == g[i] { }
  }

  /** The first part of `Effect.init`: the effect's node, inFlight with its
      reset, and pending mapped from inFlight. */
  method WireStores(rt: Runtime, name: string) returns (inFlight: Store, pending: Store)
    requires rt.Valid()
    modifies rt
    ensures rt.Valid()
    ensures var n := |old(rt.nodes)|; var c := |old(rt.states)|;
            && inFlight == Store(n + 3, c, name + ":inFlight", Num(0), false,
                                 Event(n + 1, (name + ":inFlight") + ":updates", true),
                                 Event(n + 2, (name + ":inFlight") + ":reinit", true))
            && pending == Store(n + 7, c + 1, name + ":pending", Flag(false), true,
                                Event(n + 5, (name + ":pending") + ":updates", true),
                                Event(n + 6, (name + ":pending") + ":reinit", true))
            && rt.nodes == old(rt.nodes) + StoreGraph(n, c, name)
            && rt.states == old(rt.states) + [Num(0), Flag(false)]
            && rt.log == old(rt.log)
  {
    var n := |rt.nodes|;
    var c := |rt.states|;
    var inFlightName := name + ":inFlight";
    var pendingName := name + ":pending";
    ghost var base := rt.nodes;
    var _ := rt.NewNode(name, EffectKind, Effect, [], [Spawn(n)]);
    inFlight := NewStore(rt, inFlightName, Num(0), false);
    ghost var s := [Node(n, name, EffectKind, Effect, [], [Spawn(n)])]
                   + StoreInitNodes(n + 1, inFlightName, c, Num(0), false);
    assert base + [s[0]] + StoreInitNodes(n + 1, inFlightName, c, Num(0), false) == base + s;
    assert rt.nodes == base + s;
    pending := Stores.Map(rt, inFlight, Some(pendingName), Positive);
    assert base + s + StoreNodes(n + 5, pendingName, c + 1) == base + (s + StoreNodes(n + 5, pendingName, c + 1));
    s := s + StoreNodes(n + 5, pendingName, c + 1);
    WireOne(base, s, 3, n + 8, Node(n + 8, pendingName, Regular, Pure, [n + 7], [Compute(Positive)]));
    s := s[3 := s[3].(next := s[3].next + [n + 8])] + [Node(n + 8, pendingName, Regular, Pure, [n + 7], [Compute(Positive)])];
    StoreGraphBuilt(n, c, name);
    assert s == StoreGraph(n, c, name);
  }

  /** `filterMap` on an event at position `k` of the nodes `s` appended to
      `base`: the event gains a successor and the derived event and its node
      go at the end. */
  method DeriveFilterMap(rt: Runtime, ev: Event, name: string, f: Value -> Value,
                         ghost base: seq<Node>, ghost s: seq<Node>, ghost k: nat) returns (mapped: Event)
    requires rt.Valid() && rt.nodes == base + s && k < |s| && ev.node == |base| + k
    modifies rt
    ensures rt.Valid()
    ensures var n := |base| + |s|;
            && mapped == Event(n, name, true)
            && rt.nodes == base + ((s + [EventNode(n, name)])[k := s[k].(next := s[k].next + [n + 1])]
                                   + [Node(n + 1, name, Regular, Pure, [n], FilterMapSteps(f))])
    ensures rt.states == old(rt.states) && rt.log == old(rt.log)
  {
    var n := |rt.nodes|;
    mapped := FilterMap(rt, ev, Some(name), f);
    assert base + s + [EventNode(n, name)] == base + (s + [EventNode(n, name)]);
    WireOne(base, s + [EventNode(n, name)], k, n + 1, Node(n + 1, name, Regular, Pure, [n], FilterMapSteps(f)));
  }

  /** `map` on an event at position `k` of the nodes `s` appended to `base`. */
  method DeriveMap(rt: Runtime, ev: Event, name: string, f: Value -> Value,
                   ghost base: seq<Node>, ghost s: seq<Node>, ghost k: nat) returns (mapped: Event)
    requires rt.Valid() && rt.nodes == base + s && k < |s| && ev.node == |base| + k
    modifies rt
    ensures rt.Valid()
    ensures var n := |base| + |s|;
            && mapped == Event(n, name, true)
            && rt.nodes == base + ((s + [EventNode(n, name)])[k := s[k].(next := s[k].next + [n + 1])]
                                   + [Node(n + 1, name, Regular, Pure, [n], [Compute(f)])])
    ensures rt.states == old(rt.states) && rt.log == old(rt.log)
  {
    var n := |rt.nodes|;
    mapped := Events.Map(rt, ev, Some(name), f);
    assert base + s + [EventNode(n, name)] == base + (s + [EventNode(n, name)]);
    WireOne(base, s + [EventNode(n, name)], k, n + 1, Node(n + 1, name, Regular, Pure, [n], [Compute(f)]));
  }

  /** The second part of `Effect.init`, first half: finally, and done and
      fail derived from it. */
  method WireOutcomes(rt: Runtime, name: string) returns (finally: Event, done: Event, fail: Event)
    requires rt.Valid()
    modifies rt
    ensures rt.Valid()
    ensures var m := |old(rt.nodes)|;
            && finally == Event(m, name + ":finally", true)
            && done == Event(m + 1, name + ":done", true)
            && fail == Event(m + 3, name + ":fail", true)
            && rt.nodes == old(rt.nodes) + OutcomeGraph(m, name)
            && rt.states == old(rt.states) && rt.log == old(rt.log)
  {
    var m := |rt.nodes|;
    ghost var base := rt.nodes;
    finally := NewEvent(rt, name + ":finally", true);
    ghost var s := [EventNode(m, name + ":finally")];
    done := DeriveFilterMap(rt, finally, name + ":done", DoneOf, base, s, 0);
    s := (s + [EventNode(m + 1, name + ":done")])[0 := s[0].(next := s[0].next + [m + 2])]
         + [Node(m + 2, name + ":done", Regular, Pure, [m + 1], FilterMapSteps(DoneOf))];
    fail := DeriveFilterMap(rt, finally, name + ":fail", FailOf, base, s, 0);
    s := (s + [EventNode(m + 3, name + ":fail")])[0 := s[0].(next := s[0].next + [m + 4])]
         + [Node(m + 4, name + ":fail", Regular, Pure, [m + 3], FilterMapSteps(FailOf))];
    OutcomeGraphBuilt(m, name);
  }

  /** The second part of `Effect.init`: finally, and done, fail, doneData
      and failData derived from it. */
  method WireEvents(rt: Runtime, name: string) returns (finally: Event, done: Event, fail: Event, doneData: Event, failData: Event)
    requires rt.Valid()
    modifies rt
    ensures rt.Valid()
    ensures var m := |old(rt.nodes)|;
            && finally == Event(m, name + ":finally", true)
            && done == Event(m + 1, name + ":done", true)
            && fail == Event(m + 3, name + ":fail", true)
            && doneData == Event(m + 5, name + ":doneData", true)
            && failData == Event(m + 7, name + ":failData", true)
            && rt.nodes == old(rt.nodes) + FinallyGraph(m, name)
            && rt.states == old(rt.states) && rt.log == old(rt.log)
  {
    var m := |rt.nodes|;
    ghost var base := rt.nodes;
    finally, done, fail := WireOutcomes(rt, name);
    ghost var s := OutcomeGraph(m, name);
    doneData := DeriveMap(rt, done, name + ":doneData", Second, base, s, 1);
    s := (s + [EventNode(m + 5, name + ":doneData")])[1 := s[1].(next := s[1].next + [m + 6])]
         + [Node(m + 6, name + ":doneData", Regular, Pure, [m + 5], [Compute(Second)])];
    failData := DeriveMap(rt, fail, name + ":failData", Second, base, s, 3);
    s := (s + [EventNode(m + 7, name + ":failData")])[3 := s[3].(next := s[3].next + [m + 8])]
         + [Node(m + 8, name + ":failData", Regular, Pure, [m + 7], [Compute(Second)])];
    FinallyGraphBuilt(m, name);
  }

  class EffectUnit {
    const node: nat
    const name: string
    const isDerived: bool
    const inFlight: Store
    const pending: Store
    const finally: Event
    const done: Event
    const fail: Event
    const doneData: Event
    const failData: Event
    var handler: Handler

    /** The effect's units refer to nodes and cells of `rt`. */
    predicate In(rt: Runtime)
      reads rt
    {
      node < |rt.nodes| && finally.node < |rt.nodes| && Fits(inFlight, |rt.nodes|, |rt.states|)
    }

    /** `Effect.init`. */
    constructor (rt: Runtime, name: string, isDerived: bool, handler: Handler)
      requires rt.Valid()
      modifies rt
      ensures rt.Valid() && In(rt)
      ensures var n := |old(rt.nodes)|; var c := |old(rt.states)|;
              && this.node == n && this.name == name && this.isDerived == isDerived
              && this.handler == handler
              && inFlight == Store(n + 3, c, name + ":inFlight", Num(0), false,
                                   Event(n + 1, (name + ":inFlight") + ":updates", true),
                                   Event(n + 2, (name + ":inFlight") + ":reinit", true))
              && pending == Store(n + 7, c + 1, name + ":pending", Flag(false), true,
                                  Event(n + 5, (name + ":pending") + ":updates", true),
                                  Event(n + 6, (name + ":pending") + ":reinit", true))
              && finally == Event(n + 9, name + ":finally", true)
              && done == Event(n + 10, name + ":done", true)
              && fail == Event(n + 12, name + ":fail", true)
              && doneData == Event(n + 14, name + ":doneData", true)
              && failData == Event(n + 16, name + ":failData", true)
              && rt.nodes == old(rt.nodes) + EffectNodes(n, c, name)
              && rt.states == old(rt.states) + [Num(0), Flag(false)]
              && rt.log == old(rt.log)
    {
      var n := |rt.nodes|;
      var c := |rt.states|;
      ghost var base := rt.nodes;
      var inFlightStore, pendingStore := WireStores(rt, name);
      var finallyEvent, doneEvent, failEvent, doneDataEvent, failDataEvent := WireEvents(rt, name);
      ghost var s := StoreGraph(n, c, name) + FinallyGraph(n + 9, name);
      assert base + StoreGraph(n, c, name) + FinallyGraph(n + 9, name) == base + s;
      var last := OnNode(n + 18, (name + ":inFlight") + ":on", c, Increment, n + 3);
      On(rt, inFlightStore, None, [n], Increment);
      WireOne(base, s, 0, n + 18, last);
      s := s[0 := s[0].(next := s[0].next + [n + 18])] + [last];
      var final := OnNode(n + 19, (name + ":inFlight") + ":on", c, Decrement, n + 3);
      On(rt, inFlightStore, None, [n + 9], Decrement);
      WireOne(base, s, 9, n + 19, final);
      s := s[9 := s[9].(next := s[9].next + [n + 19])] + [final];
      EffectNodesBuilt(n, c, name);
      assert s == EffectNodes(n, c, name);
      var id := n;
      this.node := id;
      this.name := name;
      this.isDerived := isDerived;
      this.handler := handler;
      inFlight := inFlightStore;
      pending := pendingStore;
      finally := finallyEvent;
      done := doneEvent;
      fail := failEvent;
      doneData := doneDataEvent;
      failData := failDataEvent;
    }

    /** `run`: launch the effect's node with the params. Its step records
        that the handler was started and passes the params on. */
    method Run(rt: Runtime, params: Value, fuel: nat) returns (drained: bool, ghost trace: seq<WorkQueue.Entry>)
      requires rt.Valid() && In(rt)
      modifies rt, rt.queue
      ensures rt.Valid() && rt.nodes == old(rt.nodes)
      ensures GraphFits(rt.nodes, |old(rt.states)|)
      ensures drained <==> rt.queue.Contents() == multiset{}
      ensures Schedule(rt.nodes, old(rt.queue.Contents()) + multiset{WorkQueue.Entry(node, rt.nodes[node].priority, params)},
                       trace, old(rt.states), old(rt.log), rt.queue.Contents())
      ensures IdsIn(trace, |rt.nodes|)
      ensures (rt.states, rt.log) == Replay(rt.nodes, trace, old(rt.states), old(rt.log))
    {
      drained, trace := rt.Launch(node, params, fuel);
    }

    /** The asynchronous end of a run: the current handler completes on the
        store cells of that moment, and `finally` is launched with
        `.done(params, result)` or `.fail(params, error)`. */
    method Settle(rt: Runtime, params: Value, fuel: nat) returns (drained: bool, ghost trace: seq<WorkQueue.Entry>)
      requires rt.Valid() && In(rt)
      modifies rt, rt.queue
      ensures rt.Valid() && rt.nodes == old(rt.nodes)
      ensures GraphFits(rt.nodes, |old(rt.states)|)
      ensures drained <==> rt.queue.Contents() == multiset{}
      ensures Schedule(rt.nodes, old(rt.queue.Contents()) + multiset{WorkQueue.Entry(finally.node, rt.nodes[finally.node].priority, Finally(params, handler(old(rt.states), params)))},
                       trace, old(rt.states), old(rt.log), rt.queue.Contents())
      ensures IdsIn(trace, |rt.nodes|)
      ensures (rt.states, rt.log) == Replay(rt.nodes, trace, old(rt.states), old(rt.log))
    {
      var outcome := Finally(params, handler(rt.states, params));
      drained, trace := rt.Launch(finally.node, outcome, fuel);
    }

    /** `use`: replace the handler. */
    method Use(fn: Handler)
      modifies this
      ensures GetCurrent() == fn
    {
      handler := fn;
    }

    function GetCurrent(): Handler
      reads this
    {
      handler
    }

    /** `watch`: an effect-priority node after the effect's node, called
        with the params of every run. */
    method Watch(rt: Runtime, name: Option<string>) returns (w: nat)
      requires rt.Valid() && In(rt)
      modifies rt
      ensures rt.Valid() && w == |old(rt.nodes)|
      ensures rt.nodes == AppendEdges(old(rt.nodes), [node], w)
                          + [Node(w, name.GetOr(this.name + ":watch"), Regular, Effect, [], [Observe(w)])]
      ensures rt.states == old(rt.states) && rt.log == old(rt.log)
    {
      var nodeName := name.GetOr(this.name + ":watch");
      w := rt.CreateNode(nodeName, Regular, Effect, [node], [Observe(|rt.nodes|)], []);
    }

    /** `prepend`: a callable event whose payloads, mapped by `f`, run the
        effect, through a child-priority node. */
    method Prepend(rt: Runtime, name: Option<string>, f: Value -> Value) returns (before: Event)
      requires rt.Valid() && In(rt)
      modifies rt
      ensures rt.Valid()
      ensures var n := |old(rt.nodes)|; var nodeName := name.GetOr(this.name + ":prepend");
              before == Event(n, nodeName, false)
              && rt.nodes == AppendEdges(old(rt.nodes) + [EventNode(n, nodeName)], [n], n + 1)
                             + [Node(n + 1, nodeName, Regular, Child, [node], [Compute(f)])]
      ensures rt.states == old(rt.states) && rt.log == old(rt.log)
    {
      before := Events.Prepend(rt, Event(node, this.name, isDerived), name, f);
    }
  }

  // What the effect's nodes do with values.

  /** The effect's node records the start of the handler and passes the
      params on unchanged, to inFlight's increment and to watchers. */
  lemma RunStartsHandler(n: nat, params: Value, states: seq<Value>, log: seq<Signal>)
    ensures RunSteps([Spawn(n)], params, states, log) == Outcome(true, params, states, log + [Started(n, params)])
  {
    SingleStep(Spawn(n), params, states, log);
  }

  /** A run raises inFlight by one, a settled run lowers it by one; the
      count is written whether or not it is hashable-equal, since it
      changes. */
  lemma {:induction false} InFlightCounts(c: nat, k: int, p: Value, states: seq<Value>, log: seq<Signal>)
    requires c < |states| && states[c] == Num(k)
    ensures StepsFit([Reduce(c, Increment)], |states|) && StepsFit([Reduce(c, Decrement)], |states|)
    ensures var o := RunSteps([Reduce(c, Increment)], p, states, log);
            o.passed && o.value == Num(k + 1)
            && RunSteps(StoreSteps(c), o.value, o.states, o.log) == Outcome(true, Num(k + 1), states[c := Num(k + 1)], log)
    ensures var o := RunSteps([Reduce(c, Decrement)], p, states, log);
            o.passed && o.value == Num(k - 1)
            && RunSteps(StoreSteps(c), o.value, o.states, o.log) == Outcome(true, Num(k - 1), states[c := Num(k - 1)], log)
  {
    OnComputes(c, Increment, p, states, log);
    StoreWrite(c, Num(k + 1), states, log);
    OnComputes(c, Decrement, p, states, log);
    StoreWrite(c, Num(k - 1), states, log);
  }

  /** pending follows inFlight: once inFlight took a new count, the chain
      inFlight, pending's map node, pending leaves pending true exactly
      when the count is positive. */
  lemma {:induction false} PendingFollowsInFlight(c: nat, d: nat, k: int, states: seq<Value>, log: seq<Signal>)
    requires c < |states| && d < |states| && c != d
    requires states[c] != Num(k)
    ensures StepsFit(StoreSteps(c), |states|) && StepsFit([Compute(Positive)], |states|)
    ensures var a := RunSteps(StoreSteps(c), Num(k), states, log);
            var b := RunSteps([Compute(Positive)], a.value, a.states, a.log);
            var e := RunSteps(StoreSteps(d), b.value, b.states, b.log);
            e.states[c] == Num(k) && (e.states[d] == Flag(true) <==> k > 0)
  {
    MappedStoreFollows(c, d, Positive, Num(k), states, log);
  }

  /** The finally payload of a completed run reaches exactly one of done
      and fail, as the params paired with the result or the error, and
      doneData / failData carry the result or the error alone. */
  lemma {:induction false} FinallyRoutes(params: Value, c: Completion, states: seq<Value>)
    ensures var v := Finally(params, c);
            var d := RunSteps(FilterMapSteps(DoneOf), v, states, []);
            var f := RunSteps(FilterMapSteps(FailOf), v, states, []);
            && (d.passed <==> c.Resolved?)
            && (f.passed <==> c.Rejected?)
            && (c.Resolved? ==> d.value == Pair(params, c.result)
                                && RunSteps([Compute(Second)], d.value, states, []).value == c.result)
            && (c.Rejected? ==> f.value == Pair(params, c.error)
                                && RunSteps([Compute(Second)], f.value, states, []).value == c.error)
  {
    var v := Finally(params, c);
    FilterMapRun(DoneOf, v, states, []);
    FilterMapRun(FailOf, v, states, []);
    SingleStep(Compute(Second), DoneOf(v), states, []);
    SingleStep(Compute(Second), FailOf(v), states, []);
  }
  // Whole runs, from `launch` until the queue drains.

  /** The graph of an effect created at id `n` with cells `c` and `c + 1`
      sits unchanged in `nodes`. */
  ghost predicate EffectAt(nodes: seq<Node>, n: nat, c: nat, name: string) {
    n + 20 <= |nodes| && forall i :: 0 <= i < 20 ==> nodes[n + i] == EffectNodes(n, c, name)[i]
  }

  /** inFlight with its updates event, and pending fed by its map node,
      as a new count goes through them. */
  ghost predicate CountShape(nodes: seq<Node>, n: nat, c: nat) {
    && n + 20 <= |nodes|
    && nodes[n + 3].steps == StoreSteps(c) && nodes[n + 3].next == [n + 1, n + 8]
    && nodes[n + 1].steps == [] && nodes[n + 1].next == [] && nodes[n + 1].priority == Child
    && nodes[n + 8].steps == [Compute(Positive)] && nodes[n + 8].next == [n + 7] && nodes[n + 8].priority == Pure
    && nodes[n + 7].steps == StoreSteps(c + 1) && nodes[n + 7].next == [n + 5]
    && nodes[n + 5].steps == [] && nodes[n + 5].next == []
  }

  /** finally, done, fail, doneData, failData and inFlight's decrement, as
      a completed run goes through them. */
  ghost predicate FinallyShape(nodes: seq<Node>, n: nat, c: nat) {
    && n + 20 <= |nodes|
    && nodes[n + 9].steps == [] && nodes[n + 9].next == [n + 11, n + 13, n + 19] && nodes[n + 9].priority == Child
    && nodes[n + 10].steps == [] && nodes[n + 10].next == [n + 15] && nodes[n + 10].priority == Child
    && nodes[n + 11].steps == FilterMapSteps(DoneOf) && nodes[n + 11].next == [n + 10] && nodes[n + 11].priority == Pure
    && nodes[n + 12].steps == [] && nodes[n + 12].next == [n + 17] && nodes[n + 12].priority == Child
    && nodes[n + 13].steps == FilterMapSteps(FailOf) && nodes[n + 13].next == [n + 12] && nodes[n + 13].priority == Pure
    && nodes[n + 14].steps == [] && nodes[n + 14].next == [] && nodes[n + 14].priority == Child
    && nodes[n + 15].steps == [Compute(Second)] && nodes[n + 15].next == [n + 14] && nodes[n + 15].priority == Pure
    && nodes[n + 16].steps == [] && nodes[n + 16].next == [] && nodes[n + 16].priority == Child
    && nodes[n + 17].steps == [Compute(Second)] && nodes[n + 17].next == [n + 16] && nodes[n + 17].priority == Pure
    && nodes[n + 19].steps == [Reduce(c, Decrement)] && nodes[n + 19].next == [n + 3] && nodes[n + 19].priority == Pure
  }

  lemma EffectShapes(nodes: seq<Node>, n: nat, c: nat, name: string)
    requires EffectAt(nodes, n, c, name)
    ensures nodes[n].steps == [Spawn(n)] && nodes[n].next == [n + 18] && nodes[n].priority == Effect
    ensures nodes[n + 18].steps == [Reduce(c, Increment)] && nodes[n + 18].next == [n + 3]
    ensures CountShape(nodes, n, c) && FinallyShape(nodes, n, c)
  {
    var g := EffectNodes(n, c, name);
    assert nodes[n] == g[0] && nodes[n + 18] == g[18];
    CountShapeAt(nodes, n, c, name);
    FinallyShapeAt(nodes, n, c, name);
  }

  lemma CountShapeAt(nodes: seq<Node>, n: nat, c: nat, name: string)
    requires EffectAt(nodes, n, c, name)
    ensures CountShape(nodes, n, c)
  {
    var g := EffectNodes(n, c, name);
    assert nodes[n + 3] == g[3] && nodes[n + 1] == g[1];
    assert nodes[n + 8] == g[8] && nodes[n + 7] == g[7] && nodes[n + 5] == g[5];
  }

  lemma FinallyShapeAt(nodes: seq<Node>, n: nat, c: nat, name: string)
    requires EffectAt(nodes, n, c, name)
    ensures FinallyShape(nodes, n, c)
  {
    var g := EffectNodes(n, c, name);
    assert nodes[n + 9] == g[9] && nodes[n + 10] == g[10] && nodes[n + 11] == g[11] && nodes[n + 12] == g[12];
    assert nodes[n + 13] == g[13] && nodes[n + 14] == g[14] && nodes[n + 15] == g[15] && nodes[n + 16] == g[16];
    assert nodes[n + 17] == g[17] && nodes[n + 19] == g[19];
  }

  /** `run`: from a queue holding only the effect's node, with inFlight at
      `k` and pending equal to `k > 0`, once the queue drains the handler
      was started with the params, inFlight holds `k + 1` and pending
      holds `k + 1 > 0`. */
  lemma RunRaisesPending(nodes: seq<Node>, n: nat, c: nat, name: string, k: int, params: Value,
                         trace: seq<Entry>, states: seq<Value>, log: seq<Signal>)
    requires EffectAt(nodes, n, c, name) && GraphFits(nodes, |states|) && c + 1 < |states|
    requires states[c] == Num(k) && states[c + 1] == Flag(k > 0)
    requires Schedule(nodes, multiset{Entry(n, Effect, params)}, trace, states, log, multiset{})
    ensures IdsIn(trace, |nodes|)
    ensures Replay(nodes, trace, states, log)
            == (states[c := Num(k + 1)][c + 1 := Flag(k + 1 > 0)], log + [Started(n, params)])
  {
    EffectShapes(nodes, n, c, name);
    RunStartsHandler(n, params, states, log);
    ScheduleChain(nodes, n, n + 18, params, trace, states, log);
    CountRun(nodes, n, c, n + 18, Increment, k, params, trace[1..], states, log + [Started(n, params)]);
  }

  /** From one of inFlight's reducers `x` on: inFlight takes the new count
      and pending follows it. */
  lemma CountRun(nodes: seq<Node>, n: nat, c: nat, x: nat, g: (Value, Value) -> Value, k: int, p: Value,
                 trace: seq<Entry>, states: seq<Value>, log: seq<Signal>)
    requires GraphFits(nodes, |states|) && CountShape(nodes, n, c) && c + 1 < |states| && x < |nodes|
    requires nodes[x].steps == [Reduce(c, g)] && nodes[x].next == [n + 3]
    requires states[c] == Num(k) && states[c + 1] == Flag(k > 0)
    requires Schedule(nodes, multiset{Entry(x, nodes[x].priority, p)}, trace, states, log, multiset{})
    ensures IdsIn(trace, |nodes|)
    ensures var m := g(Num(k), p);
            Replay(nodes, trace, states, log) == (states[c := m][c + 1 := Flag(AsInt(m) > 0)], log)
  {
    OnComputes(c, g, p, states, log);
    ScheduleChain(nodes, x, n + 3, p, trace, states, log);
    MapRun(nodes, n + 3, n + 1, n + 8, n + 7, n + 5, c, c + 1, Positive, g(Num(k), p), trace[1..], states, log);
  }

  /** `Settle`: from a queue holding only the finally event with the
      outcome of a completed run, with inFlight at `k` and pending equal to
      `k > 0`, once the queue drains inFlight holds `k - 1`, pending holds
      `k - 1 > 0`, and nothing was logged. */
  lemma SettleLowersPending(nodes: seq<Node>, n: nat, c: nat, name: string, k: int, params: Value,
                            outcome: Completion, trace: seq<Entry>, states: seq<Value>, log: seq<Signal>)
    requires EffectAt(nodes, n, c, name) && GraphFits(nodes, |states|) && c + 1 < |states|
    requires states[c] == Num(k) && states[c + 1] == Flag(k > 0)
    requires Schedule(nodes, multiset{Entry(n + 9, Child, Finally(params, outcome))}, trace, states, log, multiset{})
    ensures IdsIn(trace, |nodes|)
    ensures Replay(nodes, trace, states, log) == (states[c := Num(k - 1)][c + 1 := Flag(k - 1 > 0)], log)
  {
    EffectShapes(nodes, n, c, name);
    ScheduleIds(nodes, multiset{Entry(n + 9, Child, Finally(params, outcome))}, trace, states, log, multiset{});
    FinallyFansOut(nodes, n, c, Finally(params, outcome), trace, states, log);
    if outcome.Resolved? {
      DoneRoute(nodes, n, c, k, Finally(params, outcome), trace[1..], states, log);
    } else {
      FailRoute(nodes, n, c, k, Finally(params, outcome), trace[1..], states, log);
    }
  }

  // A settle, one queue at a time: `Entry(n + i, ...)` is node i of the
  // effect's graph, and inFlight's decrement, at n + 19, always goes last.

  /** The finally event hands its payload to done's and fail's filterMaps
      and to inFlight's decrement. */
  lemma FinallyFansOut(nodes: seq<Node>, n: nat, c: nat, v: Value, trace: seq<Entry>, states: seq<Value>, log: seq<Signal>)
    requires GraphFits(nodes, |states|) && FinallyShape(nodes, n, c) && IdsIn(trace, |nodes|)
    requires Schedule(nodes, multiset{Entry(n + 9, Child, v)}, trace, states, log, multiset{})
    ensures trace != [] && IdsIn(trace[1..], |nodes|)
    ensures Schedule(nodes, multiset{Entry(n + 11, Pure, v), Entry(n + 13, Pure, v), Entry(n + 19, Pure, v)},
                     trace[1..], states, log, multiset{})
    ensures Replay(nodes, trace, states, log) == Replay(nodes, trace[1..], states, log)
  {
    var e := Entry(n + 9, Child, v);
    EmptyPipelineForwards(v, states, log);
    assert Successors(nodes, [n + 11, n + 13, n + 19], v)
           == [Entry(n + 11, Pure, v), Entry(n + 13, Pure, v), Entry(n + 19, Pure, v)];
    assert multiset{e} - multiset{e} + multiset([Entry(n + 11, Pure, v), Entry(n + 13, Pure, v), Entry(n + 19, Pure, v)])
           == multiset{Entry(n + 11, Pure, v), Entry(n + 13, Pure, v), Entry(n + 19, Pure, v)};
    QuietStep(nodes, multiset{e}, e, multiset{Entry(n + 11, Pure, v), Entry(n + 13, Pure, v), Entry(n + 19, Pure, v)},
              trace, states, log);
    QuietReplay(nodes, trace, states, log);
  }

  /** done's filterMap passes `.done(params, result)` on to the done event. */
  lemma DoneRoute(nodes: seq<Node>, n: nat, c: nat, k: int, v: Value,
                  trace: seq<Entry>, states: seq<Value>, log: seq<Signal>)
    requires GraphFits(nodes, |states|) && CountShape(nodes, n, c) && FinallyShape(nodes, n, c) && c + 1 < |states|
    requires v.Done? && states[c] == Num(k) && states[c + 1] == Flag(k > 0) && IdsIn(trace, |nodes|)
    requires Schedule(nodes, multiset{Entry(n + 11, Pure, v), Entry(n + 13, Pure, v), Entry(n + 19, Pure, v)},
                      trace, states, log, multiset{})
    ensures Replay(nodes, trace, states, log) == (states[c := Num(k - 1)][c + 1 := Flag(k - 1 > 0)], log)
  {
    var e, f, g := Entry(n + 11, Pure, v), Entry(n + 13, Pure, v), Entry(n + 19, Pure, v);
    FilterMapRun(DoneOf, v, states, log);
    ForwardOfThree(nodes, e, f, g, n + 10, Child, DoneOf(v), trace, states, log);
    Rotate(f, g, Entry(n + 10, Child, DoneOf(v)));
    DoneEvent(nodes, n, c, k, v, DoneOf(v), trace[1..], states, log);
  }

  /** The done event goes first, being of child priority, and feeds
      doneData's map node. */
  lemma DoneEvent(nodes: seq<Node>, n: nat, c: nat, k: int, v: Value, d: Value,
                  trace: seq<Entry>, states: seq<Value>, log: seq<Signal>)
    requires GraphFits(nodes, |states|) && CountShape(nodes, n, c) && FinallyShape(nodes, n, c) && c + 1 < |states|
    requires v.Done? && states[c] == Num(k) && states[c + 1] == Flag(k > 0) && IdsIn(trace, |nodes|)
    requires Schedule(nodes, multiset{Entry(n + 10, Child, d), Entry(n + 13, Pure, v), Entry(n + 19, Pure, v)},
                      trace, states, log, multiset{})
    ensures Replay(nodes, trace, states, log) == (states[c := Num(k - 1)][c + 1 := Flag(k - 1 > 0)], log)
  {
    var e, f, g := Entry(n + 10, Child, d), Entry(n + 13, Pure, v), Entry(n + 19, Pure, v);
    UpdatesFirst(e, f);
    UpdatesFirst(e, g);
    EmptyPipelineForwards(d, states, log);
    ForwardOfThree(nodes, e, f, g, n + 15, Pure, d, trace, states, log);
    FailStopped(nodes, n, c, k, v, d, trace[1..], states, log);
  }

  /** fail's filterMap, next by id, stops `.done`. */
  lemma FailStopped(nodes: seq<Node>, n: nat, c: nat, k: int, v: Value, d: Value,
                    trace: seq<Entry>, states: seq<Value>, log: seq<Signal>)
    requires GraphFits(nodes, |states|) && CountShape(nodes, n, c) && FinallyShape(nodes, n, c) && c + 1 < |states|
    requires v.Done? && states[c] == Num(k) && states[c + 1] == Flag(k > 0) && IdsIn(trace, |nodes|)
    requires Schedule(nodes, multiset{Entry(n + 13, Pure, v), Entry(n + 19, Pure, v), Entry(n + 15, Pure, d)},
                      trace, states, log, multiset{})
    ensures Replay(nodes, trace, states, log) == (states[c := Num(k - 1)][c + 1 := Flag(k - 1 > 0)], log)
  {
    var e, f, g := Entry(n + 13, Pure, v), Entry(n + 19, Pure, v), Entry(n + 15, Pure, d);
    FilterMapRun(FailOf, v, states, log);
    DropOfThree(nodes, e, f, g, trace, states, log);
    Swap(f, g);
    DataThenDecrement(nodes, n, c, k, n + 15, n + 14, d, v, trace[1..], states, log);
  }

  /** done's filterMap, first by id, stops `.fail`. */
  lemma FailRoute(nodes: seq<Node>, n: nat, c: nat, k: int, v: Value,
                  trace: seq<Entry>, states: seq<Value>, log: seq<Signal>)
    requires GraphFits(nodes, |states|) && CountShape(nodes, n, c) && FinallyShape(nodes, n, c) && c + 1 < |states|
    requires v.Fail? && states[c] == Num(k) && states[c + 1] == Flag(k > 0) && IdsIn(trace, |nodes|)
    requires Schedule(nodes, multiset{Entry(n + 11, Pure, v), Entry(n + 13, Pure, v), Entry(n + 19, Pure, v)},
                      trace, states, log, multiset{})
    ensures Replay(nodes, trace, states, log) == (states[c := Num(k - 1)][c + 1 := Flag(k - 1 > 0)], log)
  {
    FilterMapRun(DoneOf, v, states, log);
    DropOfThree(nodes, Entry(n + 11, Pure, v), Entry(n + 13, Pure, v), Entry(n + 19, Pure, v), trace, states, log);
    FailPassed(nodes, n, c, k, v, trace[1..], states, log);
  }

  /** fail's filterMap passes `.fail(params, error)` on to the fail event. */
  lemma FailPassed(nodes: seq<Node>, n: nat, c: nat, k: int, v: Value,
                   trace: seq<Entry>, states: seq<Value>, log: seq<Signal>)
    requires GraphFits(nodes, |states|) && CountShape(nodes, n, c) && FinallyShape(nodes, n, c) && c + 1 < |states|
    requires v.Fail? && states[c] == Num(k) && states[c + 1] == Flag(k > 0) && IdsIn(trace, |nodes|)
    requires Schedule(nodes, multiset{Entry(n + 13, Pure, v), Entry(n + 19, Pure, v)}, trace, states, log, multiset{})
    ensures Replay(nodes, trace, states, log) == (states[c := Num(k - 1)][c + 1 := Flag(k - 1 > 0)], log)
  {
    var e, g := Entry(n + 13, Pure, v), Entry(n + 19, Pure, v);
    FilterMapRun(FailOf, v, states, log);
    ForwardOfTwo(nodes, e, g, n + 12, Child, FailOf(v), trace, states, log);
    Swap(g, Entry(n + 12, Child, FailOf(v)));
    FailEvent(nodes, n, c, k, v, FailOf(v), trace[1..], states, log);
  }

  /** The fail event goes first and feeds failData's map node. */
  lemma FailEvent(nodes: seq<Node>, n: nat, c: nat, k: int, v: Value, f: Value,
                  trace: seq<Entry>, states: seq<Value>, log: seq<Signal>)
    requires GraphFits(nodes, |states|) && CountShape(nodes, n, c) && FinallyShape(nodes, n, c) && c + 1 < |states|
    requires states[c] == Num(k) && states[c + 1] == Flag(k > 0) && IdsIn(trace, |nodes|)
    requires Schedule(nodes, multiset{Entry(n + 12, Child, f), Entry(n + 19, Pure, v)}, trace, states, log, multiset{})
    ensures Replay(nodes, trace, states, log) == (states[c := Num(k - 1)][c + 1 := Flag(k - 1 > 0)], log)
  {
    var e, g := Entry(n + 12, Child, f), Entry(n + 19, Pure, v);
    UpdatesFirst(e, g);
    EmptyPipelineForwards(f, states, log);
    ForwardOfTwo(nodes, e, g, n + 17, Pure, f, trace, states, log);
    Swap(g, Entry(n + 17, Pure, f));
    DataThenDecrement(nodes, n, c, k, n + 17, n + 16, f, v, trace[1..], states, log);
  }

  /** doneData's or failData's map node `x`, before the decrement by id,
      hands `$0.1` to its event `y`. */
  lemma DataThenDecrement(nodes: seq<Node>, n: nat, c: nat, k: int, x: nat, y: nat, d: Value, v: Value,
                          trace: seq<Entry>, states: seq<Value>, log: seq<Signal>)
    requires GraphFits(nodes, |states|) && CountShape(nodes, n, c) && FinallyShape(nodes, n, c) && c + 1 < |states|
    requires states[c] == Num(k) && states[c + 1] == Flag(k > 0) && IdsIn(trace, |nodes|)
    requires x < n + 19 && y < |nodes| && nodes[x].steps == [Compute(Second)] && nodes[x].next == [y]
    requires nodes[y].steps == [] && nodes[y].next == [] && nodes[y].priority == Child
    requires Schedule(nodes, multiset{Entry(x, Pure, d), Entry(n + 19, Pure, v)}, trace, states, log, multiset{})
    ensures Replay(nodes, trace, states, log) == (states[c := Num(k - 1)][c + 1 := Flag(k - 1 > 0)], log)
  {
    var e, g := Entry(x, Pure, d), Entry(n + 19, Pure, v);
    SingleStep(Compute(Second), d, states, log);
    ForwardOfTwo(nodes, e, g, y, Child, Second(d), trace, states, log);
    Swap(g, Entry(y, Child, Second(d)));
    QuietThenDecrement(nodes, n, c, k, y, Second(d), v, trace[1..], states, log);
  }

  /** doneData's or failData's event `y`, with no steps and no successors,
      then inFlight's decrement. */
  lemma QuietThenDecrement(nodes: seq<Node>, n: nat, c: nat, k: int, y: nat, r: Value, v: Value,
                           trace: seq<Entry>, states: seq<Value>, log: seq<Signal>)
    requires GraphFits(nodes, |states|) && CountShape(nodes, n, c) && FinallyShape(nodes, n, c) && c + 1 < |states|
    requires states[c] == Num(k) && states[c + 1] == Flag(k > 0) && IdsIn(trace, |nodes|)
    requires y < |nodes| && nodes[y].steps == [] && nodes[y].next == [] && nodes[y].priority == Child
    requires Schedule(nodes, multiset{Entry(y, Child, r), Entry(n + 19, Pure, v)}, trace, states, log, multiset{})
    ensures Replay(nodes, trace, states, log) == (states[c := Num(k - 1)][c + 1 := Flag(k - 1 > 0)], log)
  {
    var e, g := Entry(y, Child, r), Entry(n + 19, Pure, v);
    UpdatesFirst(e, g);
    EmptyPipelineForwards(r, states, log);
    DropOfTwo(nodes, e, g, trace, states, log);
    DecrementRun(nodes, n, c, k, v, trace[1..], states, log);
  }

  /** inFlight's decrement on its own lowers the count by one. */
  lemma DecrementRun(nodes: seq<Node>, n: nat, c: nat, k: int, v: Value,
                     trace: seq<Entry>, states: seq<Value>, log: seq<Signal>)
    requires GraphFits(nodes, |states|) && CountShape(nodes, n, c) && c + 1 < |states| && IdsIn(trace, |nodes|)
    requires nodes[n + 19].steps == [Reduce(c, Decrement)] && nodes[n + 19].next == [n + 3]
    requires nodes[n + 19].priority == Pure
    requires states[c] == Num(k) && states[c + 1] == Flag(k > 0)
    requires Schedule(nodes, multiset{Entry(n + 19, Pure, v)}, trace, states, log, multiset{})
    ensures Replay(nodes, trace, states, log) == (states[c := Num(k - 1)][c + 1 := Flag(k - 1 > 0)], log)
  {
    CountRun(nodes, n, c, n + 19, Decrement, k, v, trace, states, log);
  }

  // `testEffectInPending`, on a fresh runtime: `pending` is raised while a
  // run is in flight and lowered when the handler settles.

  /** An effect named "effect" runs and then settles: `pending` holds
      `true` in between and `false` afterwards. */
  method PendingScenario(handler: Handler, params: Value, fuel: nat)
    returns (started: bool, during: Value, settled: bool, after: Value)
    ensures started ==> during == Flag(true)
    ensures started && settled ==> after == Flag(false)
  {
    var rt, fx := BuildPendingScenario(handler);
    ghost var nodes := rt.nodes;
    ghost var trace;
    started, trace := fx.Run(rt, params, fuel);
    assert |rt.states| == 2 && rt.nodes == nodes;
    if started {
      PendingRaised(nodes, params, trace);
    }
    during := GetState(rt, fx.pending);
    if started {
      ghost var log := rt.log;
      ghost var outcome := fx.handler(rt.states, params);
      settled, trace := fx.Settle(rt, params, fuel);
      if settled {
        PendingLowered(nodes, params, outcome, trace, log);
      }
      after := GetState(rt, fx.pending);
    } else {
      settled, after := false, during;
    }
  }

  /** An effect named "effect" on a fresh runtime: its nodes from 0 and its
      cells from 0. */
  method BuildPendingScenario(handler: Handler) returns (rt: Runtime, fx: EffectUnit)
    ensures fresh(rt) && fresh(rt.queue) && rt.Valid() && fx.In(rt) && rt.queue.Contents() == multiset{}
    ensures rt.nodes == EffectNodes(0, 0, "effect") && rt.states == [Num(0), Flag(false)] && rt.log == []
    ensures fx.node == 0 && fx.finally.node == 9 && fx.pending.cell == 1 && fx.handler == handler
    ensures |rt.nodes| == 20 && Fits(fx.pending, 20, 2)
  {
    rt := new Runtime();
    assert rt.queue.Contents() == multiset{};
    fx := new EffectUnit(rt, "effect", false, handler);
  }

  /** A run of the fresh effect raises inFlight to 1 and pending to true. */
  lemma PendingRaised(nodes: seq<Node>, params: Value, trace: seq<Entry>)
    requires nodes == EffectNodes(0, 0, "effect") && GraphFits(nodes, 2)
    requires Schedule(nodes, multiset{} + multiset{Entry(0, nodes[0].priority, params)}, trace, [Num(0), Flag(false)], [], multiset{})
    ensures IdsIn(trace, |nodes|) && Replay(nodes, trace, [Num(0), Flag(false)], []).0 == [Num(1), Flag(true)]
  {
    EffectNodesAt(nodes, "effect");
    RaisedAt(nodes, params, trace);
  }

  lemma RaisedAt(nodes: seq<Node>, params: Value, trace: seq<Entry>)
    requires EffectAt(nodes, 0, 0, "effect") && GraphFits(nodes, 2) && nodes[0].priority == Effect
    requires Schedule(nodes, multiset{} + multiset{Entry(0, nodes[0].priority, params)}, trace, [Num(0), Flag(false)], [], multiset{})
    ensures IdsIn(trace, |nodes|) && Replay(nodes, trace, [Num(0), Flag(false)], []).0 == [Num(1), Flag(true)]
  {
    AddToNone(Entry(0, Effect, params));
    RunRaisesPending(nodes, 0, 0, "effect", 0, params, trace, [Num(0), Flag(false)], []);
    assert [Num(0), Flag(false)][0 := Num(1)][1 := Flag(true)] == [Num(1), Flag(true)];
  }

  /** The settling of that run brings inFlight back to 0 and pending to
      false, whatever the handler's outcome. */
  lemma PendingLowered(nodes: seq<Node>, params: Value, outcome: Completion, trace: seq<Entry>, log: seq<Signal>)
    requires nodes == EffectNodes(0, 0, "effect") && GraphFits(nodes, 2)
    requires Schedule(nodes, multiset{} + multiset{Entry(9, nodes[9].priority, Finally(params, outcome))}, trace,
                      [Num(1), Flag(true)], log, multiset{})
    ensures IdsIn(trace, |nodes|) && Replay(nodes, trace, [Num(1), Flag(true)], log).0 == [Num(0), Flag(false)]
  {
    EffectNodesAt(nodes, "effect");
    LoweredAt(nodes, params, outcome, trace, log);
  }

  lemma LoweredAt(nodes: seq<Node>, params: Value, outcome: Completion, trace: seq<Entry>, log: seq<Signal>)
    requires EffectAt(nodes, 0, 0, "effect") && GraphFits(nodes, 2) && nodes[9].priority == Child
    requires Schedule(nodes, multiset{} + multiset{Entry(9, nodes[9].priority, Finally(params, outcome))}, trace,
                      [Num(1), Flag(true)], log, multiset{})
    ensures IdsIn(trace, |nodes|) && Replay(nodes, trace, [Num(1), Flag(true)], log).0 == [Num(0), Flag(false)]
  {
    AddToNone(Entry(9, Child, Finally(params, outcome)));
    SettleLowersPending(nodes, 0, 0, "effect", 1, params, outcome, trace, [Num(1), Flag(true)], log);
    assert [Num(1), Flag(true)][0 := Num(0)][1 := Flag(false)] == [Num(0), Flag(false)];
  }

  /** The effect graph built on an empty runtime sits at node 0. */
  lemma EffectNodesAt(nodes: seq<Node>, name: string)
    requires nodes == EffectNodes(0, 0, name)
    ensures EffectAt(nodes, 0, 0, name) && nodes[0].priority == Effect && nodes[9].priority == Child
  {
  }
}
