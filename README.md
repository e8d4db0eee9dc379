# SwiftEffector in Dafny

A model of SwiftEffector, an Effector-style dataflow library for Swift. Units
(events, stores, effects) own nodes of a graph. Calling a unit queues its node
with a payload. A single-threaded loop then takes nodes off a binary min-heap,
ordered by priority tag and then by node id. It runs each node's steps
(`compute`, `filter`) and queues the node's successors with the resulting
value. The combinators (`combine`, `merge`, `forward`, `restore`, `attach`,
`not`, `Gate`, and the older `sample`, `link`, `allSatisfy`, `contains`) add
nodes and edges to that graph. The forms layer on top validates field values
with rules and derives field and form flags from them.

The model has these parts:

- **The heap** (`queue.dfy`, module `WorkQueue`). A class over a `seq` of
  entries, sifted up and down in place as the source does. It is proved
  against a heap invariant and a multiset of contents.
- **The graph and the loop** (`node.dfy`, `kernel.dfy`). Class
  `Kernel.Runtime` holds the nodes, indexed by id in creation order. It also
  holds the store cells and a log of observable calls: watcher calls and
  effect-handler starts. Every method is tied to the functions
  `RunStep`/`RunSteps` (one node's pipeline) and `Replay` (a sequence of
  dequeued entries).
- **The units and combinators**, in the current tree (`Effector/`). Each one
  is a method that appends exactly the nodes and edges the source creates.
  Lemmas then state what those nodes do to the store cells when they run.
- **The older package target** (`Sources/SwiftEffector/`), as a variant on
  the same kernel. Its store always assigns, it tags nodes `.link`, and it has
  `sample`/`link`/`allSatisfy`/`contains`.
- **The forms layer** (`EffectorForms/`):
  - the built-in rules and the rule folding;
  - each field's state as a record with one transition per event;
  - a `Form` class for registration and `build`;
  - the form-level flags and the gating of `submitted` and `validated`.

Payloads are one datatype `Values.Value`, standing for Swift's `Any`. An
optional `Some(x)` is represented as `x` and `nil` as `Nil`. Only values of a
hashable kind can be equal under `areEqual(Any, Any)`.

## Model

| member | source | states |
|---|---|---|
| Values.AreEqual | Effector/Store.swift:182-192 | a true answer means the values are equal; a non-hashable side always gives false |
| Values.NonHashableNeverEqual | Effector/Store.swift:182-192 | a non-hashable value is equal to nothing, itself included, on either side |
| Values.HashableEquality | Effector/Store.swift:182-192 | on two hashable values `areEqual` is exactly value equality |
| Values.AreEqualSymmetric | Effector/Store.swift:182-192 | `areEqual(Any, Any)` is symmetric |
| Equality.Unconstrained | Effector/AreEqual.swift:9-11 | the fallback overload always answers false |
| Equality.EqualityPaths | Effector/AreEqual.swift:1-11 | the Equatable overload is symmetric and, on the model's values, relates each value to itself; the fallback is false even for a value against itself |
| Nodes.RawValue | Effector/Node.swift:34-40 | every priority tag has a raw value between 1 and 5 |
| Nodes.RawValueOrder | Effector/Node.swift:34-40 | child < pure < combine < sample < effect, and distinct tags have distinct raw values |
| Nodes.Occurrences | Effector/Node.swift:50-52 | counts the copies of an id in a successor list: zero exactly when absent, at most the list's length |
| Nodes.OccurrencesAppend | Effector/Node.swift:50-52 | appending an id adds one copy of that id and none of any other |
| WorkQueue.SortStrict | Effector/Queue.swift:102-108 | `sort` is irreflexive, asymmetric and transitive |
| WorkQueue.NotBeforeTransitive | Effector/Queue.swift:102-108 | "does not go before" is transitive, which the heap order relies on |
| WorkQueue.TiesBreakById | Effector/Queue.swift:102-108 | at equal priority the smaller node id goes first, and two distinct nodes are always ordered |
| WorkQueue.SameNodeUnordered | Effector/Queue.swift:102-108 | two entries for the same node are unordered, whatever their payloads |
| WorkQueue.Parent | Effector/Queue.swift:62-64 | the parent of a non-root index is below it and has it as a left or right child; parent(0) truncates to 0 |
| WorkQueue.RootIsMinimal | Effector/Queue.swift:62-108 | in a heap no element goes strictly before the root |
| WorkQueue.HeapMinimum | Effector/Queue.swift:30-46 | the root of a non-empty heap is a minimum of its contents |
| WorkQueue.Queue.constructor | Effector/Queue.swift:52 | a new queue is empty and a heap |
| WorkQueue.Queue.Enqueue | Effector/Queue.swift:23-28 | appending and sifting up adds exactly the entry and keeps the heap |
| WorkQueue.Queue.Dequeue | Effector/Queue.swift:30-46 | an empty queue gives nil and is unchanged; otherwise one entry of the old contents comes out and the heap is kept |
| WorkQueue.Queue.Up | Effector/Queue.swift:88-100 | moving the hole up from the last index restores the heap and keeps the multiset |
| WorkQueue.Queue.Down | Effector/Queue.swift:66-86 | swapping with the smaller child until in place restores the heap and keeps the multiset |
| WorkQueue.Drain | Effector/Queue.swift:30-46 | dequeuing until nil empties the queue, giving a permutation of its contents in which no later entry goes before an earlier one |
| WorkQueue.OrderedUnique | Effector/Queue.swift:102-108 | when entries are strictly ordered, the drain order is the only ordered permutation |
| WorkQueue.ScenarioExpectedOrder | Tests/EffectorTests/QueueTests.swift:5-68 | the test's expected order is strictly ordered by (priority, id) |
| WorkQueue.ScenarioPermutation | Tests/EffectorTests/QueueTests.swift:5-68 | the expected order is a rearrangement of the enqueued entries |
| WorkQueue.PriorityScenario | Tests/EffectorTests/QueueTests.swift:5-68 | enqueuing the test's ten nodes and draining gives ids 1, 2, 4, 10, 5, 6, 7, 8, 3, 9 |
| Kernel.Read | Effector/Combine.swift:14 | reading cells gives each cell's current state, in order |
| Kernel.RunStep | Effector/Kernel.swift:6-18 | only a filter can stop the value, and then nothing changes; only assign steps change the cells; only observing steps add exactly one log entry |
| Kernel.RunSteps | Effector/Kernel.swift:6-18 | the log only grows; with no filter the run passes; with no writing step the cells are unchanged |
| Kernel.RunStepsAppend | Effector/Kernel.swift:6-18 | running `a ++ b` is running `a` and, if it passed, running `b` on its result |
| Kernel.SingleStep | Effector/Kernel.swift:6-18 | a one-step pipeline behaves as that step |
| Kernel.EmptyPipelineForwards | Effector/Kernel.swift:6-22 | a node without steps passes its payload on unchanged |
| Kernel.FilterStops | Effector/Kernel.swift:11-16 | a failing filter ends the run: the steps after it never run |
| Kernel.Successors | Effector/Kernel.swift:20-22 | successors are queued in `next` order with their own priority and the node's result |
| Kernel.SuccessorMultiplicity | Effector/Kernel.swift:20-22 | no de-duplication: a successor listed k times is queued k times |
| Kernel.ReplayAppend | Effector/Kernel.swift:1-24 | replaying one more entry runs that node's pipeline on the state the earlier entries left |
| Kernel.ExtendRun | Effector/Kernel.swift:2-22 | a run followed by a least entry of what it left queued is a run one longer, whose queue loses that entry and gains its successors exactly when it passed |
| Kernel.ScheduleIds | Effector/Kernel.swift:2-22 | every entry a run takes names an existing node |
| Kernel.ScheduleHead | Effector/Kernel.swift:2-4 | a drained run from a queue with a unique least entry takes that entry first and continues from its requeued queue |
| Kernel.ScheduleChain | Effector/Kernel.swift:2-22 | from a single entry whose pipeline passes to one successor, the run continues with that successor alone, holding the result |
| Kernel.ScheduleLast | Effector/Kernel.swift:2-22 | a single entry with no successors is the whole drained run |
| Kernel.QuietStep | Effector/Kernel.swift:2-22 | an entry ahead of all others whose pipeline changes no cell and no log is taken first, and the run goes on from the requeued queue |
| Kernel.DropOfTwo | Effector/Kernel.swift:2-22 | of two queued entries, a quiet least one that stops or has no successors is taken and simply disappears |
| Kernel.ForwardOfTwo | Effector/Kernel.swift:2-22 | of two queued entries, a quiet least one with one successor is taken and replaced by that successor with its result |
| Kernel.DropOfThree | Effector/Kernel.swift:2-22 | the same as `DropOfTwo` with three queued entries |
| Kernel.ForwardOfThree | Effector/Kernel.swift:2-22 | the same as `ForwardOfTwo` with three queued entries |
| Kernel.SuccessorsSnoc | Effector/Kernel.swift:20-22 | enqueuing the successors one by one in `next` order builds exactly their multiset |
| Kernel.AppendEdges | Effector/Node.swift:91 | wiring from `from` appends the new node once per occurrence, keeping ids, steps and priorities |
| Kernel.AppendEdgesKeeps | Effector/Node.swift:91 | wiring leaves every existing node's id, name, kind, priority and steps unchanged and only extends `next` |
| Kernel.AppendEdgesSingle | Effector/Node.swift:91 | wiring from one node appends to that node only |
| Kernel.Runtime.constructor | Effector/Queue.swift:21 | a new runtime has no nodes, cells or log, and an empty queue |
| Kernel.Runtime.NewCell | Effector/Store.swift:9 | a store cell is allocated at the next index holding the value; nothing else changes |
| Kernel.Runtime.NewNode | Effector/Node.swift:4-19 | a node gets the next id and exactly the given fields; nothing else changes |
| Kernel.Runtime.AppendNext | Effector/Node.swift:50-52 | only that node's `next` changes, gaining the successor at the end |
| Kernel.Runtime.PrependNext | Effector/Node.swift:54-56 | only that node's `next` changes, gaining the successor at index 0 |
| Kernel.Runtime.Clear | Effector/Node.swift:58-61 | only that node changes, losing both its successors and its steps |
| Kernel.Runtime.CreateNode | Effector/Node.swift:74-94 | a new node with successors `to`, appended once to every `from` node |
| Kernel.Runtime.ApplyStep | Effector/Kernel.swift:7-17 | the step's in-place effect on cells and log is the one `RunStep` gives |
| Kernel.Runtime.ApplySteps | Effector/Kernel.swift:6-18 | the loop over a node's steps leaves at the first failing filter and agrees with `RunSteps` |
| Kernel.Runtime.ProcessEntry | Effector/Kernel.swift:2-22 | one iteration runs the pipeline and, if it passed, queues exactly the successors |
| Kernel.Runtime.Turn | Effector/Kernel.swift:2-22 | one turn takes a least entry off a non-empty queue and leaves the cells and log its pipeline gives; an empty queue gives nil and nothing changes |
| Kernel.Runtime.Advance | Effector/Kernel.swift:2-22 | one iteration of the drain loop extends the run by one entry, keeping the queue-evolution relation and the replayed state, or finds the queue empty |
| Kernel.Runtime.Exec | Effector/Kernel.swift:1-24 | each entry taken is a least one of the queue at that moment, the queue after it loses that entry and gains its successors exactly when its pipeline passed, the loop stops on an empty queue (or at its fuel), and the cells and log are the replay of the entries taken |
| Kernel.Runtime.Launch | Effector/Kernel.swift:26-30 | the node is queued with its priority and payload, then the queue evolves as `exec` promises from there |
| Events.NewEvent | Effector/Event.swift:4-8 | one child-priority event node with no steps or successors |
| Events.Run | Effector/Event.swift:21-27 | a callable event launches its node with the payload (a derived one is a fatal error, so a precondition); the queue then evolves as `exec` promises and the cells and log are the replay of the run |
| Events.Watch | Effector/Event.swift:29-36 | an effect-priority node after the event, observing each payload |
| Events.Map | Effector/Event.swift:38-52 | a derived event fed by a pure node computing `fn`, named `:map` unless named |
| Events.Prepend | Effector/Event.swift:54-68 | a callable event whose payloads, mapped by `fn`, reach this event through a child node |
| Events.Filter | Effector/Event.swift:70-85 | a derived event fed by a pure node with one filter step |
| Events.FilterMap | Effector/Event.swift:87-107 | a derived event fed by a pure node that maps, drops nil and passes the rest |
| Events.MapAll | Effector/Event.swift:38-52 | the mapped payloads, one per payload, in order |
| Events.Keep | Effector/Event.swift:70-85 | the kept payloads all satisfy the predicate, and each satisfying payload is kept exactly as often as it occurs |
| Events.MapEmitsAll | Effector/Event.swift:38-52 | a map node emits `fn(p)` for every payload, in order |
| Events.FilterKeepsSatisfying | Effector/Event.swift:70-85 | a filter node emits exactly the payloads that satisfy the predicate, in order |
| Events.FilterMapDropsNil | Effector/Event.swift:87-107 | a filterMap node emits the non-nil results of `fn`, in order |
| Events.FilterMapRun | Effector/Event.swift:87-107 | one payload passes exactly when `fn` does not give nil, and then carries `fn`'s result |
| Events.PrependRun | Effector/Event.swift:54-68 | calling the prepended event with `b` runs its prepend node, and a watcher of the original event logs `fn(b)`; no cell changes |
| Events.WatchReceives | Effector/Event.swift:29-36 | a watcher node logs every payload it receives |
| Stores.StoreInitBuilt | Effector/Store.swift:6-42 | the nodes created one by one are the four-node store graph |
| Stores.NewStore | Effector/Store.swift:6-42 | updates and reinit events, the store node with a filter and an assign step, and, for a non-derived store, a reset on reinit; the cell holds the default |
| Stores.SetState | Effector/Store.swift:109-111 | launches the store node with the state; the queue then evolves as `exec` promises and the cells are the replay of the run |
| Stores.Watch | Effector/Store.swift:62-73 | the watcher logs the current state now and observes every later update at effect priority |
| Stores.On | Effector/Store.swift:76-103 | a pure node from the units computing `fn(currentState, payload)` into the store (fatal on a derived store) |
| Stores.Reset | Effector/Store.swift:113-125 | `on` with a reducer returning the default state |
| Stores.Map | Effector/Store.swift:127-141 | a derived store seeded with `fn(currentState)`, fed by a pure node from the store |
| Stores.Erased | Effector/Store.swift:143-159 | a derived store seeded with the current state, fed from the store |
| Stores.StoreWrite | Effector/Store.swift:17-36 | a value `areEqual` to the state is stopped; any other value is assigned and passed on |
| Stores.StoreHoldsLastWrite | Effector/Store.swift:17-36 | stopped or assigned, the store holds a value equal to the last write |
| Stores.StoreDedup | Effector/Store.swift:182-192 | rewriting the same hashable state is stopped, and a non-hashable value is never stopped |
| Stores.OnComputes | Effector/Store.swift:163-179 | an `on` node hands `fn(currentState, payload)` to its store |
| Stores.ResetRestoresDefault | Effector/Store.swift:113-125 | a reset node hands the default state to its store, whatever the payload |
| Stores.MappedStoreFollows | Effector/Store.swift:127-141 | once the source took `v`, the mapped store holds a value equal to `fn(v)` |
| Stores.DeliverWrites | Effector/Store.swift:163-179 | together they write `fn(currentState, payload)` into the cell |
| Stores.SetStateRun | Effector/Store.swift:17-36 | a drained run from a store whose only successor is its step-less updates event leaves exactly the written value in the cell |
| Stores.DerivedRun | Effector/Store.swift:127-141 | a drained run through a store, its updates event, one pure or combine node and a derived store leaves the written value and its image in the two cells, whichever of `updates` and that node comes first among the store's successors |
| Stores.ErasedRun | Effector/Store.swift:143-159 | a drained `setState(v)` on a store with an erased copy, whose node is first among the store's successors, leaves `v` in both |
| Stores.MapRun | Effector/Store.swift:127-141 | a drained `setState(v)` on a mapped store leaves `v` in the store and `fn(v)` in the mapped store |
| Stores.SetStateScenario | Tests/EffectorTests/StoreTests.swift:5-11 | a store created with 0 holds 1 after a drained `setState(1)` |
| Stores.SetStateScenarioRun | Tests/EffectorTests/StoreTests.swift:5-11 | the run of `setState(1)` on that store leaves the cells `[1]` |
| Stores.MapScenario | Tests/EffectorTests/StoreTests.swift:50-65 | a store at 1 mapped by `$0 + 1` holds 2 and the mapped store 3 after a drained write of 2 |
| Stores.MapScenarioRun | Tests/EffectorTests/StoreTests.swift:50-65 | the run of that write leaves the cells `[2, 3]` and the log unchanged |
| Effects.Finally | Effector/Effect.swift:63-76 | a completed run carries `done` exactly when the handler returned and `fail` exactly when it threw |
| Effects.StoreGraphBuilt | Effector/Effect.swift:15-20 | the effect node, inFlight and pending, created one by one, are the expected nodes |
| Effects.FinallyGraphBuilt | Effector/Effect.swift:22-43 | finally and its derived done, fail, doneData and failData events, created one by one, are the expected nodes |
| Effects.EffectNodesBuilt | Effector/Effect.swift:12-106 | the whole effect graph, including the two inFlight reducers, is the expected twenty nodes |
| Effects.WireStores | Effector/Effect.swift:15-20 | the effect node, an inFlight store at 0 and pending mapped from it |
| Effects.WireEvents | Effector/Effect.swift:22-47 | finally, done, fail, doneData, failData, and inFlight's `+1` and `-1` reducers |
| Effects.EffectUnit.constructor | Effector/Effect.swift:12-106 | the effect's twenty nodes and two cells with the given handler |
| Effects.EffectUnit.Run | Effector/Effect.swift:138-152 | launches the effect's node with the params; the queue then evolves as `exec` promises and the cells and log are the replay of the run |
| Effects.EffectUnit.Settle | Effector/Effect.swift:62-77 | launches finally with the current handler's completion on the params; the queue then evolves as `exec` promises and the cells and log are the replay of the run |
| Effects.EffectUnit.Use | Effector/Effect.swift:154-156 | the current handler becomes the new one; nothing else changes |
| Effects.EffectUnit.Watch | Effector/Effect.swift:163-174 | an effect-priority node after the effect's node |
| Effects.EffectUnit.Prepend | Effector/Effect.swift:176-190 | a callable event whose mapped payloads run the effect through a child node |
| Effects.RunStartsHandler | Effector/Effect.swift:49-105 | the effect's node logs the handler's start and passes the params on |
| Effects.InFlightCounts | Effector/Effect.swift:45-47 | a run raises inFlight by one and a settled run lowers it by one |
| Effects.PendingFollowsInFlight | Effector/Effect.swift:20 | after inFlight took `k`, pending holds `k > 0` |
| Effects.FinallyRoutes | Effector/Effect.swift:24-43 | a completed run reaches exactly one of done and fail, and doneData/failData carry its second part |
| Effects.RunRaisesPending | Effector/Effect.swift:45-46 | a drained run of the effect's node with inFlight at `k` logs the start and leaves inFlight at `k + 1` and pending at `k + 1 > 0` |
| Effects.SettleLowersPending | Effector/Effect.swift:62-77 | a drained run of finally, done or failed, with inFlight at `k` leaves inFlight at `k - 1`, pending at `k - 1 > 0` and the log unchanged |
| Effects.CountRun | Effector/Effect.swift:45-47 | a drained run of an inFlight reducer node leaves inFlight at its new count and pending at whether it is positive |
| Effects.FinallyFansOut | Effector/Effect.swift:22-47 | finally changes nothing and queues its value for done's filterMap, fail's filterMap and inFlight's decrement |
| Effects.DoneRoute | Effector/Effect.swift:24-47 | from those three queued entries, a done outcome runs through done and doneData, is stopped at fail, and the drained run leaves inFlight at `k - 1`, pending at `k - 1 > 0` and the log unchanged |
| Effects.FailRoute | Effector/Effect.swift:24-47 | from those three queued entries, a fail outcome is stopped at done, runs through fail and failData, and the drained run leaves inFlight at `k - 1`, pending at `k - 1 > 0` and the log unchanged |
| Effects.PendingScenario | Tests/EffectorTests/EffectTests.swift:123-132 | pending is true after a drained run of a fresh effect and false again after the run settles |
| Effects.PendingRaised | Tests/EffectorTests/EffectTests.swift:123-132 | the run of the fresh effect leaves the cells `[1, true]` |
| Effects.PendingLowered | Tests/EffectorTests/EffectTests.swift:123-132 | its settling, whatever the outcome, leaves the cells `[0, false]` |
| Combining.Combine | Effector/Combine.swift:3-147 | a derived store seeded with `fn` of the operands' states, fed by one combine-priority node after every operand |
| Combining.CombineFollows | Effector/Combine.swift:14 | the combine node ignores its payload and hands `fn` of the operands' current states to its store |
| Combining.RepeatedCombineAbsorbed | Effector/Combine.swift:14 | a combine node reached again in the same run hands the same value, which the store then stops when it is hashable |
| Combining.CombineRun | Effector/Combine.swift:3-147 | a drained write `v` to an operand store leaves `v` in its cell and `fn` of the operands' new states in the combined store |
| Combining.CombineScenario | Tests/EffectorTests/CombineTests.swift:7-24 | stores at 1, 2 and 0 combine to 3, and after the first is set to 10 the combined store holds 12 |
| Combining.CombineScenarioRun | Tests/EffectorTests/CombineTests.swift:7-24 | the run of that write leaves the cells `[10, 2, 0, 12]` |
| Combining.CombineOnce | Effector/Combine.swift:3-147 | a write `v` to a store that feeds a combine both directly and through a `map` of it: an equal `v` changes nothing; otherwise the store, the mapped store and the combined store hold `v`, `f(v)` and `fn([v, f(v)])`, and the watcher of the combined store is called at most once, with the new value, although the combine node runs twice |
| Combining.CombineBarrierScenario | Tests/EffectorTests/CombineTests.swift:26-57 | a store at 1 and its `+ 1` map, combined by their sum and watched: the watcher sees 3 and, after the store is set to 2, only 5 more |
| Combining.BarrierScenarioRun | Tests/EffectorTests/CombineTests.swift:26-57 | the run of that write leaves the cells `[2, 3, 5]` and adds one watcher call, with 5 |
| Merging.Merge | Effector/Merge.swift:1-13 | a derived event fed by one effect-priority node, with no steps, after every operand |
| Merging.MergeRun | Effector/Merge.swift:1-13 | a drained run from an operand reaches the merged event through the merge node, and a watcher of the merged event logs the payload; no cell changes |
| Merging.MergeScenario | Tests/EffectorTests/MergeTests.swift:5-20 | after `event1(1)` and `event2(2)` the merged event's watcher has seen 1 and then 2 |
| Merging.MergeScenarioRun | Tests/EffectorTests/MergeTests.swift:5-20 | a run from either event appends one watch signal for its payload |
| Forwarding.Forward | Effector/Forward.swift:1-8 | one child-priority node named `forward`, with no steps, after every `from`, with `to` as its successors |
| Forwarding.ForwardUnit | Effector/Forward.swift:10-20 | the single-unit overloads are the list form on singleton lists |
| Forwarding.ForwardIntoStore | Effector/Forward.swift:1-8 | the forward node hands each payload unchanged to the store it feeds |
| Restoring.Restore | Effector/Restore.swift:1-7 | a non-derived store `<event>:restore` at `initial`, with an `on` node from the event taking the payload |
| Restoring.RestoreOptional | Effector/Restore.swift:9-15 | the same starting at nil |
| Restoring.RestoreHoldsLast | Effector/Restore.swift:1-15 | after the event fired with payloads `ps`, the store holds the last one |
| Negation.Negate | Effector/Store+not.swift:3 | the result is a flag, the negation of a flag input |
| Negation.Not | Effector/Store+not.swift:1-5 | a derived store seeded with the negated state, fed by a pure node from the store |
| Negation.NotFollows | Effector/Store+not.swift:3 | after the source accepts `b`, the negated store holds `!b` |
| Gates.GateNodesBuilt | Effector/Gate.swift:6-21 | the gate's nodes, created one by one, are the expected fourteen nodes |
| Gates.OnOpenClose | Effector/Gate.swift:7-13 | two reducer nodes on the store, the first from open, the second from close |
| Gates.GateUnits | Effector/Gate.swift:18-21 | state at nil, status at false, then the open and close events |
| Gates.NewGate | Effector/Gate.swift:6-21 | the four units, then status's and state's reducers on open and close |
| Gates.OneCall | Effector/Gate.swift:7-13 | `open(v)` sets status true and state `v`; `close()` sets status false and state nil |
| Gates.LastCallWins | Effector/Gate.swift:7-13 | after a run of calls the gate reflects the last one |
| Attaching.Attach | Effector/Attach.swift:2-14 | a derived effect named `attach` unless named, whose handler is the captured handler on mapped params |
| Attaching.AttachSame | Effector/Attach.swift:16-21 | the identity overload: always named `attach`, and its handler gives what the captured handler gives on the same states and params |
| Attaching.AttachStore | Effector/Attach.swift:23-33 | a derived effect whose handler reads the store's state when it runs |
| Attaching.AttachStoreMapped | Effector/Attach.swift:35-48 | a derived effect running the captured handler on `map(state, params)` |
| Attaching.UseAfterAttach | Effector/Attach.swift:2-14 | a later `use` on the origin does not change the attached effect's handler |
| Attaching.AttachTwice | Effector/Attach.swift:2-14 | attaching to an attached effect runs the origin's handler of the first attach on the params mapped by the outer mapping, then the inner one |
| Attaching.MappedParamsScenario | Tests/EffectorTests/AttachTests.swift:21-28 | an effect returning its params, attached with `{ $0 + 10 }`, resolves to 11 when called with 1 |
| Attaching.StoreReadAtCall | Effector/Attach.swift:23-48 | the store overloads see the state the store holds when the handler runs |
| Attaching.AttachedSettles | Effector/Attach.swift:42-45 | the completion that `Settle` launches `finally` with, for a store-mapped attached effect, is the captured handler's outcome on `mapping(state, params)` |
| Attaching.AttachedIsolated | Effector/Attach.swift:9-13 | an attached effect's nodes only lead to each other, so the origin's watchers do not fire |
| LegacyNodes.Lower | Sources/SwiftEffector/Node.swift:26-32 | each legacy tag runs at the kernel priority with its raw value (link at 4) |
| LegacyNodes.LowerKeepsOrder | Sources/SwiftEffector/Node.swift:26-32 | the mapping keeps the tags' order and tells them apart |
| LegacyStores.NewStore | Sources/SwiftEffector/Store.swift:6-33 | an updates event and a node named `store` with one always-assigning step; no reinit |
| LegacyStores.SetState | Sources/SwiftEffector/Store.swift:96-98 | launches the store node with the state; the queue then evolves as `exec` promises and the cells and log are the replay of the run |
| LegacyStores.Watch | Sources/SwiftEffector/Store.swift:49-60 | the watcher logs the current state now and observes later updates at effect priority |
| LegacyStores.On | Sources/SwiftEffector/Store.swift:63-90 | a pure node from the units computing `fn(currentState, payload)` (fatal on a derived store) |
| LegacyStores.Reset | Sources/SwiftEffector/Store.swift:100-112 | `on` with a reducer returning the default state |
| LegacyStores.Map | Sources/SwiftEffector/Store.swift:114-128 | a derived store seeded with `fn(currentState)`; the node's default name ends in `:reset` |
| LegacyStores.AlwaysAssigns | Sources/SwiftEffector/Store.swift:15-32 | the step writes every value and passes it on, because the unlabelled `areEqual` is always false |
| LegacyStores.EqualWriteStillUpdates | Sources/SwiftEffector/Store.swift:29-32 | a hashable value equal to the state still passes, where the newer store stops it |
| LegacyStores.MappedFollows | Sources/SwiftEffector/Store.swift:114-128 | once the source took `v`, the mapped store holds `fn(v)` |
| LegacyOperators.Gather | Sources/SwiftEffector/Combine.swift:1-24 | a derived store seeded with `fn` of the states, fed by one combine-priority node after every operand |
| LegacyOperators.Combine | Sources/SwiftEffector/Combine.swift:1-50 | 2- and 3-ary `combine`: a store named `combine` as above |
| LegacyOperators.Every | Sources/SwiftEffector/AllSatisfy.swift:2-6 | true exactly when every value satisfies `fn` |
| LegacyOperators.Any | Sources/SwiftEffector/AllSatisfy.swift:23-27 | true exactly when some value satisfies `fn` |
| LegacyOperators.AllSatisfy | Sources/SwiftEffector/AllSatisfy.swift:1-20 | a derived store seeded with `Every`, fed by a combine node after every operand |
| LegacyOperators.Contains | Sources/SwiftEffector/AllSatisfy.swift:22-41 | a derived store seeded with `Any`, fed the same way |
| LegacyOperators.EveryIsNotSomeNot | Sources/SwiftEffector/AllSatisfy.swift:1-41 | all-of-none is true and any-of-none is false; all satisfy exactly when none fails |
| LegacyOperators.GatherFollows | Sources/SwiftEffector/AllSatisfy.swift:8-29 | the node ignores its payload and hands all-of or any-of the current states |
| LegacyOperators.TargetIds | Sources/SwiftEffector/Sample.swift:26-30 | the successors are the fresh event, then the target if given |
| LegacyOperators.Route | Sources/SwiftEffector/Sample.swift:26-39 | a derived event and a tag-4 node after the trigger, feeding it and the target |
| LegacyOperators.SourcedLink | Sources/SwiftEffector/Sample.swift:1-42 | with a source: an optional filter against its state, then the mapping or the state |
| LegacyOperators.PlainLink | Sources/SwiftEffector/Sample.swift:44-86 | without a source: the filter and the mapping, each only if given |
| LegacyOperators.SourcedRun | Sources/SwiftEffector/Sample.swift:14-24 | a payload passes exactly when there is no filter or the filter accepts the state and payload, and then carries the mapping or the state |
| LegacyOperators.PlainRun | Sources/SwiftEffector/Sample.swift:56-68 | a payload passes exactly when there is no filter or it accepts, and then carries the mapped or unchanged payload |
| LegacyOperators.SampleExample | Tests/EffectorTests/EffectorTests.swift:396-414 | with source 1, filter `s + p > 0` and map `s + p`, payloads -10 then 1 emit only 2 |
| Validators.DropLeading | EffectorForms/Validator.swift:88-94 | a suffix whose dropped prefix is all whitespace and which does not start with whitespace |
| Validators.DropTrailing | EffectorForms/Validator.swift:88-94 | a prefix whose dropped suffix is all whitespace and which does not end with whitespace |
| Validators.TrimBlank | EffectorForms/Validator.swift:34-38 | trimming leaves nothing exactly when every character is whitespace |
| Validators.TrimKeepsLength | EffectorForms/Validator.swift:88-94 | trimming keeps the length exactly when the string is empty or neither starts nor ends with whitespace |
| Validators.RequiredRule | EffectorForms/Validator.swift:34-38 | `required` passes exactly when some character is not whitespace, else answers the caller's text or "Required" |
| Validators.TrimRule | EffectorForms/Validator.swift:88-94 | `trim` passes exactly when the string neither starts nor ends with whitespace |
| Validators.LengthRules | EffectorForms/Validator.swift:40-62 | `length` is exact, `min` and `max` are inclusive, and the names are fixed |
| Validators.BoundRules | EffectorForms/Validator.swift:98-120 | integer `min`/`max` are inclusive, `moreThan`/`lessThan` strict, and the names are fixed |
| Validators.CallerTextForText | EffectorForms/Validator.swift:34-94 | a failing string rule answers the caller's text when one is given |
| Validators.CallerTextForBounds | EffectorForms/Validator.swift:98-120 | a failing integer rule answers the caller's text when one is given |
| FormFields.ValidationErrors | EffectorForms/EffectorFormField.swift:228-250 | at most one error per rule |
| FormFields.CombineValidationRules | EffectorForms/EffectorFormField.swift:228-250 | the loop over the rules gives one error per failing rule, in rule order, with the rule's name, the value and the text |
| FormFields.NoErrorsIffAllPass | EffectorForms/EffectorFormField.swift:233-246 | no errors exactly when every rule passes, so none for no rules |
| FormFields.FirstErrorIsFirstFailure | EffectorForms/EffectorFormField.swift:233-246 | the first error comes from the first failing rule, and every rule before it passes |
| FormFields.FirstError | EffectorForms/EffectorFormField.swift:18 | nil exactly when there are no errors, else the first |
| FormFields.IsValid | EffectorForms/EffectorFormField.swift:20 | valid exactly when there are no errors |
| FormFields.IsDirty | EffectorForms/EffectorFormField.swift:22 | dirty exactly when the value differs from the initial one |
| FormFields.InitialFlags | EffectorForms/EffectorFormField.swift:8-45 | a new field has no errors and is valid, clean, untouched and at its initial value |
| FormFields.ChangeGated | EffectorForms/EffectorFormField.swift:141-152 | `change` reaches the value only while the filter is true, and then touches the field |
| FormFields.ChangeErrors | EffectorForms/EffectorFormField.swift:196-225 | without the change trigger a change clears the errors; with it they are those of the new value |
| FormFields.ChangeBackIsClean | EffectorForms/EffectorFormField.swift:151-152 | changing back to the initial value leaves the field clean |
| FormFields.EventEffects | EffectorForms/EffectorFormField.swift:141-164 | resets clear touched and restore the value; validation replaces errors; `addError` appends one; error resets empty them |
| FormFields.ValidAfterPassingValidation | EffectorForms/EffectorFormField.swift:202-219 | a field whose rules all pass is valid after any validation |
| Forms.FieldConfig | EffectorForms/EffectorForm.swift:35-46 | the convenience overloads validate on submit only and keep the name, initial value and rules |
| Forms.SingleRule | EffectorForms/EffectorForm.swift:49-65 | no rule when none is given, else the one rule named after the field |
| Forms.Form.constructor | EffectorForms/EffectorForm.swift:8-11 | a form with its triggers, no fields and no build yet |
| Forms.Form.Register | EffectorForms/EffectorForm.swift:73-102 | appends the field, in order, to the flags and to the pending validations |
| Forms.Form.RegisterRules | EffectorForms/EffectorForm.swift:34-46 | registers a field with the given rules, validated on submit |
| Forms.Form.RegisterRule | EffectorForms/EffectorForm.swift:48-65 | registers a field with its single optional rule |
| Forms.Form.Build | EffectorForms/EffectorForm.swift:104-146 | wires every pending validation and empties the list, keeping the fields, and counts one more build |
| Forms.Form.Send | EffectorForms/EffectorForm.swift:104-146 | on a form built exactly once with no validation left pending, an event changes the fields' states and fires `submitted`/`validated` as `Forms.Step` says; a field event carries only the field's own events |
| Forms.ValidFlags | EffectorForms/EffectorForm.swift:75 | one `isValid` flag per field, in registration order |
| Forms.DirtyFlags | EffectorForms/EffectorForm.swift:76 | one `isDirty` flag per field, in registration order |
| Forms.TouchedFlags | EffectorForms/EffectorForm.swift:77 | one `isTouched` flag per field, in registration order |
| Forms.MetaMeans | EffectorForms/EffectorForm.swift:108-114 | the form is valid exactly when every field has no errors, dirty when some field differs from its initial value, touched when some field is touched |
| Forms.Broadcast | EffectorForms/EffectorForm.swift:80-99 | a form event reaches every registered field |
| Forms.ValidatedAllValid | EffectorForms/EffectorFormField.swift:202-219 | after a validation every field is valid exactly when every rule of every field passes |
| Forms.SubmitGate | EffectorForms/EffectorForm.swift:121-137 | `submitted` fires on submit exactly when the filter is on and every field is valid after the submit's validation, carrying the form's values; with submit validation, exactly when every rule passes |
| Forms.ValidateGate | EffectorForms/EffectorForm.swift:126-143 | `validated` fires on validate exactly when the filter is on and every rule of every field passes |
| Forms.ResetFormRestores | EffectorForms/EffectorFormField.swift:143-164 | `resetForm` puts every field back to its initial state, so the meta is (valid, clean, untouched) |
| Forms.FieldEventIsLocal | EffectorForms/EffectorFormField.swift:134-226 | a field's own event leaves the other fields alone and fires neither `submitted` nor `validated` |

The older `Sources/SwiftEffector/Merge.swift:1-13` is the same as the current
one, so `Merging.Merge` and `Merging.MergeRun` model both. The older
`Sources/SwiftEffector/AreEqual.swift:2-8` is modelled by
`Equality.Equatable` (the labelled overload) and `Equality.Unconstrained` (the
unlabelled one, the only one an unlabelled call can bind). The older
`createNode` (`Sources/SwiftEffector/Node.swift:61-85`) appends to each source
unit's node and takes the target units' nodes in order. That is what
`Kernel.Runtime.CreateNode` does on node ids. The older variant has no
`prependNext` and no `clear`, and its operators never call them.

`Effects.DeriveFilterMap`, `Effects.DeriveMap` and `Effects.WireOutcomes` are
the wiring steps that `Effects.WireEvents` is built from. They add the
`filterMap` and `map` events of `Effector/Effect.swift:24-43` and have no rows
of their own. The scenario members (`Stores.SetStateScenario`,
`Stores.MapScenario`, `Combining.CombineScenario`, `Combining.CombineBarrierScenario`,
`Effects.PendingScenario`, `Merging.MergeScenario`,
`Attaching.MappedParamsScenario`) replay the named tests on a fresh runtime.
Each is split into a builder method, a lemma about the drained run and, where
needed, a lemma about the built graph.

`Effector/Kernel.swift:1-24` has no per-run de-duplication: every successor
is queued once per edge (`Kernel.SuccessorMultiplicity`). A combine node
reached twice re-reads the same operands, so the two runs hand the same value,
and the combined store's dedup filter stops the second one when the value is
hashable (`Combining.RepeatedCombineAbsorbed`). `testCombineBarrier`
(`Tests/EffectorTests/CombineTests.swift:26-57`) still expects one update per
write for that reason: `Combining.CombineOnce` proves it for a whole run, and
`Combining.CombineBarrierScenario` replays the test on two operands.

## Left out

- The lock in `Queue` and the main-thread hop in the store's assign step. The model is single-threaded.
- Swift's `async` effects. The handler is a function of the store cells and the params giving `Resolved` or `Rejected`. `EffectUnit.Run` records the start of the handler. `EffectUnit.Settle` is the moment the handler's Swift `Task` completes and launches `finally`. The continuation that resumes the caller is not modelled.
- `Effects.EffectUnit.Run`: the `enqueuer`/`runner` nodes and the nested `launch` that `enqueueRunner` makes inside a step are not modelled. The effect node's step logs the start directly.
- `Kernel.Runtime.Exec`, `Kernel.Runtime.Launch` and every method that launches: they take a `fuel` bound on the number of dequeued entries, because `exec` does not terminate on a cyclic graph. A run that uses up its fuel returns with the queue not yet drained.
- `eraseCompute` and the force casts: a payload of the wrong type would crash the source. The model has one payload type, so that crash cannot be expressed.
- The JSON `combine(_ stores: [Store<Any>])` (`Effector/Combine.swift:149-187`). It decodes through `JSONDecoder`. The form's `values` store is taken as given: it is the `values` field of `Forms.Env`.
- `Mirror` reflection:
  - `setForm` picking a field's value out of the form's values is the `pick` parameter;
  - `checkRegisteredFields` is not modelled (`EffectorForms/EffectorForm.swift:163-173`). It reflects on the metatype, which has no children, and `registeredFields` is never filled, so as written it never fails.
- `Validators.Length`, `Validators.TextMin` and `Validators.TextMax`: a string's `count` (grapheme clusters) is modelled as the number of characters.
- `Validators.IsWhitespace` is the Unicode White_Space set, standing for Foundation's `.whitespacesAndNewlines`.
- Regular-expression validators and the other string rules outside the built-ins listed above.
- Integer overflow in `Effects.Increment`/`Effects.Decrement` and in the numeric validators: Swift's `Int` traps at 64 bits, and the model uses unbounded integers.
- SwiftUI views (`Gate.view`, field bindings) and `Debug`, `Domain`, `Use`, `AllSettled`, which are outside the modelled core.
- `Attaching.AttachSame`: the identity overload drops the caller's name (`Effector/Attach.swift:20` passes only the effect), so the attached effect is always named `attach`. The model keeps that behaviour.
- `LegacyOperators.SourcedLink` and `LegacyOperators.PlainLink` stand for both `sampleBase` and `linkBase`:
  - the older `Sample.swift` uses a `.sample` tag that the older `PriorityTag` does not declare;
  - the model runs both at raw value 4, the slot `.link` has;
  - the public `sample`/`link` overloads (`Sample.swift:88-266`, `Link.swift:88-266`) only choose among the base functions' optional arguments.
- The older `Event.swift` and `Kernel.swift` are not part of this model. The older operators run on the current kernel and events.
- `Forms.Form`: all fields of a form share one value type `T`. The form's graph of stores, samples and merges is modelled as one state transition per event (`FormFields.Next`, `Forms.Step`), not as kernel nodes.
- `Forms.Form.Send` requires a form built exactly once with no pending validation, and `Forms.Step` is the behaviour of such a form. Not modelled: events sent before `build`, when submit and validate do not reach the fields; a field registered after `build`, which is never validated and is not counted in the form's `isValid`, `isDirty` and `isTouched` (those were combined from the flags at `build`, `EffectorForms/EffectorForm.swift:104-119`); and a second `build`, which wires a second `submitted`/`validated` chain so that each submit fires `submitted` twice.
- `FormFields.Next`: the field's `setValue` event is declared but never wired in `EffectorForms/EffectorFormField.swift`, so it changes nothing.
- `FormFields.Next`: field errors do not record which trigger produced them, matching the source.
- `Equality.EqualityPaths`: reflexivity is stated for the model's values, whose `==` is Dafny's equality. Swift's `==` on floating point is not reflexive for NaN, and the model has no floating-point values.
- The `areEqual` overload for class instances (`Effector/AreEqual.swift:5-7`, identity `===`). The model's payloads are values, not references, so no call can reach it.
- `Stores.Reset` and `LegacyStores.Reset`: the reducer holds the store's `defaultState` as it is when `reset` is called, while the source reads `self.defaultState` when the reducer runs. Nothing in the modelled core assigns `defaultState` after `init`, so the two agree on every modelled run.
- `Stores.MapScenario`: the test feeds the store through `on(inc) { n, _ in n + 1 }` and an event; the model writes 2 with `setState`, which reaches the store node with the same value.
- `Combining.CombineScenario`: the test routes `event(10)` into the first store through `on`; the model writes 10 with `setState` on that store.
- `Combining.CombineOnce`: the one-call promise needs a hashable combined value. A non-hashable one is written by both combine runs, so the watcher is called twice.
- `Combining.CombineBarrierScenario`: the test combines six stores (two plain ones and four maps, one of them of the first store); the model combines one store with its map, which is the part of the graph that reaches the combine node twice. It writes 2 to a store at 1, as `testStoreMap` does, instead of the test's two writes.
- `Merging.MergeScenario`: the test's store that sums the merged payloads through `on(merged)` is not built; the watcher's log is checked.
- `Effects.PendingScenario`: the test watches `pending` and expects the log `[false, true, false]`; the model reads the `pending` cell after the run and after the settling instead of installing a watcher.
- `Events.Keep`: the order of the kept payloads is given by its definition (a left-to-right filter); the contract states soundness and multiplicity, not order.
