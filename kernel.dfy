// The propagation kernel (Effector/Kernel.swift) and the shared graph it
// runs on (Effector/Node.swift). One `Runtime` object stands for the
// process-wide state of the source: every node ever created (indexed by
// id, ids follow creation order), the current state of every store, the
// observable calls made by watchers and effects, and the shared queue.

module Kernel {
  import opened Values
  import opened Nodes
  import opened WorkQueue
  import opened Optional
  import Equality

  /** An observable call made by a step: a watcher receiving a value, or an
      effect handing its params to its asynchronous handler. */
  datatype Signal = Watched(watcher: nat, value: Value) | Started(effect: nat, params: Value)

  /** What running a pipeline produced: whether every filter let the value
      through, the carried value, and the store cells and signal log after
      the steps that ran. */
  datatype Outcome = Outcome(passed: bool, value: Value, states: seq<Value>, log: seq<Signal>)

  /** The current states of the given cells, in order. */
  function Read(states: seq<Value>, cells: seq<nat>): (r: seq<Value>)
    requires IdsBelow(cells, |states|)
    ensures |r| == |cells| && forall i :: 0 <= i < |cells| ==> r[i] == states[cells[i]]
  {
    seq(|cells|, i requires 0 <= i < |cells| => states[cells[i]])
  }

  predicate IsFilter(s: Step) {
    s.Filter? || s.StoreFilter? || s.SourceFilter?
  }

  predicate Writes(s: Step) {
    s.Assign? || s.LegacyAssign?
  }

  predicate Signals(s: Step) {
    s.Observe? || s.Spawn?
  }

  /** One step. Only filter steps can stop the value, only assign steps
      write a store cell, only watcher and effect steps add a signal. */
  function RunStep(s: Step, value: Value, states: seq<Value>, log: seq<Signal>): (r: Outcome)
    requires StepFits(s, |states|)
    ensures |r.states| == |states|
    ensures !r.passed ==> IsFilter(s) && r.value == value && r.states == states && r.log == log
    ensures r.states != states ==> Writes(s)
    ensures r.log != log ==> Signals(s) && |r.log| == |log| + 1 && r.log[..|log|] == log
  {
    match s
    case Compute(f) => Outcome(true, f(value), states, log)
    case Filter(p) => Outcome(p(value), value, states, log)
    case StoreFilter(c) => Outcome(!AreEqual(value, states[c]), value, states, log)
    case Assign(c) => Outcome(true, value, states[c := value], log)
    case LegacyAssign(c) =>
      Outcome(true, value, if !Equality.Unconstrained(states[c], value) then states[c := value] else states, log)
    case Reduce(c, f) => Outcome(true, f(states[c], value), states, log)
    case ReadStores(cs, f) => Outcome(true, f(Read(states, cs)), states, log)
    case SourceFilter(c, p) => Outcome(p(states[c], value), value, states, log)
    case SourceMap(c, f) => Outcome(true, f(states[c], value), states, log)
    case Observe(w) => Outcome(true, Void, states, log + [Watched(w, value)])
    case Spawn(e) => Outcome(true, value, states, log + [Started(e, value)])
  }

  /** A node's pipeline: steps run in order, each compute replaces the
      value, and the first filter that fails ends the run. */
  function RunSteps(steps: seq<Step>, value: Value, states: seq<Value>, log: seq<Signal>): (r: Outcome)
    requires StepsFit(steps, |states|)
    ensures |r.states| == |states|
    ensures |log| <= |r.log| && r.log[..|log|] == log
    ensures (forall i :: 0 <= i < |steps| ==> !IsFilter(steps[i])) ==> r.passed
    ensures (forall i :: 0 <= i < |steps| ==> !Writes(steps[i])) ==> r.states == states
    decreases |steps|
  {
    if steps == [] then Outcome(true, value, states, log)
    else
      var o := RunStep(steps[0], value, states, log);
      if !o.passed then o
      else
        assert forall i :: 0 <= i < |steps[1..]| ==> steps[1..][i] == steps[i + 1];
        RunSteps(steps[1..], o.value, o.states, o.log)
  }

  /** Running `a ++ b` is running `a`, then, if it passed, running `b` on
      its result. */
  lemma {:induction false} RunStepsAppend(a: seq<Step>, b: seq<Step>, value: Value, states: seq<Value>, log: seq<Signal>)
    requires StepsFit(a, |states|) && StepsFit(b, |states|)
    ensures StepsFit(a + b, |states|)
    ensures var o := RunSteps(a, value, states, log);
            RunSteps(a + b, value, states, log)
            == if o.passed then RunSteps(b, o.value, o.states, o.log) else o
    decreases |a|
  {
    assert StepsFit(a + b, |states|) by {
      forall i | 0 <= i < |a + b| ensures StepFits((a + b)[i], |states|) {
        if i >= |a| { assert (a + b)[i] == b[i - |a|]; }
      }
    }
    if a != [] {
      assert (a + b)[0] == a[0];
      assert (a + b)[1..] == a[1..] + b;
      var o := RunStep(a[0], value, states, log);
      if o.passed {
        assert StepsFit(a[1..], |states|) by {
          forall i | 0 <= i < |a[1..]| ensures StepFits(a[1..][i], |states|) {
            assert a[1..][i] == a[i + 1];
          }
        }
        RunStepsAppend(a[1..], b, o.value, o.states, o.log);
      }
    } else {
      assert a + b == b;
    }
  }

  /** A one-step pipeline is that step. */
  lemma SingleStep(s: Step, value: Value, states: seq<Value>, log: seq<Signal>)
    requires StepFits(s, |states|)
    ensures StepsFit([s], |states|)
    ensures RunSteps([s], value, states, log) == RunStep(s, value, states, log)
  {
    assert [s][1..] == [];
  }

  /** A pipeline with no steps passes the payload through unchanged. */
  lemma EmptyPipelineForwards(value: Value, states: seq<Value>, log: seq<Signal>)
    ensures RunSteps([], value, states, log) == Outcome(true, value, states, log)
  {
  }

  /** A filter that rejects the carried value ends the run there: the steps
      after it have no effect and the outcome is a stop. */
  lemma FilterStops(before: seq<Step>, p: Value -> bool, after: seq<Step>,
                    value: Value, states: seq<Value>, log: seq<Signal>)
    requires StepsFit(before, |states|) && StepsFit(after, |states|)
    requires var o := RunSteps(before, value, states, log); o.passed && !p(o.value)
    ensures StepsFit(before + [Filter(p)] + after, |states|)
    ensures var o := RunSteps(before, value, states, log);
            RunSteps(before + [Filter(p)] + after, value, states, log)
            == Outcome(false, o.value, o.states, o.log)
  {
    assert StepsFit([Filter(p)] + after, |states|) by {
      forall i | 0 <= i < |[Filter(p)] + after| ensures StepFits(([Filter(p)] + after)[i], |states|) {
        if i > 0 { assert ([Filter(p)] + after)[i] == after[i - 1]; }
      }
    }
    assert before + [Filter(p)] + after == before + ([Filter(p)] + after);
    RunStepsAppend(before, [Filter(p)] + after, value, states, log);
    var o := RunSteps(before, value, states, log);
    assert ([Filter(p)] + after)[0] == Filter(p);
  }

  /** What a node passes on when it receives each payload in turn, with
      the store cells as given (the pipelines this is used for neither
      write cells nor read them between payloads). */
  function Emitted(steps: seq<Step>, payloads: seq<Value>, states: seq<Value>): (r: seq<Value>)
    requires StepsFit(steps, |states|)
    ensures |r| <= |payloads|
  {
    if payloads == [] then []
    else
      var o := RunSteps(steps, payloads[0], states, []);
      (if o.passed then [o.value] else []) + Emitted(steps, payloads[1..], states)
  }

  /** The queue entries for a node's successors, in `next` order. */
  function Successors(nodes: seq<Node>, next: seq<nat>, value: Value): (r: seq<Entry>)
    requires IdsBelow(next, |nodes|)
    ensures |r| == |next|
    ensures forall i :: 0 <= i < |next| ==> r[i] == Entry(next[i], nodes[next[i]].priority, value)
  {
    seq(|next|, i requires 0 <= i < |next| => Entry(next[i], nodes[next[i]].priority, value))
  }

  /** There is no de-duplication: a successor listed k times is queued k
      times. */
  lemma {:induction false} SuccessorMultiplicity(nodes: seq<Node>, next: seq<nat>, value: Value, k: nat)
    requires IdsBelow(next, |nodes|) && k < |nodes|
    ensures multiset(Successors(nodes, next, value))[Entry(k, nodes[k].priority, value)] == Occurrences(next, k)
    decreases |next|
  {
    if next != [] {
      var rest := next[1..];
      assert IdsBelow(rest, |nodes|) by {
        forall i | 0 <= i < |rest| ensures rest[i] < |nodes| { assert rest[i] == next[i + 1]; }
      }
      SuccessorMultiplicity(nodes, rest, value, k);
      var h := Entry(next[0], nodes[next[0]].priority, value);
      assert Successors(nodes, next, value) == [h] + Successors(nodes, rest, value);
      assert multiset(Successors(nodes, next, value)) == multiset{h} + multiset(Successors(nodes, rest, value));
      assert multiset{h}[Entry(k, nodes[k].priority, value)] == if next[0] == k then 1 else 0;
    }
  }

  /** One more successor id adds its entry to the queued multiset. */
  lemma SuccessorsSnoc(nodes: seq<Node>, next: seq<nat>, k: nat, value: Value)
    requires IdsBelow(next, |nodes|) && k < |next|
    ensures multiset(Successors(nodes, next[..k + 1], value))
            == multiset(Successors(nodes, next[..k], value)) + multiset{Entry(next[k], nodes[next[k]].priority, value)}
  {
    assert Successors(nodes, next[..k + 1], value)
           == Successors(nodes, next[..k], value) + [Entry(next[k], nodes[next[k]].priority, value)];
  }

  /** Every pipeline refers only to existing store cells. */
  predicate PipelinesFit(nodes: seq<Node>, cells: nat) {
    forall i :: 0 <= i < |nodes| ==> StepsFit(nodes[i].steps, cells)
  }

  /** Every entry of the trace names an existing node. */
  predicate IdsIn(trace: seq<Entry>, bound: nat) {
    forall k :: 0 <= k < |trace| ==> trace[k].id < bound
  }

  /** The state after running the entries of `trace` one after another. */
  function Replay(nodes: seq<Node>, trace: seq<Entry>, states: seq<Value>, log: seq<Signal>): (r: (seq<Value>, seq<Signal>))
    requires PipelinesFit(nodes, |states|) && IdsIn(trace, |nodes|)
    ensures |r.0| == |states|
    decreases |trace|
  {
    if trace == [] then (states, log)
    else
      var o := RunSteps(nodes[trace[0].id].steps, trace[0].value, states, log);
      Replay(nodes, trace[1..], o.states, o.log)
  }

  lemma {:induction false} ReplayAppend(nodes: seq<Node>, trace: seq<Entry>, e: Entry, states: seq<Value>, log: seq<Signal>)
    requires PipelinesFit(nodes, |states|)
    requires IdsIn(trace, |nodes|)
    requires e.id < |nodes|
    ensures var r := Replay(nodes, trace, states, log);
            var o := RunSteps(nodes[e.id].steps, e.value, r.0, r.1);
            Replay(nodes, trace + [e], states, log) == (o.states, o.log)
    decreases |trace|
  {
    if trace != [] {
      assert (trace + [e])[1..] == trace[1..] + [e];
      var o := RunSteps(nodes[trace[0].id].steps, trace[0].value, states, log);
      ReplayAppend(nodes, trace[1..], e, o.states, o.log);
    }
  }

  /** A run so far, from (states, log) to (s0, l0) and leaving the queue
      `last`, extended by a least entry `e` of `last`: the longer trace is
      a schedule, and its replay ends where `e` leaves (s0, l0). */
  lemma ExtendRun(nodes: seq<Node>, q: multiset<Entry>, trace: seq<Entry>, states: seq<Value>, log: seq<Signal>,
                  last: multiset<Entry>, e: Entry, s0: seq<Value>, l0: seq<Signal>)
    requires GraphFits(nodes, |states|) && IdsIn(trace, |nodes|) && Schedule(nodes, q, trace, states, log, last)
    requires (s0, l0) == Replay(nodes, trace, states, log)
    requires e.id < |nodes| && LeastOf(last, e)
    ensures IdsIn(trace + [e], |nodes|)
    ensures var o := RunSteps(nodes[e.id].steps, e.value, s0, l0);
            && (o.states, o.log) == Replay(nodes, trace + [e], states, log)
            && Schedule(nodes, q, trace + [e], states, log, Requeue(nodes, last, e, s0, l0))
  {
    ScheduleAppend(nodes, q, trace, states, log, last, e);
    ReplayAppend(nodes, trace, e, states, log);
  }

  /** Every node refers only to existing nodes and store cells. */
  predicate GraphFits(nodes: seq<Node>, cells: nat) {
    forall i :: 0 <= i < |nodes| ==> NodeFits(nodes[i], |nodes|, cells)
  }

  /** The queue after `exec` took `e` off `q` and ran it on (states, log):
      `e` is gone and, if its pipeline passed, one entry per successor is
      added with the pipeline's result. */
  function Requeue(nodes: seq<Node>, q: multiset<Entry>, e: Entry, states: seq<Value>, log: seq<Signal>): multiset<Entry>
    requires GraphFits(nodes, |states|) && e.id < |nodes|
  {
    var o := RunSteps(nodes[e.id].steps, e.value, states, log);
    q - multiset{e} + (if o.passed then multiset(Successors(nodes, nodes[e.id].next, o.value)) else multiset{})
  }

  /** `trace` is an order in which `exec` can process the queue `q` from
      (states, log), leaving the queue `last`: every entry is a least entry
      of the queue at the moment it is taken, and the queue then changes as
      `Requeue` says. */
  ghost predicate Schedule(nodes: seq<Node>, q: multiset<Entry>, trace: seq<Entry>,
                           states: seq<Value>, log: seq<Signal>, last: multiset<Entry>)
    requires GraphFits(nodes, |states|)
    decreases |trace|, 1
  {
    if trace == [] then last == q else Took(nodes, q, trace, states, log, last)
  }

  /** The first step of a non-empty schedule: its head is a least entry of
      `q`, and the rest schedules the queue that entry leaves behind. */
  ghost predicate Took(nodes: seq<Node>, q: multiset<Entry>, trace: seq<Entry>,
                       states: seq<Value>, log: seq<Signal>, last: multiset<Entry>)
    requires GraphFits(nodes, |states|) && trace != []
    decreases |trace|, 0
  {
    && trace[0].id < |nodes| && LeastOf(q, trace[0])
    && var o := RunSteps(nodes[trace[0].id].steps, trace[0].value, states, log);
       Schedule(nodes, Requeue(nodes, q, trace[0], states, log), trace[1..], o.states, o.log, last)
  }

  /** A schedule only takes entries of existing nodes. */
  lemma {:induction false} ScheduleIds(nodes: seq<Node>, q: multiset<Entry>, trace: seq<Entry>,
                                       states: seq<Value>, log: seq<Signal>, last: multiset<Entry>)
    requires GraphFits(nodes, |states|) && Schedule(nodes, q, trace, states, log, last)
    ensures IdsIn(trace, |nodes|)
    decreases |trace|
  {
    if trace != [] {
      var o := RunSteps(nodes[trace[0].id].steps, trace[0].value, states, log);
      ScheduleIds(nodes, Requeue(nodes, q, trace[0], states, log), trace[1..], o.states, o.log, last);
      forall k | 0 < k < |trace| ensures trace[k].id < |nodes| { assert trace[k] == trace[1..][k - 1]; }
    }
  }

  /** A least entry of the queue followed by a schedule of the queue it
      leaves is a schedule. */
  lemma ScheduleCons(nodes: seq<Node>, q: multiset<Entry>, e: Entry, rest: seq<Entry>,
                     states: seq<Value>, log: seq<Signal>, last: multiset<Entry>)
    requires GraphFits(nodes, |states|) && e.id < |nodes| && LeastOf(q, e)
    requires var o := RunSteps(nodes[e.id].steps, e.value, states, log);
             Schedule(nodes, Requeue(nodes, q, e, states, log), rest, o.states, o.log, last)
    ensures Schedule(nodes, q, [e] + rest, states, log, last)
  {
    assert ([e] + rest)[0] == e && ([e] + rest)[1..] == rest;
  }

  /** A schedule extended by a least entry of the queue it left is a
      schedule. */
  lemma {:induction false} ScheduleAppend(nodes: seq<Node>, q: multiset<Entry>, trace: seq<Entry>,
                                          states: seq<Value>, log: seq<Signal>, last: multiset<Entry>, e: Entry)
    requires GraphFits(nodes, |states|) && Schedule(nodes, q, trace, states, log, last)
    requires IdsIn(trace, |nodes|)
    requires e.id < |nodes| && LeastOf(last, e)
    ensures var r := Replay(nodes, trace, states, log);
            Schedule(nodes, q, trace + [e], states, log, Requeue(nodes, last, e, r.0, r.1))
    decreases |trace|
  {
    if trace == [] {
      ScheduleCons(nodes, q, e, [], states, log, Requeue(nodes, last, e, states, log));
      assert [e] + [] == trace + [e];
    } else {
      var o := RunSteps(nodes[trace[0].id].steps, trace[0].value, states, log);
      var q' := Requeue(nodes, q, trace[0], states, log);
      IdsTail(nodes, trace);
      ScheduleAppend(nodes, q', trace[1..], o.states, o.log, last, e);
      AppendAfterHead(nodes, q, trace, states, log, last, e);
    }
  }

  lemma IdsTail(nodes: seq<Node>, trace: seq<Entry>)
    requires trace != [] && IdsIn(trace, |nodes|)
    ensures IdsIn(trace[1..], |nodes|)
  {
    forall k | 0 <= k < |trace[1..]| ensures trace[1..][k].id < |nodes| { assert trace[1..][k] == trace[k + 1]; }
  }

  /** The step of `ScheduleAppend`: the extended tail after the head. */
  lemma AppendAfterHead(nodes: seq<Node>, q: multiset<Entry>, trace: seq<Entry>,
                        states: seq<Value>, log: seq<Signal>, last: multiset<Entry>, e: Entry)
    requires GraphFits(nodes, |states|) && trace != [] && trace[0].id < |nodes| && LeastOf(q, trace[0])
    requires IdsIn(trace, |nodes|)
    requires e.id < |nodes|
    requires var o := RunSteps(nodes[trace[0].id].steps, trace[0].value, states, log);
             var r := Replay(nodes, trace[1..], o.states, o.log);
             Schedule(nodes, Requeue(nodes, q, trace[0], states, log), trace[1..] + [e], o.states, o.log,
                      Requeue(nodes, last, e, r.0, r.1))
    ensures var r := Replay(nodes, trace, states, log);
            Schedule(nodes, q, trace + [e], states, log, Requeue(nodes, last, e, r.0, r.1))
  {
    var o := RunSteps(nodes[trace[0].id].steps, trace[0].value, states, log);
    var r := Replay(nodes, trace, states, log);
    assert r == Replay(nodes, trace[1..], o.states, o.log);
    HeadTailAppend(trace, e);
    ScheduleCons(nodes, q, trace[0], trace[1..] + [e], states, log, Requeue(nodes, last, e, r.0, r.1));
  }

  lemma HeadTailAppend<T>(s: seq<T>, x: T)
    requires s != []
    ensures [s[0]] + (s[1..] + [x]) == s + [x]
  {
  }

  /** When every other entry of the queue goes after `e`, a schedule that
      empties the queue starts with `e`, and its effect is that of `e`
      followed by the rest of the schedule. */
  lemma ScheduleHead(nodes: seq<Node>, q: multiset<Entry>, e: Entry, trace: seq<Entry>,
                     states: seq<Value>, log: seq<Signal>)
    requires GraphFits(nodes, |states|) && Schedule(nodes, q, trace, states, log, multiset{})
    requires e in q && forall x :: x in q ==> x == e || Sort(e, x)
    ensures trace != [] && trace[0] == e && e.id < |nodes|
    ensures var o := RunSteps(nodes[e.id].steps, e.value, states, log);
            && Schedule(nodes, Requeue(nodes, q, e, states, log), trace[1..], o.states, o.log, multiset{})
            && IdsIn(trace, |nodes|)
            && Replay(nodes, trace, states, log) == Replay(nodes, trace[1..], o.states, o.log)
  {
    if trace == [] {
      assert false;
    }
    ScheduleIds(nodes, q, trace, states, log, multiset{});
  }

  /** From a queue holding only an entry for `x`, whose pipeline passes and
      whose only successor is `y`, a schedule that empties the queue runs
      `x` and then continues from a queue holding only `y`'s entry. */
  lemma ScheduleChain(nodes: seq<Node>, x: nat, y: nat, p: Value, trace: seq<Entry>,
                      states: seq<Value>, log: seq<Signal>)
    requires GraphFits(nodes, |states|) && x < |nodes| && nodes[x].next == [y]
    requires RunSteps(nodes[x].steps, p, states, log).passed
    requires Schedule(nodes, multiset{Entry(x, nodes[x].priority, p)}, trace, states, log, multiset{})
    ensures y < |nodes| && trace != [] && IdsIn(trace, |nodes|)
    ensures var o := RunSteps(nodes[x].steps, p, states, log);
            && Schedule(nodes, multiset{Entry(y, nodes[y].priority, o.value)}, trace[1..], o.states, o.log, multiset{})
            && Replay(nodes, trace, states, log) == Replay(nodes, trace[1..], o.states, o.log)
  {
    var e := Entry(x, nodes[x].priority, p);
    ScheduleHead(nodes, multiset{e}, e, trace, states, log);
    var o := RunSteps(nodes[x].steps, p, states, log);
    assert Successors(nodes, [y], o.value) == [Entry(y, nodes[y].priority, o.value)];
    assert Requeue(nodes, multiset{e}, e, states, log) == multiset{Entry(y, nodes[y].priority, o.value)};
  }

  /** From a queue holding only an entry for `x`, which has no successors,
      a schedule that empties the queue is that one entry. */
  lemma ScheduleLast(nodes: seq<Node>, x: nat, p: Value, trace: seq<Entry>, states: seq<Value>, log: seq<Signal>)
    requires GraphFits(nodes, |states|) && x < |nodes| && nodes[x].next == []
    requires Schedule(nodes, multiset{Entry(x, nodes[x].priority, p)}, trace, states, log, multiset{})
    ensures trace == [Entry(x, nodes[x].priority, p)]
    ensures var o := RunSteps(nodes[x].steps, p, states, log);
            Replay(nodes, trace, states, log) == (o.states, o.log)
  {
    var e := Entry(x, nodes[x].priority, p);
    ScheduleHead(nodes, multiset{e}, e, trace, states, log);
    var o := RunSteps(nodes[x].steps, p, states, log);
    assert Successors(nodes, [], o.value) == [];
    assert Requeue(nodes, multiset{e}, e, states, log) == multiset{};
    ScheduleEmpty(nodes, trace[1..], o.states, o.log, multiset{});
    assert trace == [e] + trace[1..];
  }

  /** `e` is in `q` and goes before every other entry of it. */
  ghost predicate Ahead(q: multiset<Entry>, e: Entry) {
    e in q && forall x :: x in q ==> x == e || Sort(e, x)
  }

  lemma AheadOfTwo(e: Entry, f: Entry)
    requires Sort(e, f)
    ensures Ahead(multiset{e, f}, e)
  {
  }

  lemma AheadOfThree(e: Entry, f: Entry, g: Entry)
    requires Sort(e, f) && Sort(e, g)
    ensures Ahead(multiset{e, f, g}, e)
  {
  }

  /** Running `e`'s pipeline leaves the cells and the log as they are. */
  ghost predicate Quiet(nodes: seq<Node>, e: Entry, states: seq<Value>, log: seq<Signal>)
    requires GraphFits(nodes, |states|) && e.id < |nodes|
  {
    var o := RunSteps(nodes[e.id].steps, e.value, states, log);
    o.states == states && o.log == log
  }

  /** When `e` goes before every other entry of the queue and leaves the
      cells and the log alone, a schedule that empties the queue starts
      with `e` and goes on from the queue `e` leaves behind. */
  lemma QuietStep(nodes: seq<Node>, q: multiset<Entry>, e: Entry, r: multiset<Entry>, trace: seq<Entry>,
                  states: seq<Value>, log: seq<Signal>)
    requires GraphFits(nodes, |states|) && Schedule(nodes, q, trace, states, log, multiset{})
    requires Ahead(q, e) && e.id < |nodes| && Quiet(nodes, e, states, log)
    requires Requeue(nodes, q, e, states, log) == r
    ensures trace != [] && trace[0] == e
    ensures Schedule(nodes, r, trace[1..], states, log, multiset{})
  {
    if trace == [] {
      assert false;
    }
    assert trace[0] in q && LeastOf(q, trace[0]);
  }

  /** Replaying an entry that leaves the cells and the log alone changes
      nothing. */
  lemma QuietReplay(nodes: seq<Node>, trace: seq<Entry>, states: seq<Value>, log: seq<Signal>)
    requires GraphFits(nodes, |states|) && IdsIn(trace, |nodes|) && trace != []
    requires Quiet(nodes, trace[0], states, log)
    ensures IdsIn(trace[1..], |nodes|)
    ensures Replay(nodes, trace, states, log) == Replay(nodes, trace[1..], states, log)
  {
    IdsTail(nodes, trace);
  }

  /** An entry that its pipeline stops, or that has no successors, only
      leaves the queue. */
  lemma RequeueDrop(nodes: seq<Node>, rest: multiset<Entry>, e: Entry, states: seq<Value>, log: seq<Signal>)
    requires GraphFits(nodes, |states|) && e.id < |nodes|
    requires !RunSteps(nodes[e.id].steps, e.value, states, log).passed || nodes[e.id].next == []
    ensures Requeue(nodes, rest + multiset{e}, e, states, log) == rest
  {
    var o := RunSteps(nodes[e.id].steps, e.value, states, log);
    if o.passed {
      assert Successors(nodes, [], o.value) == [];
    }
    assert rest + multiset{e} - multiset{e} == rest;
  }

  /** An entry whose pipeline passes `w` to its one successor `y` is
      replaced in the queue by `y`'s entry. */
  lemma RequeueForward(nodes: seq<Node>, rest: multiset<Entry>, e: Entry, y: nat, p: Priority, w: Value,
                       states: seq<Value>, log: seq<Signal>)
    requires GraphFits(nodes, |states|) && e.id < |nodes|
    requires nodes[e.id].next == [y] && y < |nodes| && nodes[y].priority == p
    requires var o := RunSteps(nodes[e.id].steps, e.value, states, log); o.passed && o.value == w
    ensures Requeue(nodes, rest + multiset{e}, e, states, log) == rest + multiset{Entry(y, p, w)}
  {
    assert Successors(nodes, [y], w) == [Entry(y, p, w)];
    assert rest + multiset{e} - multiset{e} == rest;
  }

  /** The steps of a schedule through entries that leave the cells and the
      log alone: `e`, ahead of the other one or two entries of the queue,
      runs and is either dropped (stopped, or without successors) or
      replaced by its one successor's entry. */
  lemma DropOfTwo(nodes: seq<Node>, e: Entry, f: Entry, trace: seq<Entry>, states: seq<Value>, log: seq<Signal>)
    requires GraphFits(nodes, |states|) && e.id < |nodes| && Sort(e, f) && IdsIn(trace, |nodes|)
    requires Quiet(nodes, e, states, log)
    requires !RunSteps(nodes[e.id].steps, e.value, states, log).passed || nodes[e.id].next == []
    requires Schedule(nodes, multiset{e, f}, trace, states, log, multiset{})
    ensures trace != [] && trace[0] == e && IdsIn(trace[1..], |nodes|)
    ensures Schedule(nodes, multiset{f}, trace[1..], states, log, multiset{})
    ensures Replay(nodes, trace, states, log) == Replay(nodes, trace[1..], states, log)
  {
    AheadOfTwo(e, f);
    RequeueDrop(nodes, multiset{f}, e, states, log);
    TakeOfTwo(e, f);
    QuietStep(nodes, multiset{e, f}, e, multiset{f}, trace, states, log);
    QuietReplay(nodes, trace, states, log);
  }

  lemma ForwardOfTwo(nodes: seq<Node>, e: Entry, f: Entry, y: nat, p: Priority, w: Value, trace: seq<Entry>,
                     states: seq<Value>, log: seq<Signal>)
    requires GraphFits(nodes, |states|) && e.id < |nodes| && Sort(e, f) && IdsIn(trace, |nodes|)
    requires nodes[e.id].next == [y] && y < |nodes| && nodes[y].priority == p
    requires Quiet(nodes, e, states, log)
    requires var o := RunSteps(nodes[e.id].steps, e.value, states, log); o.passed && o.value == w
    requires Schedule(nodes, multiset{e, f}, trace, states, log, multiset{})
    ensures trace != [] && trace[0] == e && IdsIn(trace[1..], |nodes|)
    ensures Schedule(nodes, multiset{f, Entry(y, p, w)}, trace[1..], states, log, multiset{})
    ensures Replay(nodes, trace, states, log) == Replay(nodes, trace[1..], states, log)
  {
    AheadOfTwo(e, f);
    RequeueForward(nodes, multiset{f}, e, y, p, w, states, log);
    TakeOfTwo(e, f);
    AddToOne(f, Entry(y, p, w));
    QuietStep(nodes, multiset{e, f}, e, multiset{f, Entry(y, p, w)}, trace, states, log);
    QuietReplay(nodes, trace, states, log);
  }

  lemma DropOfThree(nodes: seq<Node>, e: Entry, f: Entry, g: Entry, trace: seq<Entry>,
                    states: seq<Value>, log: seq<Signal>)
    requires GraphFits(nodes, |states|) && e.id < |nodes| && Sort(e, f) && Sort(e, g) && IdsIn(trace, |nodes|)
    requires Quiet(nodes, e, states, log)
    requires !RunSteps(nodes[e.id].steps, e.value, states, log).passed || nodes[e.id].next == []
    requires Schedule(nodes, multiset{e, f, g}, trace, states, log, multiset{})
    ensures trace != [] && trace[0] == e && IdsIn(trace[1..], |nodes|)
    ensures Schedule(nodes, multiset{f, g}, trace[1..], states, log, multiset{})
    ensures Replay(nodes, trace, states, log) == Replay(nodes, trace[1..], states, log)
  {
    AheadOfThree(e, f, g);
    RequeueDrop(nodes, multiset{f, g}, e, states, log);
    TakeOfThree(e, f, g);
    QuietStep(nodes, multiset{e, f, g}, e, multiset{f, g}, trace, states, log);
    QuietReplay(nodes, trace, states, log);
  }

  lemma ForwardOfThree(nodes: seq<Node>, e: Entry, f: Entry, g: Entry, y: nat, p: Priority, w: Value,
                       trace: seq<Entry>, states: seq<Value>, log: seq<Signal>)
    requires GraphFits(nodes, |states|) && e.id < |nodes| && Sort(e, f) && Sort(e, g) && IdsIn(trace, |nodes|)
    requires nodes[e.id].next == [y] && y < |nodes| && nodes[y].priority == p
    requires Quiet(nodes, e, states, log)
    requires var o := RunSteps(nodes[e.id].steps, e.value, states, log); o.passed && o.value == w
    requires Schedule(nodes, multiset{e, f, g}, trace, states, log, multiset{})
    ensures trace != [] && trace[0] == e && IdsIn(trace[1..], |nodes|)
    ensures Schedule(nodes, multiset{f, g, Entry(y, p, w)}, trace[1..], states, log, multiset{})
    ensures Replay(nodes, trace, states, log) == Replay(nodes, trace[1..], states, log)
  {
    AheadOfThree(e, f, g);
    RequeueForward(nodes, multiset{f, g}, e, y, p, w, states, log);
    TakeOfThree(e, f, g);
    AddToTwo(f, g, Entry(y, p, w));
    QuietStep(nodes, multiset{e, f, g}, e, multiset{f, g, Entry(y, p, w)}, trace, states, log);
    QuietReplay(nodes, trace, states, log);
  }

  /** Taking the head `e` off a queue of two or three, and adding `h`
      after the rest; then listing the entries in another order. */
  lemma TakeOfTwo<T>(e: T, f: T)
    ensures multiset{e, f} == multiset{f} + multiset{e}
  {
  }

  lemma AddToOne<T>(f: T, h: T)
    ensures multiset{f} + multiset{h} == multiset{f, h}
  {
  }

  lemma TakeOfThree<T>(e: T, f: T, g: T)
    ensures multiset{e, f, g} == multiset{f, g} + multiset{e}
  {
  }

  lemma AddToTwo<T>(f: T, g: T, h: T)
    ensures multiset{f, g} + multiset{h} == multiset{f, g, h}
  {
  }

  lemma AddToNone<T>(h: T)
    ensures multiset{} + multiset{h} == multiset{h}
  {
  }

  lemma Swap<T>(a: T, b: T)
    ensures multiset{a, b} == multiset{b, a}
  {
  }

  lemma Rotate<T>(a: T, b: T, c: T)
    ensures multiset{a, b, c} == multiset{c, a, b}
  {
  }

  /** A schedule that starts and ends with an empty queue processes
      nothing. */
  lemma ScheduleEmpty(nodes: seq<Node>, trace: seq<Entry>, states: seq<Value>, log: seq<Signal>, last: multiset<Entry>)
    requires GraphFits(nodes, |states|) && Schedule(nodes, multiset{}, trace, states, log, last)
    ensures trace == [] && last == multiset{}
  {
  }

  /** `n` with `m` appended to `next` once per occurrence of `n` in `from`. */
  function AppendEdges(nodes: seq<Node>, from: seq<nat>, m: nat): (r: seq<Node>)
    ensures |r| == |nodes|
    ensures forall i :: 0 <= i < |nodes| ==>
      r[i] == nodes[i].(next := nodes[i].next + Repeat(m, Occurrences(from, i)))
  {
    seq(|nodes|, i requires 0 <= i < |nodes| => nodes[i].(next := nodes[i].next + Repeat(m, Occurrences(from, i))))
  }

  /** Wiring a new node keeps every existing node's identity, steps and
      successors; it only adds the new node at the end of the successor
      list of each predecessor, and nodes that are not predecessors are
      untouched. */
  lemma AppendEdgesKeeps(nodes: seq<Node>, from: seq<nat>, m: nat, i: nat)
    requires i < |nodes|
    ensures var r := AppendEdges(nodes, from, m);
            r[i].id == nodes[i].id && r[i].priority == nodes[i].priority
            && r[i].name == nodes[i].name && r[i].kind == nodes[i].kind
            && r[i].steps == nodes[i].steps
            && r[i].next[..|nodes[i].next|] == nodes[i].next
            && (i in from ==> |r[i].next| > |nodes[i].next| && r[i].next[|r[i].next| - 1] == m)
            && (i !in from ==> r[i] == nodes[i])
  {
    var r := AppendEdges(nodes, from, m);
    assert r[i].next == nodes[i].next + Repeat(m, Occurrences(from, i));
  }

  /** Wiring from a single predecessor appends to that one node. */
  lemma AppendEdgesSingle(nodes: seq<Node>, k: nat, m: nat)
    requires k < |nodes|
    ensures AppendEdges(nodes, [k], m) == nodes[k := nodes[k].(next := nodes[k].next + [m])]
  {
    var r := AppendEdges(nodes, [k], m);
    forall i | 0 <= i < |nodes|
      ensures r[i] == nodes[k := nodes[k].(next := nodes[k].next + [m])][i]
    {
      assert [k][1..] == [];
      assert Occurrences([k], i) == (if i == k then 1 else 0);
      assert Repeat(m, 1) == [m];
      assert Repeat(m, 0) == [];
    }
  }

  /** Wiring a new node after the `k`-th node created since `base`. */
  lemma WireOne(base: seq<Node>, s: seq<Node>, k: nat, m: nat, last: Node)
    requires k < |s|
    ensures AppendEdges(base + s, [|base| + k], m) + [last]
            == base + (s[k := s[k].(next := s[k].next + [m])] + [last])
  {
    AppendEdgesSingle(base + s, |base| + k, m);
    assert (base + s)[|base| + k] == s[k];
  }

  lemma AppendEdgesStep(base: seq<Node>, from: seq<nat>, k: nat, m: nat, last: Node)
    requires k < |from| && from[k] < |base|
    ensures var cur := AppendEdges(base, from[..k], m) + [last];
            cur[from[k] := cur[from[k]].(next := cur[from[k]].next + [m])]
            == AppendEdges(base, from[..k + 1], m) + [last]
  {
    var cur := AppendEdges(base, from[..k], m) + [last];
    var nxt := AppendEdges(base, from[..k + 1], m) + [last];
    var upd := cur[from[k] := cur[from[k]].(next := cur[from[k]].next + [m])];
    assert from[..k + 1] == from[..k] + [from[k]];
    forall i | 0 <= i < |base| ensures upd[i] == nxt[i] {
      OccurrencesAppend(from[..k], from[k], i);
      assert Repeat(m, Occurrences(from[..k + 1], i))
          == Repeat(m, Occurrences(from[..k], i)) + (if from[k] == i then [m] else []);
    }
    assert upd[|base|] == nxt[|base|];
  }

  class Runtime {
    var nodes: seq<Node>
    var states: seq<Value>
    var log: seq<Signal>
    const queue: Queue

    /** A queue entry refers to an existing node and carries its priority. */
    ghost predicate EntryFits(e: Entry)
      reads this
    {
      e.id < |nodes| && e.priority == nodes[e.id].priority
    }

    ghost predicate Valid()
      reads this, queue
    {
      && queue.Valid()
      && (forall i :: 0 <= i < |nodes| ==> nodes[i].id == i && NodeFits(nodes[i], |nodes|, |states|))
      && (forall e :: e in queue.Contents() ==> EntryFits(e))
    }

    constructor ()
      ensures Valid() && fresh(queue)
      ensures nodes == [] && states == [] && log == [] && queue.list == []
    {
      nodes := [];
      states := [];
      log := [];
      queue := new Queue();
    }

    /** Allocate a store cell holding `v`. */
    method NewCell(v: Value) returns (c: nat)
      requires Valid()
      modifies this
      ensures Valid()
      ensures c == |old(states)| && states == old(states) + [v]
      ensures nodes == old(nodes) && log == old(log)
    {
      c := |states|;
      states := states + [v];
      forall i | 0 <= i < |nodes| ensures NodeFits(nodes[i], |nodes|, |states|) {
        assert NodeFits(nodes[i], |nodes|, |states| - 1);
      }
    }

    /** `Node(...)`: a fresh node with the next id. */
    method NewNode(name: string, kind: Kind, priority: Priority, next: seq<nat>, steps: seq<Step>) returns (id: nat)
      requires Valid()
      requires IdsBelow(next, |nodes|) && StepsFit(steps, |states|)
      modifies this
      ensures Valid()
      ensures id == |old(nodes)| && nodes == old(nodes) + [Node(id, name, kind, priority, next, steps)]
      ensures states == old(states) && log == old(log)
    {
      id := |nodes|;
      nodes := nodes + [Node(id, name, kind, priority, next, steps)];
      forall i | 0 <= i < |nodes| ensures NodeFits(nodes[i], |nodes|, |states|) {
        if i < id { assert NodeFits(old(nodes)[i], id, |states|); }
      }
    }

    /** `appendNext`: add `m` at the end of `n`'s successors. */
    method AppendNext(n: nat, m: nat)
      requires Valid() && n < |nodes| && m < |nodes|
      modifies this
      ensures Valid()
      ensures nodes == old(nodes)[n := old(nodes)[n].(next := old(nodes)[n].next + [m])]
      ensures states == old(states) && log == old(log)
    {
      nodes := nodes[n := nodes[n].(next := nodes[n].next + [m])];
    }

    /** `prependNext`: add `m` at index 0 of `n`'s successors. */
    method PrependNext(n: nat, m: nat)
      requires Valid() && n < |nodes| && m < |nodes|
      modifies this
      ensures Valid()
      ensures nodes == old(nodes)[n := old(nodes)[n].(next := [m] + old(nodes)[n].next)]
      ensures states == old(states) && log == old(log)
    {
      nodes := nodes[n := nodes[n].(next := [m] + nodes[n].next)];
    }

    /** `clear`: drop both the successors and the steps of `n`. */
    method Clear(n: nat)
      requires Valid() && n < |nodes|
      modifies this
      ensures Valid()
      ensures nodes == old(nodes)[n := old(nodes)[n].(next := [], steps := [])]
      ensures states == old(states) && log == old(log)
    {
      nodes := nodes[n := nodes[n].(next := [], steps := [])];
    }

    /** `createNode`: a fresh node whose successors are `to`, appended to
        the successors of every node in `from`. */
    method CreateNode(name: string, kind: Kind, priority: Priority, from: seq<nat>, steps: seq<Step>, to: seq<nat>)
      returns (id: nat)
      requires Valid()
      requires IdsBelow(from, |nodes|) && IdsBelow(to, |nodes|) && StepsFit(steps, |states|)
      modifies this
      ensures Valid()
      ensures id == |old(nodes)|
      ensures nodes == AppendEdges(old(nodes), from, id) + [Node(id, name, kind, priority, to, steps)]
      ensures states == old(states) && log == old(log)
    {
      id := NewNode(name, kind, priority, to, steps);
      ghost var base := old(nodes);
      forall i | 0 <= i < |base| ensures AppendEdges(base, from[..0], id)[i] == base[i] {
        assert base[i].next + Repeat(id, 0) == base[i].next;
      }
      for k := 0 to |from|
        invariant Valid() && |nodes| == id + 1
        invariant nodes == AppendEdges(base, from[..k], id) + [Node(id, name, kind, priority, to, steps)]
        invariant states == old(states) && log == old(log)
      {
        AppendEdgesStep(base, from, k, id, Node(id, name, kind, priority, to, steps));
        AppendNext(from[k], id);
      }
      assert from[..|from|] == from;
    }

    /** One step of a dequeued node, applied to the runtime: the mutable
        counterpart of `RunStep`. */
    method ApplyStep(step: Step, value: Value) returns (passed: bool, result: Value)
      requires Valid() && StepFits(step, |states|)
      modifies this
      ensures Valid() && nodes == old(nodes)
      ensures RunStep(step, value, old(states), old(log)) == Outcome(passed, result, states, log)
    {
      passed, result := true, value;
      match step {
        case Compute(f) =>
          result := f(value);
        case Filter(p) =>
          passed := p(value);
        case StoreFilter(c) =>
          passed := !AreEqual(value, states[c]);
        case Assign(c) =>
          states := states[c := value];
        case LegacyAssign(c) =>
          if !Equality.Unconstrained(states[c], value) {
            states := states[c := value];
          }
        case Reduce(c, f) =>
          result := f(states[c], value);
        case ReadStores(cs, f) =>
          result := f(Read(states, cs));
        case SourceFilter(c, p) =>
          passed := p(states[c], value);
        case SourceMap(c, f) =>
          result := f(states[c], value);
        case Observe(w) =>
          log := log + [Watched(w, value)];
          result := Void;
        case Spawn(fx) =>
          log := log + [Started(fx, value)];
      }
    }

    /** The steps of node `n` in order, leaving the loop at the first
        filter that fails. */
    method ApplySteps(n: nat, value: Value) returns (passed: bool, result: Value)
      requires Valid() && n < |nodes|
      modifies this
      ensures Valid() && nodes == old(nodes)
      ensures RunSteps(nodes[n].steps, value, old(states), old(log)) == Outcome(passed, result, states, log)
    {
      var steps := nodes[n].steps;
      ghost var full := RunSteps(steps, value, states, log);
      result := value;
      var i := 0;
      assert steps[0..] == steps;
      while i < |steps|
        invariant 0 <= i <= |steps| && Valid() && nodes == old(nodes)
        invariant StepsFit(steps[i..], |states|)
        invariant RunSteps(steps[i..], result, states, log) == full
      {
        assert steps[i..][0] == steps[i] && steps[i..][1..] == steps[i + 1..];
        var ok;
        ok, result := ApplyStep(steps[i], result);
        if !ok {
          return false, result;
        }
        i := i + 1;
      }
      passed := true;
    }

    /** One iteration of `exec`'s loop for a dequeued entry: run the node's
        steps; if every filter passed, queue every successor, in order,
        with the final value. */
    method ProcessEntry(e: Entry)
      requires Valid() && EntryFits(e)
      modifies this, queue
      ensures Valid() && nodes == old(nodes)
      ensures var o := RunSteps(nodes[e.id].steps, e.value, old(states), old(log));
              states == o.states && log == o.log
              && queue.Contents() == old(queue.Contents())
                 + (if o.passed then multiset(Successors(nodes, nodes[e.id].next, o.value)) else multiset{})
    {
      var passed, value := ApplySteps(e.id, e.value);
      if !passed {
        return;
      }
      var next := nodes[e.id].next;
      ghost var s, l := states, log;
      for k := 0 to |next|
        invariant Valid() && nodes == old(nodes) && states == s && log == l
        invariant queue.Contents() == old(queue.Contents()) + multiset(Successors(nodes, next[..k], value))
      {
        SuccessorsSnoc(nodes, next, k, value);
        queue.Enqueue(Entry(next[k], nodes[next[k]].priority, value));
      }
      assert next[..|next|] == next;
    }

    /** One turn of `exec`'s loop: take a least entry off the queue and
        process it; nil when the queue is empty. */
    method Turn() returns (next: Option<Entry>)
      requires Valid()
      modifies this, queue
      ensures Valid() && nodes == old(nodes)
      ensures next.None? <==> old(queue.list) == []
      ensures next.None? ==> queue.list == old(queue.list) && states == old(states) && log == old(log)
      ensures next.Some? ==>
                next.value.id < |nodes| && LeastOf(old(queue.Contents()), next.value)
                && queue.Contents() == Requeue(nodes, old(queue.Contents()), next.value, old(states), old(log))
                && var o := RunSteps(nodes[next.value.id].steps, next.value.value, old(states), old(log));
                   states == o.states && log == o.log
    {
      next := queue.Dequeue();
      if next.Some? {
        ProcessEntry(next.value);
      }
    }

    /** One turn of `exec` on a run so far: the schedule `trace` from the
        queue `q` and (states, log) is extended by the entry taken, unless
        the queue was empty. */
    method Advance(ghost q: multiset<Entry>, ghost s: seq<Value>, ghost l: seq<Signal>, ghost trace: seq<Entry>)
      returns (empty: bool, ghost extended: seq<Entry>)
      requires Valid() && |states| == |s| && GraphFits(nodes, |s|)
      requires IdsIn(trace, |nodes|)
      requires (states, log) == Replay(nodes, trace, s, l)
      requires Schedule(nodes, q, trace, s, l, queue.Contents())
      modifies this, queue
      ensures Valid() && nodes == old(nodes) && |states| == |s|
      ensures empty ==> queue.Contents() == multiset{} && extended == trace
      ensures !empty ==> |extended| == |trace| + 1
      ensures IdsIn(extended, |nodes|)
      ensures (states, log) == Replay(nodes, extended, s, l)
      ensures Schedule(nodes, q, extended, s, l, queue.Contents())
    {
      ghost var before, s0, l0 := queue.Contents(), states, log;
      var next := Turn();
      if next.None? {
        return true, trace;
      }
      ExtendRun(nodes, q, trace, s, l, before, next.value, s0, l0);
      return false, trace + [next.value];
    }

    /** `exec`: drain the shared queue, lowest (priority, id) first. The
        source loops until the queue is empty, which a cyclic graph never
        reaches; here at most `fuel` entries are processed, and `drained`
        reports whether the queue ran empty. `trace` is the entries in the
        order they were processed: a schedule of the queue, whose effect on
        the store cells and the log is its replay. */
    method Exec(fuel: nat) returns (drained: bool, ghost trace: seq<Entry>)
      requires Valid()
      modifies this, queue
      ensures Valid() && nodes == old(nodes) && GraphFits(nodes, |old(states)|)
      ensures drained <==> queue.Contents() == multiset{}
      ensures !drained ==> |trace| == fuel
      ensures Schedule(nodes, old(queue.Contents()), trace, old(states), old(log), queue.Contents())
      ensures IdsIn(trace, |nodes|)
      ensures (states, log) == Replay(nodes, trace, old(states), old(log))
    {
      trace := [];
      ghost var q, s, l := queue.Contents(), states, log;
      var budget := fuel;
      while budget > 0
        invariant Valid() && nodes == old(nodes) && |states| == |s| && GraphFits(nodes, |s|)
        invariant |trace| == fuel - budget
        invariant IdsIn(trace, |nodes|)
        invariant (states, log) == Replay(nodes, trace, s, l)
        invariant Schedule(nodes, q, trace, s, l, queue.Contents())
      {
        var empty;
        empty, trace := Advance(q, s, l, trace);
        if empty {
          return true, trace;
        }
        budget := budget - 1;
      }
      drained := queue.Count() == 0;
    }

    /** `launch`: queue the payload for node `n`, then run `exec`. */
    method Launch(n: nat, payload: Value, fuel: nat) returns (drained: bool, ghost trace: seq<Entry>)
      requires Valid() && n < |nodes|
      modifies this, queue
      ensures Valid() && nodes == old(nodes) && GraphFits(nodes, |old(states)|)
      ensures drained <==> queue.Contents() == multiset{}
      ensures Schedule(nodes, old(queue.Contents()) + multiset{Entry(n, nodes[n].priority, payload)},
                       trace, old(states), old(log), queue.Contents())
      ensures IdsIn(trace, |nodes|)
      ensures (states, log) == Replay(nodes, trace, old(states), old(log))
    {
      queue.Enqueue(Entry(n, nodes[n].priority, payload));
      drained, trace := Exec(fuel);
    }
  }
}
