// The work queue (Effector/Queue.swift): a binary min-heap of
// (node, value) entries ordered by (priority raw value, node id).

module WorkQueue {
  import opened Values
  import opened Nodes
  import opened Optional

  /** A queued item. The node's id and priority are immutable after
      construction, so the entry carries them alongside the payload. */
  datatype Entry = Entry(id: nat, priority: Priority, value: Value)

  /** `sort(lhs, rhs)`: lhs goes strictly before rhs. */
  predicate Sort(lhs: Entry, rhs: Entry) {
    if lhs.priority == rhs.priority then lhs.id < rhs.id
    else RawValue(lhs.priority) < RawValue(rhs.priority)
  }

  /** Sort is a strict order: irreflexive and transitive. */
  lemma SortStrict(a: Entry, b: Entry, c: Entry)
    ensures !Sort(a, a)
    ensures Sort(a, b) ==> !Sort(b, a)
    ensures Sort(a, b) && Sort(b, c) ==> Sort(a, c)
  {
    RawValueOrder();
  }

  /** "Does not go before" is transitive, which is what the heap needs. */
  lemma NotBeforeTransitive(a: Entry, b: Entry, c: Entry)
    requires !Sort(a, b) && !Sort(b, c)
    ensures !Sort(a, c)
  {
    RawValueOrder();
  }

  /** Entries of different priority drain by raw value; entries of equal
      priority and different nodes drain by node id (creation order),
      whatever order they were enqueued in. */
  lemma TiesBreakById(a: Entry, b: Entry)
    requires a.priority == b.priority && a.id != b.id
    ensures Sort(a, b) <==> a.id < b.id
    ensures Sort(a, b) || Sort(b, a)
  {
  }

  /** Entries for the same node are unordered among themselves, whatever
      their payloads: their relative dequeue order is left to the heap. */
  lemma SameNodeUnordered(a: Entry, b: Entry)
    requires a.id == b.id && a.priority == b.priority
    ensures !Sort(a, b) && !Sort(b, a)
  {
  }

  /** Swift's `(index - 1) / 2` truncates toward zero, so parent(0) is 0. */
  function Parent(i: nat): (r: nat)
    ensures i > 0 ==> r < i && (2 * r + 1 == i || 2 * r + 2 == i)
  {
    if i == 0 then 0 else (i - 1) / 2
  }

  function Left(i: nat): nat { 2 * i + 1 }
  function Right(i: nat): nat { 2 * i + 2 }

  /** No element sorts strictly before its parent. */
  ghost predicate IsHeap(s: seq<Entry>) {
    forall i :: 0 < i < |s| ==> !Sort(s[i], s[Parent(i)])
  }

  /** The root of a heap is a minimum under Sort. */
  lemma {:induction false} RootIsMinimal(s: seq<Entry>, k: nat)
    requires IsHeap(s) && k < |s|
    ensures !Sort(s[k], s[0])
    decreases k
  {
    if k == 0 {
      SortStrict(s[0], s[0], s[0]);
    } else {
      RootIsMinimal(s, Parent(k));
      NotBeforeTransitive(s[k], s[Parent(k)], s[0]);
    }
  }

  lemma HeapMinimum(s: seq<Entry>)
    requires IsHeap(s) && |s| > 0
    ensures forall x :: x in multiset(s) ==> !Sort(x, s[0])
  {
    forall x | x in multiset(s) ensures !Sort(x, s[0]) {
      var k :| 0 <= k < |s| && s[k] == x;
      RootIsMinimal(s, k);
    }
  }

  /** `e` is among `c` and nothing in `c` goes strictly before it. */
  ghost predicate LeastOf(c: multiset<Entry>, e: Entry) {
    e in c && forall x :: x in c ==> !Sort(x, e)
  }

  class Queue {
    var list: seq<Entry>

    ghost predicate Valid()
      reads this
    {
      IsHeap(list)
    }

    ghost function Contents(): multiset<Entry>
      reads this
    {
      multiset(list)
    }

    function Count(): nat
      reads this
    {
      |list|
    }

    constructor ()
      ensures Valid() && list == []
    {
      list := [];
    }

    /** Append and sift up. */
    method Enqueue(e: Entry)
      requires Valid()
      modifies this
      ensures Valid()
      ensures Count() == old(Count()) + 1
      ensures Contents() == old(Contents()) + multiset{e}
    {
      list := list + [e];
      Up(|list| - 1);
    }

    /** Remove and return a minimum; nil on an empty queue. */
    method Dequeue() returns (r: Option<Entry>)
      requires Valid()
      modifies this
      ensures Valid()
      ensures old(list) == [] ==> r == None && list == old(list)
      ensures old(list) != [] ==> r.Some? && Count() == old(Count()) - 1
      ensures r.Some? ==> LeastOf(old(Contents()), r.value) && Contents() == old(Contents()) - multiset{r.value}
    {
      if list == [] {
        return None;
      }
      HeapMinimum(list);
      if |list| == 1 {
        r := Some(list[0]);
        list := [];
        return;
      }
      var element := list[0];
      ghost var before := list;
      var last := list[|list| - 1];
      list := list[..|list| - 1];
      list := list[0 := last];
      assert before == [element] + before[1..|before| - 1] + [last];
      assert list == [last] + before[1..|before| - 1];
      Down(0);
      r := Some(element);
    }

    /** Sift the element at `index` (the last one) up by moving a hole. */
    method Up(index: nat)
      requires index < |list| && Left(index) >= |list|
      requires HeapExceptAt(list, index)
      modifies this
      ensures Valid()
      ensures |list| == old(|list|)
      ensures multiset(list) == old(multiset(list))
    {
      var childIndex := index;
      var child := list[childIndex];
      var parentIndex := Parent(childIndex);
      ghost var n := |list|;
      assert list[childIndex := child] == list;
      LeafHasNoChildren(list, index, list[Parent(index)]);

      while childIndex > 0 && Sort(child, list[parentIndex])
        invariant |list| == n
        invariant childIndex < n && parentIndex == Parent(childIndex)
        invariant multiset(list[childIndex := child]) == old(multiset(list))
        invariant HeapExceptAt(list[childIndex := child], childIndex)
        invariant childIndex > 0 ==>
          ChildrenNotBefore(list[childIndex := child], childIndex, list[childIndex := child][Parent(childIndex)])
        decreases childIndex
      {
        ghost var l0 := list[childIndex := child];
        ghost var c, p := childIndex, parentIndex;
        list := list[childIndex := list[parentIndex]];
        childIndex := parentIndex;
        parentIndex := Parent(childIndex);
        assert list[childIndex := child] == l0[c := l0[p]][p := child];
        UpStep(l0, c, p, child);
      }
      HeapAfterUp(list, childIndex, child);
      list := list[childIndex := child];
    }

    /** Sift the element at `index` down by swapping with its smaller child. */
    method Down(index: nat)
      requires index < |list|
      requires HeapExceptChildrenOf(list, index)
      requires index > 0 ==> ChildrenNotBefore(list, index, list[Parent(index)])
      modifies this
      ensures Valid()
      ensures |list| == old(|list|)
      ensures multiset(list) == old(multiset(list))
      decreases |list| - index
    {
      var left := Left(index);
      var right := Right(index);
      var first := index;
      if left < |list| && Sort(list[left], list[first]) {
        first := left;
      }
      if right < |list| && Sort(list[right], list[first]) {
        first := right;
      }
      if first == index {
        DownDone(list, index);
        return;
      }
      ghost var l0 := list;
      var atIndex, atFirst := list[index], list[first];
      list := list[index := atFirst][first := atIndex];
      SwapKeepsMultiset(l0, index, first);
      DownStep(l0, index, first);
      assert list[Parent(first)] == l0[first];
      Down(first);
    }
  }

  /** Every edge holds except the one from `k` to its parent. */
  ghost predicate HeapExceptAt(s: seq<Entry>, k: nat) {
    forall i :: 0 < i < |s| && i != k ==> !Sort(s[i], s[Parent(i)])
  }

  /** Every edge holds except those from the children of `k` to `k`. */
  ghost predicate HeapExceptChildrenOf(s: seq<Entry>, k: nat) {
    forall i :: 0 < i < |s| && Parent(i) != k ==> !Sort(s[i], s[Parent(i)])
  }

  /** No child of `k` goes strictly before `x`. */
  ghost predicate ChildrenNotBefore(s: seq<Entry>, k: nat, x: Entry) {
    forall j :: 0 < j < |s| && Parent(j) == k ==> !Sort(s[j], x)
  }

  lemma LeafHasNoChildren(s: seq<Entry>, k: nat, x: Entry)
    requires Left(k) >= |s|
    ensures ChildrenNotBefore(s, k, x)
  {
    forall j | 0 < j < |s| && Parent(j) == k ensures false {
    }
  }

  /** One hole move of Up: the hole's parent slides into the hole and the
      hole moves to the parent position. */
  lemma UpStep(l0: seq<Entry>, c: nat, p: nat, child: Entry)
    requires 0 < c < |l0| && p == Parent(c) && l0[c] == child
    requires Sort(child, l0[p])
    requires HeapExceptAt(l0, c)
    requires ChildrenNotBefore(l0, c, l0[p])
    ensures multiset(l0[c := l0[p]][p := child]) == multiset(l0)
    ensures HeapExceptAt(l0[c := l0[p]][p := child], p)
    ensures p > 0 ==> ChildrenNotBefore(l0[c := l0[p]][p := child], p, l0[c := l0[p]][p := child][Parent(p)])
  {
    var l1 := l0[c := l0[p]][p := child];
    SwapKeepsMultiset(l0, c, p);
    RawValueOrder();
    forall i | 0 < i < |l1| && i != p
      ensures !Sort(l1[i], l1[Parent(i)])
    {
      if i == c {
        SortStrict(child, l0[p], child);
      } else if Parent(i) == c {
        assert l1[i] == l0[i];
      } else if Parent(i) == p {
        assert l1[i] == l0[i];
        SortStrict(child, l0[p], l0[i]);
      } else {
        assert l1[i] == l0[i];
      }
    }
    if p > 0 {
      forall j | 0 < j < |l1| && Parent(j) == p
        ensures !Sort(l1[j], l1[Parent(p)])
      {
        assert l1[Parent(p)] == l0[Parent(p)];
        if j != c {
          NotBeforeTransitive(l0[j], l0[p], l0[Parent(p)]);
        }
      }
    }
  }

  lemma HeapAfterUp(l: seq<Entry>, c: nat, child: Entry)
    requires c < |l|
    requires HeapExceptAt(l[c := child], c)
    requires c > 0 ==> !Sort(child, l[Parent(c)])
    ensures IsHeap(l[c := child])
  {
    var l1 := l[c := child];
    forall i | 0 < i < |l1| ensures !Sort(l1[i], l1[Parent(i)]) {
      if i == c {
        assert l1[Parent(c)] == l[Parent(c)];
      }
    }
  }

  lemma DownDone(s: seq<Entry>, k: nat)
    requires k < |s|
    requires HeapExceptChildrenOf(s, k)
    requires Left(k) < |s| ==> !Sort(s[Left(k)], s[k])
    requires Right(k) < |s| ==> !Sort(s[Right(k)], s[k])
    ensures IsHeap(s)
  {
    forall i | 0 < i < |s| ensures !Sort(s[i], s[Parent(i)]) {
      if Parent(i) == k {
        assert i == Left(k) || i == Right(k);
      }
    }
  }

  lemma SwapKeepsMultiset(s: seq<Entry>, i: nat, j: nat)
    requires i < |s| && j < |s|
    ensures multiset(s[i := s[j]][j := s[i]]) == multiset(s)
  {
    if i != j {
      calc {
        multiset(s[i := s[j]][j := s[i]]);
        multiset(s[i := s[j]]) - multiset{s[i := s[j]][j]} + multiset{s[i]};
        multiset(s) - multiset{s[i]} + multiset{s[j]} - multiset{s[j]} + multiset{s[i]};
        multiset(s);
      }
    }
  }

  /** One swap of Down moves the only possibly broken edges to `first`. */
  lemma DownStep(l0: seq<Entry>, index: nat, first: nat)
    requires index < |l0| && first < |l0|
    requires Sort(l0[first], l0[index])
    requires first == Left(index) || first == Right(index)
    requires Left(index) < |l0| ==> !Sort(l0[Left(index)], l0[first])
    requires Right(index) < |l0| ==> !Sort(l0[Right(index)], l0[first])
    requires HeapExceptChildrenOf(l0, index)
    requires index > 0 ==> ChildrenNotBefore(l0, index, l0[Parent(index)])
    ensures HeapExceptChildrenOf(l0[index := l0[first]][first := l0[index]], first)
    ensures ChildrenNotBefore(l0[index := l0[first]][first := l0[index]], first, l0[first])
  {
    var l := l0[index := l0[first]][first := l0[index]];
    RawValueOrder();
    forall i | 0 < i < |l| && Parent(i) != first
      ensures !Sort(l[i], l[Parent(i)])
    {
      if i == first {
        SortStrict(l0[first], l0[index], l0[first]);
      } else if Parent(i) == index {
        assert i == Left(index) || i == Right(index);
        assert l[i] == l0[i];
      } else if i == index {
        assert l[Parent(index)] == l0[Parent(index)];
      } else {
        assert l[i] == l0[i] && l[Parent(i)] == l0[Parent(i)];
      }
    }
    forall j | 0 < j < |l| && Parent(j) == first
      ensures !Sort(l[j], l0[first])
    {
      assert l[j] == l0[j];
    }
  }

  /** No later entry goes strictly before an earlier one. */
  ghost predicate Ordered(s: seq<Entry>) {
    forall i, j :: 0 <= i < j < |s| ==> !Sort(s[j], s[i])
  }

  /** Every earlier entry goes strictly before every later one. */
  ghost predicate StrictlyOrdered(s: seq<Entry>) {
    forall i, j :: 0 <= i < j < |s| ==> Sort(s[i], s[j])
  }

  /** A chain of strict steps is strictly ordered, by transitivity. */
  lemma {:induction false} ChainStrictlyOrdered(s: seq<Entry>)
    requires forall i :: 0 <= i < |s| - 1 ==> Sort(s[i], s[i + 1])
    ensures StrictlyOrdered(s)
    decreases |s|
  {
    if |s| > 1 {
      ChainStrictlyOrdered(s[1..]);
      forall j | 1 < j < |s| ensures Sort(s[0], s[j]) {
        assert s[j] == s[1..][j - 1];
        SortStrict(s[0], s[1], s[j]);
      }
    }
  }

  /** Dequeue until nil, as the kernel and the queue's own tests do. The
      entries come out as a sorted permutation of what was queued. */
  method Drain(q: Queue) returns (out: seq<Entry>)
    requires q.Valid()
    modifies q
    ensures q.Valid() && q.list == []
    ensures multiset(out) == old(q.Contents())
    ensures Ordered(out)
  {
    out := [];
    while q.Count() > 0
      invariant q.Valid()
      invariant multiset(out) + q.Contents() == old(q.Contents())
      invariant Ordered(out)
      invariant forall i :: 0 <= i < |out| ==> forall x :: x in q.Contents() ==> !Sort(x, out[i])
      decreases q.Count()
    {
      var r := q.Dequeue();
      out := out + [r.value];
    }
  }

  /** When the entries are strictly ordered among themselves (as entries of
      distinct nodes always are), a sorted permutation of them is unique:
      the drain order is fully determined by priority and node id. */
  lemma {:induction false} OrderedUnique(a: seq<Entry>, b: seq<Entry>)
    requires multiset(a) == multiset(b)
    requires StrictlyOrdered(a) && Ordered(b)
    ensures a == b
    decreases |a|
  {
    assert |a| == |multiset(a)| == |b|;
    if |a| > 0 {
      FirstIsLeast(a, b);
      assert a == [a[0]] + a[1..] && b == [b[0]] + b[1..];
      assert multiset(a[1..]) == multiset(a) - multiset{a[0]};
      assert multiset(b[1..]) == multiset(b) - multiset{b[0]};
      OrderedUnique(a[1..], b[1..]);
    }
  }

  lemma NotBeforeFirst(x: Entry, b: seq<Entry>)
    requires x in multiset(b) && Ordered(b)
    ensures !Sort(x, b[0])
  {
    var m :| 0 <= m < |b| && b[m] == x;
    if m == 0 {
      SortStrict(x, x, x);
    }
  }

  lemma FirstIsLeast(a: seq<Entry>, b: seq<Entry>)
    requires |a| > 0 && multiset(a) == multiset(b)
    requires StrictlyOrdered(a) && Ordered(b)
    ensures |b| > 0 && a[0] == b[0]
  {
    assert b[0] in multiset(b);
    assert b[0] in multiset(a);
    var k :| 0 <= k < |a| && a[k] == b[0];
    NotBeforeFirst(a[0], b);
    assert k == 0;
  }

  lemma MoveKeepsMultiset(a: seq<Entry>, y: Entry, b: seq<Entry>, c: seq<Entry>)
    ensures multiset(a + [y] + b + c) == multiset(a + b + [y] + c)
  {
    assert a + [y] + b + c == a + ([y] + b) + c;
    assert a + b + [y] + c == a + (b + [y]) + c;
  }

  /** The entries of the queue's priority test in enqueue order: nodes
      event1, store, effect, forward, on, map, combine, sample, watch,
      event2, created in that order (only the order of their ids matters
      to the queue), with priorities child,
      child, effect, child, pure, pure, combine, sample, effect, child. */
  function ScenarioEntries(): (r: seq<Entry>)
    ensures |r| == 10
  {
    [Entry(1, Child, Num(1)), Entry(2, Child, Num(0)), Entry(3, Effect, Num(0)),
     Entry(4, Child, Num(0)), Entry(5, Pure, Num(0)), Entry(6, Pure, Num(0)),
     Entry(7, Combine, Num(0)), Entry(8, Sample, Num(0)), Entry(9, Effect, Num(0)),
     Entry(10, Child, Num(1))]
  }

  /** The same entries in the order the test expects them to drain:
      event1, store, forward, event2, on, map, combine, sample, effect, watch. */
  lemma ScenarioExpectedOrder(e: seq<Entry>)
    requires e == ScenarioEntries()
    ensures var x := [e[0], e[1], e[3], e[9], e[4], e[5], e[6], e[7], e[2], e[8]];
            StrictlyOrdered(x) && multiset(x) == multiset(e)
  {
    var x := [e[0], e[1], e[3], e[9], e[4], e[5], e[6], e[7], e[2], e[8]];
    RawValueOrder();
    assert Sort(x[0], x[1]) && Sort(x[1], x[2]) && Sort(x[2], x[3]);
    assert Sort(x[3], x[4]) && Sort(x[4], x[5]) && Sort(x[5], x[6]);
    assert Sort(x[6], x[7]) && Sort(x[7], x[8]) && Sort(x[8], x[9]);
    ChainStrictlyOrdered(x);
    ScenarioPermutation(e);
  }

  /** The expected order is a rearrangement of the enqueue order: e[2] moved
      behind e[7], then e[9] moved to position 3. */
  lemma ScenarioPermutation(e: seq<Entry>)
    requires |e| == 10
    ensures multiset([e[0], e[1], e[3], e[9], e[4], e[5], e[6], e[7], e[2], e[8]]) == multiset(e)
  {
    var x := [e[0], e[1], e[3], e[9], e[4], e[5], e[6], e[7], e[2], e[8]];
    MoveKeepsMultiset(e[..2], e[2], e[3..8], e[8..]);
    assert e == e[..2] + [e[2]] + e[3..8] + e[8..];
    var y := e[..2] + e[3..8] + [e[2]] + e[8..];
    MoveKeepsMultiset(y[..3], y[9], y[3..9], []);
    assert y == y[..3] + y[3..9] + [y[9]] + [];
    assert x == y[..3] + [y[9]] + y[3..9] + [];
  }

  method PriorityScenario() returns (order: seq<nat>)
    ensures order == [1, 2, 4, 10, 5, 6, 7, 8, 3, 9]
  {
    var q := new Queue();
    var e := ScenarioEntries();
    for i := 0 to |e|
      invariant q.Valid() && q.Contents() == multiset(e[..i])
    {
      assert e[..i + 1] == e[..i] + [e[i]];
      q.Enqueue(e[i]);
    }
    assert e[..|e|] == e;
    var out := Drain(q);
    ScenarioExpectedOrder(e);
    OrderedUnique([e[0], e[1], e[3], e[9], e[4], e[5], e[6], e[7], e[2], e[8]], out);
    order := Ids(out);
    ScenarioIds(e, out);
  }

  function Ids(s: seq<Entry>): (r: seq<nat>)
    ensures |r| == |s| && forall i :: 0 <= i < |s| ==> r[i] == s[i].id
  {
    seq(|s|, i requires 0 <= i < |s| => s[i].id)
  }

  lemma ScenarioIds(e: seq<Entry>, out: seq<Entry>)
    requires e == ScenarioEntries()
    requires out == [e[0], e[1], e[3], e[9], e[4], e[5], e[6], e[7], e[2], e[8]]
    ensures Ids(out) == [1, 2, 4, 10, 5, 6, 7, 8, 3, 9]
  {
  }
}
