/** Work items and the deadline-ordered heap, kept as a sequence from which some item
    with the earliest deadline is removed. */
module Heaps {
  import opened Pipeline

  /** A packet with its class and its number within the class. */
  datatype WorkItem = WorkItem(priority: Priority, sequence: nat, packet: Packet)

  function DeadlineOf(item: WorkItem): nat {
    Deadline(item.packet)
  }

  /** No item of `heap` is due before `item`. */
  ghost predicate DueFirst(item: WorkItem, heap: seq<WorkItem>) {
    forall other :: other in heap ==> DeadlineOf(item) <= DeadlineOf(other)
  }

  predicate Earliest(heap: seq<WorkItem>, i: nat) {
    i < |heap| && forall j :: 0 <= j < |heap| ==> DeadlineOf(heap[i]) <= DeadlineOf(heap[j])
  }

  function OfClass(items: seq<WorkItem>, p: Priority): nat {
    if items == [] then 0
    else OfClass(items[..|items| - 1], p) + if items[|items| - 1].priority == p then 1 else 0
  }

  lemma {:induction false} OfClassWithout(xs: seq<WorkItem>, i: nat, p: Priority)
    requires i < |xs|
    ensures OfClass(xs, p) == OfClass(Without(xs, i), p) + if xs[i].priority == p then 1 else 0
  {
    var n := |xs| - 1;
    if i == n {
      assert Without(xs, i) == xs[..n];
    } else {
      OfClassWithout(xs[..n], i, p);
      assert Without(xs, i)[..n - 1] == Without(xs[..n], i);
    }
  }

  lemma {:induction false} EarliestExists(heap: seq<WorkItem>)
    requires heap != []
    ensures exists i :: 0 <= i < |heap| && Earliest(heap, i)
  {
    var n := |heap| - 1;
    if n == 0 {
      assert Earliest(heap, 0);
    } else {
      EarliestExists(heap[..n]);
      var i :| 0 <= i < n && Earliest(heap[..n], i);
      assert forall j :: 0 <= j < n ==> heap[..n][j] == heap[j];
      assert Earliest(heap, if DeadlineOf(heap[n]) < DeadlineOf(heap[i]) then n else i);
    }
  }

  lemma OfClassAppend(heap: seq<WorkItem>, item: WorkItem)
    ensures forall p :: OfClass(heap + [item], p) == OfClass(heap, p) + if item.priority == p then 1 else 0
  {
    assert (heap + [item])[..|heap|] == heap;
  }

  lemma {:induction false} OfClassConcat(xs: seq<WorkItem>, ys: seq<WorkItem>, p: Priority)
    ensures OfClass(xs + ys, p) == OfClass(xs, p) + OfClass(ys, p)
  {
    if ys == [] {
      assert xs + ys == xs;
    } else {
      var n := |ys| - 1;
      OfClassConcat(xs, ys[..n], p);
      assert (xs + ys)[..|xs + ys| - 1] == xs + ys[..n];
    }
  }
}
