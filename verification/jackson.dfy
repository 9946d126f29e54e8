/** Earliest due date first is optimal for the maximum lateness of a backlog. */
module Jackson {
  import opened Pipeline
  import opened HeadOfLine
  import Edf

  /** Calls without arrivals forward the backlog in exactly this order. */
  lemma CallsFollowTheDrainOrder(backlog: Lines)
    ensures Edf.Chosen(Appended(backlog, NOTHING))
         == if DrainOrder(backlog) == [] then None else Some(DrainOrder(backlog)[0])
    ensures DrainOrder(backlog) != [] ==> DrainOrder(Taken(Appended(backlog, NOTHING))) == DrainOrder(backlog)[1..]
  {
    SameLines(Appended(backlog, NOTHING), backlog);
  }

  /** Simulated work of the single-machine stages (base 0.1 ms). */
  function Cost(p: Packet): nat {
    100_000 + ExtraNs(p.size)
  }

  function Work(order: seq<Packet>): nat {
    if order == [] then 0 else Work(order[..|order| - 1]) + Cost(order[|order| - 1])
  }

  /** How late packet i of the order is when processing starts at time `start`. */
  function Lateness(start: nat, order: seq<Packet>, i: nat): int
    requires i < |order|
  {
    start + Work(order[..i + 1]) - Deadline(order[i])
  }

  /** The machine works on the packets back to back: each is done its own cost after the one
      before it, the first one its cost after the start. */
  lemma BackToBack(start: nat, order: seq<Packet>, i: nat)
    requires i < |order|
    ensures Lateness(start, order, i) + Deadline(order[i])
         == Cost(order[i]) + if i == 0 then start else Lateness(start, order, i - 1) + Deadline(order[i - 1])
  {
    var done := order[..i + 1];
    assert done[..i] == order[..i] && done[i] == order[i];
    assert Work(done) == Work(order[..i]) + Cost(order[i]);
    if i == 0 {
      assert order[..i] == [] && Work(order[..i]) == 0;
    }
  }

  /** 0.1 ms up to 200 bytes, 0.2 ms from 1500 bytes on, and the straight line between. */
  lemma CostIsLinear(p: Packet)
    ensures p.size <= 200 ==> Cost(p) == 100_000
    ensures p.size >= 1500 ==> Cost(p) == 200_000
    ensures 200 <= p.size <= 1500 ==>
              -650 <= 1300 * (Cost(p) - 100_000) - 100_000 * (p.size - 200) <= 650
  {
    ProcessingIsLinear(p.size);
  }

  function MaxLateness(start: nat, order: seq<Packet>): int
    requires order != []
  {
    var n := |order| - 1;
    var last := Lateness(start, order, n);
    if n == 0 then last else Max(MaxLateness(start, order[..n]), last)
  }

  lemma {:induction false} MaxLatenessIsMaximum(start: nat, order: seq<Packet>)
    requires order != []
    ensures forall i :: 0 <= i < |order| ==> Lateness(start, order, i) <= MaxLateness(start, order)
    ensures exists i :: 0 <= i < |order| && Lateness(start, order, i) == MaxLateness(start, order)
  {
    var n := |order| - 1;
    if n == 0 {
    } else {
      MaxLatenessIsMaximum(start, order[..n]);
      forall i | 0 <= i < n ensures Lateness(start, order[..n], i) == Lateness(start, order, i) {
        assert order[..n][..i + 1] == order[..i + 1];
      }
      var i :| 0 <= i < n && Lateness(start, order[..n], i) == MaxLateness(start, order[..n]);
      assert Lateness(start, order, i) == MaxLateness(start, order[..n]);
    }
    assert Lateness(start, order, n) <= MaxLateness(start, order);
  }

  lemma {:induction false} WorkWithout(order: seq<Packet>, i: nat)
    requires i < |order|
    ensures Work(order) == Work(order[..i] + order[i + 1..]) + Cost(order[i])
  {
    var n := |order| - 1;
    if i == n {
      assert order[..i] + order[i + 1..] == order[..n];
    } else {
      WorkWithout(order[..n], i);
      assert (order[..i] + order[i + 1..])[..n - 1] == order[..n][..i] + order[..n][i + 1..];
    }
  }

  /** A part of a backlog takes no longer than the whole, whatever the order. */
  lemma {:induction false} WorkOfPart(part: seq<Packet>, whole: seq<Packet>)
    requires multiset(part) <= multiset(whole)
    ensures Work(part) <= Work(whole)
  {
    if part == [] {
    } else {
      var n := |part| - 1;
      var last := part[n];
      assert last in multiset(part);
      var i :| 0 <= i < |whole| && whole[i] == last;
      var rest := whole[..i] + whole[i + 1..];
      assert part == part[..n] + [last];
      assert whole == whole[..i] + [last] + whole[i + 1..];
      assert multiset(rest) == multiset(whole) - multiset{last};
      WorkOfPart(part[..n], rest);
      WorkWithout(whole, i);
    }
  }

  lemma PartWithoutLast(part: seq<Packet>, order: seq<Packet>)
    requires order != [] && multiset(part) <= multiset(order) && order[|order| - 1] !in multiset(part)
    ensures multiset(part) <= multiset(order[..|order| - 1])
  {
    assert order == order[..|order| - 1] + [order[|order| - 1]];
  }

  /** The position where the last packet of `part` finishes. */
  lemma {:induction false} LastOfPart(part: seq<Packet>, order: seq<Packet>) returns (j: nat)
    requires part != [] && multiset(part) <= multiset(order)
    ensures j < |order| && order[j] in part && multiset(part) <= multiset(order[..j + 1])
  {
    assert part[0] in multiset(part);
    var n := |order| - 1;
    if multiset(part) <= multiset(order[..n]) {
      j := LastOfPart(part, order[..n]);
      assert order[..n][..j + 1] == order[..j + 1];
    } else {
      j := n;
      assert order == order[..n] + [order[n]];
      assert order[..n + 1] == order;
      if order[n] !in multiset(part) {
        PartWithoutLast(part, order);
      }
    }
  }

  /** Any other order has a packet at least as late as packet i of the ordered one. */
  lemma SomePacketIsAsLate(start: nat, ordered: seq<Packet>, other: seq<Packet>, i: nat) returns (j: nat)
    requires Ordered(ordered) && multiset(other) == multiset(ordered) && i < |ordered|
    ensures j < |other| && Lateness(start, ordered, i) <= Lateness(start, other, j)
  {
    var part := ordered[..i + 1];
    assert ordered == part + ordered[i + 1..];
    j := LastOfPart(part, other);
    WorkOfPart(part, other[..j + 1]);
    var k :| 0 <= k < |part| && part[k] == other[j];
    assert Deadline(ordered[k]) <= Deadline(ordered[i]);
  }

  ghost predicate MeetsDeadlines(start: nat, order: seq<Packet>) {
    forall i :: 0 <= i < |order| ==> Lateness(start, order, i) <= 0
  }

  /** Draining a backlog by repeated process_next minimises the maximum lateness over
      all orders of the same packets, and meets every deadline if any order does. */
  lemma DrainingIsOptimal(start: nat, backlog: Lines, other: seq<Packet>)
    requires AllOrdered(backlog) && multiset(other) == Packets(backlog)
    ensures other != [] ==> DrainOrder(backlog) != []
                            && MaxLateness(start, DrainOrder(backlog)) <= MaxLateness(start, other)
    ensures MeetsDeadlines(start, other) ==> MeetsDeadlines(start, DrainOrder(backlog))
  {
    var order := DrainOrder(backlog);
    DrainOrderIsComplete(backlog);
    DrainOrderIsOrdered(backlog);
    assert |other| == |multiset(other)| == |multiset(order)| == |order|;
    if other != [] {
      MaxLatenessIsMaximum(start, order);
      MaxLatenessIsMaximum(start, other);
      var i :| 0 <= i < |order| && Lateness(start, order, i) == MaxLateness(start, order);
      var j := SomePacketIsAsLate(start, order, other, i);
      if MeetsDeadlines(start, other) {
        assert MaxLateness(start, order) <= 0;
      }
    }
  }
}
