/** The single-CPU EDF scheduler: three deques filled straight from sockets. */
module SingleCpuEdf {
  import opened Pipeline
  import opened HeadOfLine
  import opened EgressChannels
  import Edf

  const CLASSES: seq<Priority> := [High, Medium, Low]

  datatype Datagram = Datagram(id: nat, size: nat)

  /** One look at a socket: the clock, and the datagram received, if any. */
  datatype Poll = Poll(time: nat, datagram: Option<Datagram>)

  predicate Received(poll: Poll) {
    poll.datagram.Some? && poll.datagram.value.size > 0
  }

  function PacketOf(p: Priority, budget: nat, poll: Poll): Packet
    requires Received(poll)
  {
    Packet(poll.datagram.value.id, p, poll.time, budget, poll.datagram.value.size)
  }

  /** What a pass over the first sockets of a class reads; empty datagrams are skipped. */
  function Reads(p: Priority, budgets: seq<nat>, polls: seq<Poll>): seq<Packet>
    requires |polls| <= |budgets|
  {
    if polls == [] then []
    else
      var n := |polls| - 1;
      Reads(p, budgets, polls[..n]) + if Received(polls[n]) then [PacketOf(p, budgets[n], polls[n])] else []
  }

  lemma {:induction false} ReadsGrow(p: Priority, budgets: seq<nat>, polls: seq<Poll>, i: nat)
    requires i <= |polls| <= |budgets|
    ensures Reads(p, budgets, polls[..i]) <= Reads(p, budgets, polls)
  {
    var n := |polls| - 1;
    if i == |polls| {
      assert polls[..i] == polls;
    } else {
      assert polls[..n][..i] == polls[..i];
      ReadsGrow(p, budgets, polls[..n], i);
    }
  }

  /** A pass turns each datagram that is not empty into exactly one packet, with the
      budget of its socket and the time of the look, in the order of the sockets. */
  lemma EachDatagramIsReadOnce(p: Priority, budgets: seq<nat>, polls: seq<Poll>, i: nat)
    requires i < |polls| <= |budgets|
    ensures var read, before, got := Reads(p, budgets, polls), Reads(p, budgets, polls[..i]), polls[i].datagram;
            && before <= Reads(p, budgets, polls[..i + 1]) <= read
            && |Reads(p, budgets, polls[..i + 1])| - |before| == (if got.Some? && got.value.size > 0 then 1 else 0)
            && (got.Some? && got.value.size > 0 ==>
                  read[|before|] == Packet(got.value.id, p, polls[i].time, budgets[i], got.value.size))
  {
    assert polls[..i + 1][..i] == polls[..i];
    ReadsGrow(p, budgets, polls, i + 1);
  }

  ghost predicate Fits(sockets: Table<seq<nat>>, polls: Table<seq<Poll>>) {
    forall p :: |polls.Get(p)| <= |sockets.Get(p)|
  }

  /** Empty deques are refilled, the others are left alone; best effort is never read. */
  ghost function Refilled(queues: Lines, sockets: Table<seq<nat>>, polls: Table<seq<Poll>>): (r: Lines)
    requires Fits(sockets, polls)
  {
    Table(
      RefilledClass(queues, sockets, polls, High), RefilledClass(queues, sockets, polls, Medium),
      RefilledClass(queues, sockets, polls, Low), queues.bestEffort)
  }

  ghost function RefilledClass(queues: Lines, sockets: Table<seq<nat>>, polls: Table<seq<Poll>>,
                               p: Priority): seq<Packet>
    requires Fits(sockets, polls)
  {
    if queues.Get(p) == [] then Reads(p, sockets.Get(p), polls.Get(p)) else queues.Get(p)
  }

  class SingleCPUEDFScheduler {
    var queues: Lines
    var sockets: Table<seq<nat>>    // latency budgets, in registration order
    const egress: Table<Egress>
    ghost var picks: seq<Pick>      // every packet served so far

    constructor (egress: Table<Egress>)
      requires Separate(egress) && forall p :: egress.Get(p).Valid() && egress.Get(p).offered == []
      ensures Valid() && queues == NOTHING && sockets == Uniform([]) && picks == [] && this.egress == egress
    {
      queues, sockets, this.egress, picks := NOTHING, Uniform([]), egress, [];
    }

    ghost predicate Valid()
      reads this, egress.high, egress.medium, egress.low, egress.bestEffort
    {
      queues.bestEffort == [] && Delivered(egress, picks)
    }

    method AddSocket(p: Priority, budget: nat)
      modifies this`sockets
      ensures sockets == old(sockets).Set(p, old(sockets).Get(p) + [budget])
    {
      sockets := sockets.Set(p, sockets.Get(p) + [budget]);
    }

    /** `polls` holds what the sockets returned; it ends early when a shutdown is seen. */
    method RefillEdf(p: Priority, polls: seq<Poll>) returns (read: nat)
      requires |polls| <= |sockets.Get(p)|
      modifies this`queues
      ensures queues.Get(p) == old(queues).Get(p) + Reads(p, sockets.Get(p), polls)
      ensures forall q :: q != p ==> queues.Get(q) == old(queues).Get(q)
      ensures read == |Reads(p, sockets.Get(p), polls)|
    {
      read := 0;
      ghost var before := queues;
      for i := 0 to |polls|
        invariant queues.Get(p) == before.Get(p) + Reads(p, sockets.Get(p), polls[..i])
        invariant forall q :: q != p ==> queues.Get(q) == before.Get(q)
        invariant read == |Reads(p, sockets.Get(p), polls[..i])|
      {
        assert polls[..i + 1][..i] == polls[..i];
        if polls[i].datagram.None? || polls[i].datagram.value.size == 0 {
          continue;
        }
        ghost var got := Reads(p, sockets.Get(p), polls[..i]);
        var packet := PacketOf(p, sockets.Get(p)[i], polls[i]);
        assert before.Get(p) + (got + [packet]) == (before.Get(p) + got) + [packet];
        queues := queues.Set(p, queues.Get(p) + [packet]);
        read := read + 1;
      }
      assert polls[..|polls|] == polls;
    }

    /** Step 1. */
    method RefillEmpty(polls: Table<seq<Poll>>)
      requires queues.bestEffort == [] && Fits(sockets, polls)
      modifies this`queues
      ensures queues == Refilled(old(queues), sockets, polls)
    {
      ghost var before := queues;
      for i := 0 to |CLASSES|
        invariant forall q :: queues.Get(q)
                    == if Index(q) < i then RefilledClass(before, sockets, polls, q) else before.Get(q)
      {
        assert Index(CLASSES[i]) == i;
        RefillIfEmpty(CLASSES[i], polls.Get(CLASSES[i]));
      }
      SameLines(queues, Refilled(before, sockets, polls));
    }

    method RefillIfEmpty(p: Priority, polls: seq<Poll>)
      requires |polls| <= |sockets.Get(p)|
      modifies this`queues
      ensures queues.Get(p)
           == if old(queues).Get(p) == [] then Reads(p, sockets.Get(p), polls) else old(queues).Get(p)
      ensures forall q :: q != p ==> queues.Get(q) == old(queues).Get(q)
    {
      if queues.Get(p) == [] {
        var _ := RefillEdf(p, polls);
        assert [] + Reads(p, sockets.Get(p), polls) == Reads(p, sockets.Get(p), polls);
      }
    }

    /** Step 2: the earliest head; a later class must be strictly earlier. */
    method Earliest() returns (r: Option<Priority>)
      requires queues.bestEffort == []
      ensures r == Choice(queues)
    {
      r := None;
      for i := 0 to |CLASSES|
        invariant r == BestOf(queues, i)
      {
        var p := CLASSES[i];
        assert p == ALL[i];
        if queues.Get(p) != [] {
          if r.None? || Deadline(queues.Get(p)[0]) < Deadline(queues.Get(r.value)[0]) {
            r := Some(p);
          }
        }
      }
      assert ALL[3] == BestEffort && BestOf(queues, 4) == BestOf(queues, 3);
      BestIsChoice(queues);
    }

    /** Steps 1 and 2: refill, then take the earliest head. */
    method PickNext(polls: Table<seq<Poll>>) returns (picked: Option<Packet>)
      requires queues.bestEffort == [] && Fits(sockets, polls)
      modifies this`queues
      ensures queues == Taken(Refilled(old(queues), sockets, polls)) && queues.bestEffort == []
      ensures picked == Edf.Chosen(Refilled(old(queues), sockets, polls))
    {
      RefillEmpty(polls);
      var selected := Earliest();
      if selected.None? {
        return None;
      }
      var c := selected.value;
      picked := Some(queues.Get(c)[0]);
      SameLines(queues.Set(c, queues.Get(c)[1..]), Taken(queues));
      queues := queues.Set(c, queues.Get(c)[1..]);
    }

    /** One call: the earliest head leaves its deque and is offered to its class's egress
        channel, which takes it or counts a drop. */
    method ProcessNext(polls: Table<seq<Poll>>) returns (done: bool, ghost picked: Option<Packet>)
      requires Valid() && Fits(sockets, polls)
      modifies this`queues, this`picks, egress.high, egress.medium, egress.low, egress.bestEffort
      ensures Valid()
      ensures var all := Refilled(old(queues), sockets, polls);
              queues == Taken(all) && picked == Edf.Chosen(all) && done == picked.Some?
      ensures picks == old(picks) + if picked.Some? then [Pick(picked.value.priority, picked.value)] else []
      ensures forall q :: picked.None? || q != picked.value.priority ==> unchanged(egress.Get(q))
      ensures picked.Some? ==>
                var channel := egress.Get(picked.value.priority);
                if |old(channel.queue)| < channel.capacity
                then channel.queue == old(channel.queue) + [picked.value] && channel.drops == old(channel.drops)
                else channel.queue == old(channel.queue) && channel.drops == old(channel.drops) + 1
    {
      var packet := PickNext(polls);
      picked, done := packet, packet.Some?;
      picks := ForwardAny(egress, packet, picks);
    }
  }

  // ------------------------------------------------------------------
  // When back-insertion keeps the deques ordered
  // ------------------------------------------------------------------

  ghost predicate Monotone(polls: seq<Poll>) {
    forall i, j :: 0 <= i < j < |polls| ==> polls[i].time <= polls[j].time
  }

  ghost predicate Ascending(budgets: seq<nat>) {
    forall i, j :: 0 <= i < j < |budgets| ==> budgets[i] <= budgets[j]
  }

  /** Nothing a pass has read is due after what its last socket can deliver. */
  lemma {:induction false} ReadsAreDueByLast(p: Priority, budgets: seq<nat>, polls: seq<Poll>)
    requires 0 < |polls| <= |budgets| && Monotone(polls) && Ascending(budgets)
    ensures forall x :: x in Reads(p, budgets, polls) ==>
              Deadline(x) <= polls[|polls| - 1].time + budgets[|polls| - 1]
  {
    var n := |polls| - 1;
    if n == 0 {
    } else {
      ReadsAreDueByLast(p, budgets, polls[..n]);
      assert polls[n - 1].time <= polls[n].time && budgets[n - 1] <= budgets[n];
    }
  }

  lemma {:induction false} ReadsAreOrdered(p: Priority, budgets: seq<nat>, polls: seq<Poll>)
    requires |polls| <= |budgets| && Monotone(polls) && Ascending(budgets)
    ensures Ordered(Reads(p, budgets, polls))
  {
    if polls == [] {
    } else {
      var n := |polls| - 1;
      ReadsAreOrdered(p, budgets, polls[..n]);
      if n > 0 {
        ReadsAreDueByLast(p, budgets, polls[..n]);
        assert polls[n - 1].time <= polls[n].time && budgets[n - 1] <= budgets[n];
      }
    }
  }

  /** A pass in which every socket delivers at the same instant. */
  function AtOnce(n: nat): seq<Poll> {
    seq(n, _ => Poll(0, Some(Datagram(0, 1))))
  }

  lemma {:induction false} AtOnceReads(p: Priority, budgets: seq<nat>, n: nat)
    requires n <= |budgets|
    ensures |Reads(p, budgets, AtOnce(n))| == n
    ensures forall i :: 0 <= i < n ==> Deadline(Reads(p, budgets, AtOnce(n))[i]) == budgets[i]
  {
    if n == 0 {
    } else {
      AtOnceReads(p, budgets, n - 1);
      assert AtOnce(n)[..n - 1] == AtOnce(n - 1);
    }
  }

  // ------------------------------------------------------------------
  // Whole runs: the calls of process_next, each with what its polls returned
  // ------------------------------------------------------------------

  ghost predicate Possible(sockets: Table<seq<nat>>, polls: Table<seq<Poll>>) {
    Fits(sockets, polls) && forall p :: Monotone(polls.Get(p))
  }

  ghost predicate AllPossible(sockets: Table<seq<nat>>, calls: seq<Table<seq<Poll>>>) {
    forall i :: 0 <= i < |calls| ==> Possible(sockets, calls[i])
  }

  ghost function Run(sockets: Table<seq<nat>>, calls: seq<Table<seq<Poll>>>): Lines
    requires AllPossible(sockets, calls)
  {
    if calls == [] then NOTHING
    else Taken(Refilled(Run(sockets, calls[..|calls| - 1]), sockets, calls[|calls| - 1]))
  }

  /** The deque of class p when call number |calls| compares heads. */
  ghost function Compared(sockets: Table<seq<nat>>, calls: seq<Table<seq<Poll>>>, polls: Table<seq<Poll>>): Lines
    requires AllPossible(sockets, calls) && Possible(sockets, polls)
  {
    Refilled(Run(sockets, calls), sockets, polls)
  }

  lemma RunStep(sockets: Table<seq<nat>>, calls: seq<Table<seq<Poll>>>, p: Priority)
    requires AllPossible(sockets, calls) && calls != []
    ensures var all := Compared(sockets, calls[..|calls| - 1], calls[|calls| - 1]);
            && (Choice(all) == Some(p) ==> all.Get(p) != [])
            && Run(sockets, calls).Get(p) == if Choice(all) == Some(p) then all.Get(p)[1..] else all.Get(p)
  {
  }

  lemma {:induction false} RunKeepsOrder(sockets: Table<seq<nat>>, calls: seq<Table<seq<Poll>>>, p: Priority)
    requires AllPossible(sockets, calls) && Ascending(sockets.Get(p))
    ensures Ordered(Run(sockets, calls).Get(p))
  {
    if calls == [] {
    } else {
      var before, polls := calls[..|calls| - 1], calls[|calls| - 1];
      RunKeepsOrder(sockets, before, p);
      RefillKeepsOrder(sockets, Run(sockets, before), polls, p);
      RunStep(sockets, calls, p);
      OrderedTail(Compared(sockets, before, polls).Get(p));
    }
  }

  lemma OrderedTail(line: seq<Packet>)
    requires Ordered(line)
    ensures line != [] ==> Ordered(line[1..])
  {
  }

  lemma {:induction false} BestEffortStaysEmpty(sockets: Table<seq<nat>>, calls: seq<Table<seq<Poll>>>)
    requires AllPossible(sockets, calls)
    ensures Run(sockets, calls).Get(BestEffort) == []
  {
    if calls == [] {
    } else {
      BestEffortStaysEmpty(sockets, calls[..|calls| - 1]);
      RunStep(sockets, calls, BestEffort);
    }
  }

  lemma RefillKeepsOrder(sockets: Table<seq<nat>>, queues: Lines, polls: Table<seq<Poll>>, p: Priority)
    requires Possible(sockets, polls) && Ascending(sockets.Get(p)) && Ordered(queues.Get(p))
    ensures Ordered(Refilled(queues, sockets, polls).Get(p))
  {
    ReadsAreOrdered(p, sockets.Get(p), polls.Get(p));
  }

  ghost predicate AlwaysOrdered(sockets: Table<seq<nat>>, p: Priority) {
    forall calls, polls :: AllPossible(sockets, calls) && Possible(sockets, polls) ==>
      Ordered(Compared(sockets, calls, polls).Get(p))
  }

  /** A class's deque is deadline-ordered in every run exactly when its sockets were
      registered in order of ascending budget. */
  lemma OrderedExactlyWhenBudgetsAscend(sockets: Table<seq<nat>>, p: Priority)
    requires p != BestEffort
    ensures AlwaysOrdered(sockets, p) <==> Ascending(sockets.Get(p))
  {
    if Ascending(sockets.Get(p)) {
      forall calls, polls | AllPossible(sockets, calls) && Possible(sockets, polls)
        ensures Ordered(Compared(sockets, calls, polls).Get(p))
      {
        RunKeepsOrder(sockets, calls, p);
        RefillKeepsOrder(sockets, Run(sockets, calls), polls, p);
      }
    }
    if AlwaysOrdered(sockets, p) {
      var budgets := sockets.Get(p);
      var none: Table<seq<Poll>> := Uniform([]);
      var polls := none.Set(p, AtOnce(|budgets|));
      AtOnceReads(p, budgets, |budgets|);
      assert Possible(sockets, polls) && AllPossible(sockets, []);
      assert Compared(sockets, [], polls).Get(p) == Reads(p, budgets, AtOnce(|budgets|));
    }
  }

  /** With ascending budgets every call picks a packet that no queued packet precedes. */
  lemma EveryCallIsGlobalEdf(sockets: Table<seq<nat>>, calls: seq<Table<seq<Poll>>>, polls: Table<seq<Poll>>)
    requires forall p :: p != BestEffort ==> Ascending(sockets.Get(p))
    requires AllPossible(sockets, calls) && Possible(sockets, polls)
    ensures var all := Compared(sockets, calls, polls);
            && (Choice(all) == None <==> all == NOTHING)
            && forall q, x :: Choice(all).Some? && x in all.Get(q) ==>
                 Precedes(all.Get(Choice(all).value)[0], Choice(all).value, x, q)
  {
    var all := Compared(sockets, calls, polls);
    forall p ensures Ordered(all.Get(p)) {
      if p == BestEffort {
        BestEffortStaysEmpty(sockets, calls);
      } else {
        RunKeepsOrder(sockets, calls, p);
        RefillKeepsOrder(sockets, Run(sockets, calls), polls, p);
      }
    }
    OrderedChoice(all);
  }

  // ------------------------------------------------------------------
  // When every call is global EDF
  // ------------------------------------------------------------------

  /** The chosen head precedes every queued packet. */
  ghost predicate PicksEarliest(all: Lines) {
    forall q, x :: Choice(all).Some? && x in all.Get(q) ==>
      Precedes(all.Get(Choice(all).value)[0], Choice(all).value, x, q)
  }

  ghost predicate AlwaysPicksEarliest(sockets: Table<seq<nat>>) {
    forall calls, polls :: AllPossible(sockets, calls) && Possible(sockets, polls) ==>
      PicksEarliest(Compared(sockets, calls, polls))
  }

  /** A pass up to socket j in which only sockets i and j deliver, at the same instant. */
  function Pair(n: nat, i: nat, j: nat): seq<Poll> {
    seq(n, k => Poll(0, if k == i || k == j then Some(Datagram(0, 1)) else None))
  }

  lemma {:induction false} PairReads(p: Priority, budgets: seq<nat>, n: nat, i: nat, j: nat)
    requires n <= |budgets| && i < j < |budgets|
    ensures var x, y := Packet(0, p, 0, budgets[i], 1), Packet(0, p, 0, budgets[j], 1);
            Reads(p, budgets, Pair(n, i, j)) == if n <= i then [] else if n <= j then [x] else [x, y]
  {
    if n == 0 {
    } else {
      PairReads(p, budgets, n - 1, i, j);
      assert Pair(n, i, j)[..n - 1] == Pair(n - 1, i, j);
    }
  }

  /** With budgets out of order the first call can pick the later of two packets. */
  lemma DescentPicksLater(sockets: Table<seq<nat>>, p: Priority, i: nat, j: nat)
    requires p != BestEffort && i < j < |sockets.Get(p)| && sockets.Get(p)[i] > sockets.Get(p)[j]
    ensures !AlwaysPicksEarliest(sockets)
  {
    var budgets := sockets.Get(p);
    var none: Table<seq<Poll>> := Uniform([]);
    var polls := none.Set(p, Pair(|budgets|, i, j));
    PairReads(p, budgets, |budgets|, i, j);
    assert Possible(sockets, polls) && AllPossible(sockets, []);
    var all := Compared(sockets, [], polls);
    var x, y := Packet(0, p, 0, budgets[i], 1), Packet(0, p, 0, budgets[j], 1);
    assert all.Get(p) == [x, y] && forall q :: q != p ==> all.Get(q) == [];
    assert Picks(all, p);
    assert y in all.Get(p) && !Precedes(x, p, y, p);
    assert !PicksEarliest(all);
  }

  /** Every call of every run picks a packet that no queued packet precedes, exactly when
      the sockets of each class were registered in order of ascending budget. */
  lemma GlobalEdfExactlyWhenBudgetsAscend(sockets: Table<seq<nat>>)
    ensures AlwaysPicksEarliest(sockets) <==> forall p :: p != BestEffort ==> Ascending(sockets.Get(p))
  {
    if forall p :: p != BestEffort ==> Ascending(sockets.Get(p)) {
      forall calls, polls | AllPossible(sockets, calls) && Possible(sockets, polls)
        ensures PicksEarliest(Compared(sockets, calls, polls))
      {
        EveryCallIsGlobalEdf(sockets, calls, polls);
      }
    } else {
      var p :| p != BestEffort && !Ascending(sockets.Get(p));
      var i, j :| 0 <= i < j < |sockets.Get(p)| && sockets.Get(p)[i] > sockets.Get(p)[j];
      DescentPicksLater(sockets, p, i, j);
    }
  }
}
