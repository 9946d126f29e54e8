/** Choosing among per-class queues by looking at their heads only. */
module HeadOfLine {
  import opened Pipeline

  type Lines = Table<seq<Packet>>

  const NOTHING: Lines := Table([], [], [], [])

  ghost predicate Ordered(line: seq<Packet>) {
    forall i, j :: 0 <= i < j < |line| ==> Deadline(line[i]) <= Deadline(line[j])
  }

  /** Class c has the earliest head; on a tie the higher class goes first. */
  ghost predicate Picks(lines: Lines, c: Priority) {
    && lines.Get(c) != []
    && forall q :: lines.Get(q) != [] ==> Precedes(lines.Get(c)[0], c, lines.Get(q)[0], q)
  }

  predicate Precedes(x: Packet, c: Priority, y: Packet, q: Priority) {
    Deadline(x) < Deadline(y) || (Deadline(x) == Deadline(y) && Index(c) <= Index(q))
  }

  ghost function Choice(lines: Lines): Option<Priority> {
    if exists c :: Picks(lines, c) then (var c :| Picks(lines, c); Some(c)) else None
  }

  lemma BestIsChoice(lines: Lines)
    ensures BestOf(lines, |ALL|) == Choice(lines)
  {
    ChoiceExists(lines);
    assert forall q :: Index(q) < |ALL|;
  }

  lemma SameLines(a: Lines, b: Lines)
    requires a.Get(High) == b.Get(High) && a.Get(Medium) == b.Get(Medium)
    requires a.Get(Low) == b.Get(Low) && a.Get(BestEffort) == b.Get(BestEffort)
    ensures a == b
  {
  }

  /** Something is chosen exactly when some line is not empty. */
  lemma ChoiceExists(lines: Lines)
    ensures Choice(lines) == None <==> lines == NOTHING
  {
    assert forall q :: Index(q) < |ALL|;
    var best := BestOf(lines, |ALL|);
    if best.Some? {
      assert Picks(lines, best.value);
    } else {
      SameLines(lines, NOTHING);
    }
  }

  /** The best class among the first n. */
  ghost function BestOf(lines: Lines, n: nat): (r: Option<Priority>)
    requires n <= |ALL|
    ensures r.None? ==> forall q :: Index(q) < n ==> lines.Get(q) == []
    ensures r.Some? ==> Index(r.value) < n && lines.Get(r.value) != []
    ensures r.Some? ==> forall q :: Index(q) < n && lines.Get(q) != [] ==>
                          Precedes(lines.Get(r.value)[0], r.value, lines.Get(q)[0], q)
  {
    if n == 0 then None
    else
      var p, best := ALL[n - 1], BestOf(lines, n - 1);
      if lines.Get(p) == [] then best
      else if best.None? || Deadline(lines.Get(p)[0]) < Deadline(lines.Get(best.value)[0]) then Some(p)
      else best
  }

  /** With ordered lines the choice is the earliest packet of all, ties going to the
      higher class. */
  lemma PickIsEarliestOfAll(lines: Lines, c: Priority, q: Priority, x: Packet)
    requires Picks(lines, c) && Ordered(lines.Get(q)) && x in lines.Get(q)
    ensures Precedes(lines.Get(c)[0], c, x, q)
  {
    var i :| 0 <= i < |lines.Get(q)| && lines.Get(q)[i] == x;
    assert Deadline(lines.Get(q)[0]) <= Deadline(x);
  }

  lemma OrderedChoice(lines: Lines)
    requires forall q :: Ordered(lines.Get(q))
    ensures Choice(lines) == None <==> lines == NOTHING
    ensures forall q, x :: Choice(lines).Some? && x in lines.Get(q) ==>
              Precedes(lines.Get(Choice(lines).value)[0], Choice(lines).value, x, q)
  {
    ChoiceExists(lines);
    forall q, x | Choice(lines).Some? && x in lines.Get(q)
      ensures Precedes(lines.Get(Choice(lines).value)[0], Choice(lines).value, x, q)
    {
      PickIsEarliestOfAll(lines, Choice(lines).value, q, x);
    }
  }

  ghost function Appended(lines: Lines, more: Lines): (r: Lines)
    ensures forall q :: r.Get(q) == lines.Get(q) + more.Get(q)
  {
    Table(lines.high + more.high, lines.medium + more.medium, lines.low + more.low, lines.bestEffort + more.bestEffort)
  }

  /** Take the chosen head, if any. */
  ghost function Taken(lines: Lines): (r: Lines)
    ensures forall q :: r.Get(q) == if Choice(lines) == Some(q) then lines.Get(q)[1..] else lines.Get(q)
  {
    match Choice(lines)
    case None => lines
    case Some(c) => lines.Set(c, lines.Get(c)[1..])
  }

  ghost function Packets(lines: Lines): multiset<Packet> {
    multiset(lines.high) + multiset(lines.medium) + multiset(lines.low) + multiset(lines.bestEffort)
  }

  ghost function Count(lines: Lines): nat {
    |lines.high| + |lines.medium| + |lines.low| + |lines.bestEffort|
  }

  /** The order in which a backlog without further arrivals is drained. */
  ghost function DrainOrder(lines: Lines): seq<Packet>
    decreases Count(lines)
  {
    match Choice(lines)
    case None => []
    case Some(c) => [lines.Get(c)[0]] + DrainOrder(Taken(lines))
  }

  lemma TakingRemovesOne(lines: Lines, c: Priority)
    requires Choice(lines) == Some(c)
    ensures Packets(lines) == multiset{lines.Get(c)[0]} + Packets(Taken(lines))
  {
    var line := lines.Get(c);
    assert line == [line[0]] + line[1..];
    assert multiset(line) == multiset{line[0]} + multiset(line[1..]);
    match c { case High => case Medium => case Low => case BestEffort => }
  }

  lemma PacketsAreInLines(lines: Lines, x: Packet) returns (q: Priority)
    requires x in Packets(lines)
    ensures x in lines.Get(q)
  {
    q := if x in lines.high then High else if x in lines.medium then Medium
         else if x in lines.low then Low else BestEffort;
  }

  lemma {:induction false} DrainOrderIsComplete(lines: Lines)
    ensures multiset(DrainOrder(lines)) == Packets(lines)
    decreases Count(lines)
  {
    ChoiceExists(lines);
    if Choice(lines).Some? {
      var c := Choice(lines).value;
      DrainOrderIsComplete(Taken(lines));
      TakingRemovesOne(lines, c);
    }
  }

  ghost predicate AllOrdered(lines: Lines) {
    forall q :: Ordered(lines.Get(q))
  }

  lemma TakingKeepsOrder(lines: Lines)
    requires AllOrdered(lines)
    ensures AllOrdered(Taken(lines))
  {
    forall q ensures Ordered(Taken(lines).Get(q)) {
      assert Ordered(lines.Get(q));
    }
  }

  lemma ChosenPrecedesTheRest(lines: Lines, c: Priority)
    requires AllOrdered(lines) && Choice(lines) == Some(c)
    ensures forall x :: x in Packets(Taken(lines)) ==> Deadline(lines.Get(c)[0]) <= Deadline(x)
  {
    forall x | x in Packets(Taken(lines)) ensures Deadline(lines.Get(c)[0]) <= Deadline(x) {
      var q := PacketsAreInLines(Taken(lines), x);
      assert Ordered(lines.Get(q)) && x in lines.Get(q);
      PickIsEarliestOfAll(lines, c, q, x);
    }
  }

  lemma OrderedCons(first: Packet, rest: seq<Packet>, items: multiset<Packet>)
    requires Ordered(rest) && multiset(rest) == items
    requires forall x :: x in items ==> Deadline(first) <= Deadline(x)
    ensures Ordered([first] + rest)
  {
    forall j | 0 <= j < |rest| ensures Deadline(first) <= Deadline(rest[j]) {
      assert rest[j] in items;
    }
  }

  lemma {:induction false} DrainOrderIsOrdered(lines: Lines)
    requires AllOrdered(lines)
    ensures Ordered(DrainOrder(lines))
    decreases Count(lines)
  {
    if Choice(lines).Some? {
      var c, rest := Choice(lines).value, Taken(lines);
      TakingKeepsOrder(lines);
      DrainOrderIsOrdered(rest);
      DrainOrderIsComplete(rest);
      ChosenPrecedesTheRest(lines, c);
      OrderedCons(lines.Get(c)[0], DrainOrder(rest), Packets(rest));
    }
  }
}

/** The single-machine EDF stage between ingress and egress. */
module Edf {
  import opened Pipeline
  import opened EgressChannels
  import opened HeadOfLine

  function Slot(head: Option<Packet>): seq<Packet> {
    match head case None => [] case Some(x) => [x]
  }

  /** A line is the buffered head followed by the input channel. */
  ghost predicate Holds(lines: Lines, pending: Table<Option<Packet>>, inputs: Lines) {
    forall p :: lines.Get(p) == Slot(pending.Get(p)) + inputs.Get(p)
  }

  /** Every occupied line has its head in the buffer. */
  ghost predicate HeadsBuffered(lines: Lines, pending: Table<Option<Packet>>) {
    forall p :: pending.Get(p).None? ==> lines.Get(p) == []
  }

  class EdfScheduler {
    var inputs: Lines
    var pending: Table<Option<Packet>>
    const egress: Table<Egress>
    ghost var lines: Lines         // what waits in each class, buffered head first
    ghost var picks: seq<Pick>     // every packet picked so far

    constructor (egress: Table<Egress>)
      requires Separate(egress) && forall p :: egress.Get(p).Valid() && egress.Get(p).offered == []
      ensures Valid() && lines == NOTHING && picks == [] && this.egress == egress
    {
      inputs, pending, this.egress := NOTHING, Uniform(None), egress;
      lines, picks := NOTHING, [];
    }

    ghost predicate Valid()
      reads this, egress.high, egress.medium, egress.low, egress.bestEffort
    {
      Holds(lines, pending, inputs) && Delivered(egress, picks)
    }

    ghost function State(): Buffers
      reads this
    {
      Buffers(lines, pending, inputs)
    }

    /** Step 1. The receive on channel p sees whatever has arrived by then: `late` holds
        the packets sent since the previous receive. */
    method Refill(late: Lines)
      requires Holds(lines, pending, inputs)
      modifies this`inputs, this`pending, this`lines
      ensures Holds(lines, pending, inputs) && lines == Appended(old(lines), late) && HeadsBuffered(lines, pending)
    {
      ghost var before := State();
      assert forall q :: HoldsIn(before, q);
      for i := 0 to |ALL|
        invariant forall q :: LineAfter(before, State(), late, i, q)
      {
        ghost var now, done := State(), i + 1;
        ghost var next := Received(now, ALL[i], late.Get(ALL[i]));
        forall q ensures LineAfter(before, next, late, done, q) {
          NextLine(before, now, late, i, q);
        }
        RefillClass(ALL[i], late.Get(ALL[i]));
      }
      AllRefilled(before, State(), late);
    }

    method RefillClass(p: Priority, late: seq<Packet>)
      modifies this`inputs, this`pending, this`lines
      ensures State() == Received(old(State()), p, late)
    {
      var queue := inputs.Get(p) + late;
      inputs := inputs.Set(p, queue);
      if pending.Get(p).None? {
        if queue != [] {
          pending := pending.Set(p, Some(queue[0]));
          inputs := inputs.Set(p, queue[1..]);
        }
      }
      lines := lines.Set(p, lines.Get(p) + late);
    }

    /** Step 2: the earliest buffered deadline; a later class must be strictly earlier. */
    method Earliest() returns (r: Option<Priority>)
      requires Holds(lines, pending, inputs) && HeadsBuffered(lines, pending)
      ensures r == Choice(lines)
    {
      r := None;
      for i := 0 to |ALL|
        invariant r == BestOf(lines, i)
        invariant r.Some? ==> pending.Get(r.value).Some?
      {
        var p := ALL[i];
        if pending.Get(p).Some? {
          if r.None? || Deadline(pending.Get(p).value) < Deadline(pending.Get(r.value).value) {
            r := Some(p);
          }
        }
      }
      BestIsChoice(lines);
    }

    /** Steps 2 and 3: empty the slot with the earliest deadline. */
    method TakeEarliest() returns (picked: Option<Packet>)
      requires Holds(lines, pending, inputs) && HeadsBuffered(lines, pending)
      modifies this`pending, this`lines
      ensures Holds(lines, pending, inputs) && lines == Taken(old(lines)) && picked == Chosen(old(lines))
      ensures forall q :: pending.Get(q).None? && lines.Get(q) != [] ==> Choice(old(lines)) == Some(q)
    {
      var selected := Earliest();
      if selected.None? {
        return None;
      }
      var c := selected.value;
      picked := pending.Get(c);
      TakingKeepsHold(lines, pending, inputs, c);
      pending := pending.Set(c, None);
      lines := Taken(lines);
    }

    /** Steps 1 to 3: exactly the chosen head leaves its line. Every line that is still
        occupied keeps its head buffered, except the one just served. */
    method PickNext(late: Lines) returns (picked: Option<Packet>)
      requires Holds(lines, pending, inputs)
      modifies this`inputs, this`pending, this`lines
      ensures Holds(lines, pending, inputs)
      ensures var all := Appended(old(lines), late);
              && lines == Taken(all)
              && picked == Chosen(all)
              && forall q :: pending.Get(q).None? && lines.Get(q) != [] ==> Choice(all) == Some(q)
    {
      Refill(late);
      picked := TakeEarliest();
    }

    /** One call: the chosen head is offered to its class's egress channel, which takes it or
        counts a drop; nothing else moves. */
    method ProcessNext(late: Lines) returns (ghost picked: Option<Packet>)
      requires Valid()
      modifies this, egress.high, egress.medium, egress.low, egress.bestEffort
      ensures Valid()
      ensures lines == Taken(Appended(old(lines), late)) && picked == Chosen(Appended(old(lines), late))
      ensures forall q :: pending.Get(q).None? && lines.Get(q) != [] ==> Choice(Appended(old(lines), late)) == Some(q)
      ensures picks == old(picks) + if picked.Some? then [Pick(picked.value.priority, picked.value)] else []
      ensures forall q :: picked.None? || q != picked.value.priority ==> unchanged(egress.Get(q))
      ensures picked.Some? ==>
                var channel := egress.Get(picked.value.priority);
                if |old(channel.queue)| < channel.capacity
                then channel.queue == old(channel.queue) + [picked.value] && channel.drops == old(channel.drops)
                else channel.queue == old(channel.queue) && channel.drops == old(channel.drops) + 1
    {
      var packet := PickNext(late);
      picked := packet;
      picks := ForwardAny(egress, packet, picks);
    }
  }

  /** The buffers as a value. */
  datatype Buffers = Buffers(lines: Lines, pending: Table<Option<Packet>>, inputs: Lines)

  /** One receive: an empty slot takes the head of its channel. */
  function Received(b: Buffers, p: Priority, late: seq<Packet>): Buffers {
    var queue := b.inputs.Get(p) + late;
    var take := b.pending.Get(p).None? && queue != [];
    Buffers(
      b.lines.Set(p, b.lines.Get(p) + late),
      if take then b.pending.Set(p, Some(queue[0])) else b.pending,
      if take then b.inputs.Set(p, queue).Set(p, queue[1..]) else b.inputs.Set(p, queue))
  }

  ghost predicate HoldsIn(b: Buffers, p: Priority) {
    b.lines.Get(p) == Slot(b.pending.Get(p)) + b.inputs.Get(p)
  }

  lemma ReceivedInClass(b: Buffers, p: Priority, late: seq<Packet>)
    requires HoldsIn(b, p)
    ensures var c := Received(b, p, late);
            && HoldsIn(c, p)
            && c.lines.Get(p) == b.lines.Get(p) + late
            && (c.pending.Get(p).None? ==> c.lines.Get(p) == [])
  {
    var queue := b.inputs.Get(p) + late;
    assert b.lines.Get(p) + late == Slot(b.pending.Get(p)) + queue;
    match p { case High => case Medium => case Low => case BestEffort => }
  }

  lemma ReceivedElsewhere(b: Buffers, p: Priority, late: seq<Packet>, q: Priority)
    requires p != q
    ensures var c := Received(b, p, late);
            c.lines.Get(q) == b.lines.Get(q) && c.pending.Get(q) == b.pending.Get(q)
                && c.inputs.Get(q) == b.inputs.Get(q)
  {
  }

  lemma IndexAt(i: nat)
    requires i < |ALL|
    ensures Index(ALL[i]) == i && forall q :: Index(q) == i ==> q == ALL[i]
  {
  }

  /** Class q after the turns of the first n classes. */
  ghost predicate LineAfter(b: Buffers, c: Buffers, late: Lines, n: nat, q: Priority) {
    && HoldsIn(c, q)
    && c.lines.Get(q) == (if Index(q) < n then b.lines.Get(q) + late.Get(q) else b.lines.Get(q))
    && (Index(q) < n && c.pending.Get(q).None? ==> c.lines.Get(q) == [])
  }

  lemma NextLine(b: Buffers, c: Buffers, late: Lines, n: nat, q: Priority)
    requires n < |ALL| && LineAfter(b, c, late, n, q)
    ensures LineAfter(b, Received(c, ALL[n], late.Get(ALL[n])), late, n + 1, q)
  {
    IndexAt(n);
    if ALL[n] == q {
      ReceivedInClass(c, q, late.Get(q));
    } else {
      ReceivedElsewhere(c, ALL[n], late.Get(ALL[n]), q);
      assert Index(q) != n;
    }
  }

  lemma AllRefilled(b: Buffers, c: Buffers, late: Lines)
    requires forall q :: LineAfter(b, c, late, |ALL|, q)
    ensures Holds(c.lines, c.pending, c.inputs)
    ensures c.lines == Appended(b.lines, late)
    ensures HeadsBuffered(c.lines, c.pending)
  {
    forall q
      ensures HoldsIn(c, q) && c.lines.Get(q) == b.lines.Get(q) + late.Get(q)
              && (c.pending.Get(q).None? ==> c.lines.Get(q) == [])
    {
      assert LineAfter(b, c, late, |ALL|, q) && Index(q) < |ALL|;
    }
    SameLines(c.lines, Appended(b.lines, late));
  }

  lemma TakingKeepsHold(lines: Lines, pending: Table<Option<Packet>>, inputs: Lines, c: Priority)
    requires Holds(lines, pending, inputs) && HeadsBuffered(lines, pending) && Choice(lines) == Some(c)
    ensures Holds(Taken(lines), pending.Set(c, None), inputs)
    ensures pending.Get(c) == Some(lines.Get(c)[0])
    ensures forall q :: pending.Set(c, None).Get(q).None? && Taken(lines).Get(q) != [] ==> q == c
  {
    var rest, slots := Taken(lines), pending.Set(c, None);
    assert pending.Get(c).Some?;
    forall q ensures rest.Get(q) == Slot(slots.Get(q)) + inputs.Get(q) {
      assert slots.Get(q) == if q == c then None else pending.Get(q);
      assert lines.Get(q) == Slot(pending.Get(q)) + inputs.Get(q);
    }
  }

  /** The packet at the chosen head. */
  ghost function Chosen(lines: Lines): Option<Packet> {
    match Choice(lines) case None => None case Some(c) => Some(lines.Get(c)[0])
  }

  // ------------------------------------------------------------------
  // Whole runs: the calls of process_next, each with the arrivals it sees
  // ------------------------------------------------------------------

  ghost function Run(calls: seq<Lines>): Lines {
    if calls == [] then NOTHING else Taken(Appended(Run(calls[..|calls| - 1]), calls[|calls| - 1]))
  }

  /** Everything sent into channel p, in order. */
  ghost function Arrivals(calls: seq<Lines>, p: Priority): seq<Packet> {
    if calls == [] then [] else Arrivals(calls[..|calls| - 1], p) + calls[|calls| - 1].Get(p)
  }

  /** How often class p has been chosen. */
  ghost function Picked(calls: seq<Lines>, p: Priority): nat {
    if calls == [] then 0
    else
      var all := Appended(Run(calls[..|calls| - 1]), calls[|calls| - 1]);
      Picked(calls[..|calls| - 1], p) + if Choice(all) == Some(p) then 1 else 0
  }

  lemma RunStep(calls: seq<Lines>, p: Priority)
    requires calls != []
    ensures var before, late := calls[..|calls| - 1], calls[|calls| - 1];
            var chosen := Choice(Appended(Run(before), late)) == Some(p);
            var line := Run(before).Get(p) + late.Get(p);
            && Picked(calls, p) == Picked(before, p) + (if chosen then 1 else 0)
            && (chosen ==> line != [])
            && Run(calls).Get(p) == if chosen then line[1..] else line
  {
  }

  lemma DropThenAppend(sent: seq<Packet>, more: seq<Packet>, k: nat)
    requires k <= |sent|
    ensures sent[k..] + more == (sent + more)[k..]
    ensures k < |sent + more| ==> (sent[k..] + more)[1..] == (sent + more)[k + 1..]
  {
  }

  /** Each class is served first-come first-served and loses nothing before it is chosen. */
  lemma {:induction false} LinesAreFifo(calls: seq<Lines>, p: Priority)
    ensures Picked(calls, p) <= |Arrivals(calls, p)|
    ensures Run(calls).Get(p) == Arrivals(calls, p)[Picked(calls, p)..]
  {
    if calls == [] {
    } else {
      LinesAreFifo(calls[..|calls| - 1], p);
      RunStep(calls, p);
      DropThenAppend(Arrivals(calls[..|calls| - 1], p), calls[|calls| - 1].Get(p), Picked(calls[..|calls| - 1], p));
    }
  }

  /** What leaves the scheduler in a run, in order. */
  ghost function PicksOf(calls: seq<Lines>): seq<Pick> {
    if calls == [] then []
    else
      var all := Appended(Run(calls[..|calls| - 1]), calls[|calls| - 1]);
      PicksOf(calls[..|calls| - 1]) + PickedBy(all)
  }

  ghost predicate Labelled(calls: seq<Lines>) {
    forall p, x :: x in Arrivals(calls, p) ==> x.priority == p
  }

  lemma LabelledBefore(calls: seq<Lines>)
    requires calls != [] && Labelled(calls)
    ensures Labelled(calls[..|calls| - 1])
  {
    var before := calls[..|calls| - 1];
    forall p, x | x in Arrivals(before, p) ensures x.priority == p {
      assert x in Arrivals(calls, p);
    }
  }

  ghost function PickedBy(all: Lines): seq<Pick> {
    match Chosen(all) case None => [] case Some(x) => [Pick(x.priority, x)]
  }

  lemma LeavingAppend(picks: seq<Pick>, all: Lines, p: Priority)
    requires forall c :: Choice(all) == Some(c) ==> all.Get(c)[0].priority == c
    ensures Leaving(picks + PickedBy(all), p)
         == Leaving(picks, p) + if Choice(all) == Some(p) then [all.Get(p)[0]] else []
  {
    if Choice(all).Some? {
      assert (picks + PickedBy(all))[..|picks|] == picks;
    } else {
      assert picks + [] == picks;
    }
  }

  lemma TakeThenAppend(sent: seq<Packet>, more: seq<Packet>, k: nat)
    requires k <= |sent|
    ensures sent[..k] == (sent + more)[..k]
    ensures k < |sent + more| ==> sent[..k] + [(sent + more)[k]] == (sent + more)[..k + 1]
  {
  }

  /** If every packet is sent into the channel of its own class, the packets that leave
      under a class are its first arrivals, in order. */
  lemma {:induction false} ClassesLeaveInOrder(calls: seq<Lines>, p: Priority)
    requires Labelled(calls)
    ensures Picked(calls, p) <= |Arrivals(calls, p)|
    ensures Leaving(PicksOf(calls), p) == Arrivals(calls, p)[..Picked(calls, p)]
  {
    LinesAreFifo(calls, p);
    if calls == [] {
    } else {
      var before, late := calls[..|calls| - 1], calls[|calls| - 1];
      var all := Appended(Run(before), late);
      LabelledBefore(calls);
      ClassesLeaveInOrder(before, p);
      forall c | Choice(all) == Some(c) ensures all.Get(c)[0].priority == c {
        HeadIsNextArrival(calls, c);
      }
      LeavingAppend(PicksOf(before), all, p);
      TakeThenAppend(Arrivals(before, p), late.Get(p), Picked(before, p));
      if Choice(all) == Some(p) {
        HeadIsNextArrival(calls, p);
      }
      assert Leaving(PicksOf(calls), p) == Leaving(PicksOf(before) + PickedBy(all), p);
    }
  }

  /** The head that the last call chose is the arrival after those picked before it. */
  lemma HeadIsNextArrival(calls: seq<Lines>, c: Priority)
    requires calls != [] && Labelled(calls)
    requires Choice(Appended(Run(calls[..|calls| - 1]), calls[|calls| - 1])) == Some(c)
    ensures var before, all := calls[..|calls| - 1], Appended(Run(calls[..|calls| - 1]), calls[|calls| - 1]);
            && Picked(before, c) < |Arrivals(calls, c)|
            && all.Get(c) != []
            && all.Get(c)[0] == Arrivals(calls, c)[Picked(before, c)] && all.Get(c)[0].priority == c
  {
    var before := calls[..|calls| - 1];
    LinesAreFifo(before, c);
    RunStep(calls, c);
    DropThenAppend(Arrivals(before, c), calls[|calls| - 1].Get(c), Picked(before, c));
    assert Arrivals(calls, c)[Picked(before, c)] in Arrivals(calls, c);
  }

  /** Ingress fixes one budget per class and stamps packets with a monotone clock. */
  ghost predicate Stamped(packets: seq<Packet>, budget: nat) {
    && (forall i :: 0 <= i < |packets| ==> packets[i].budget == budget)
    && (forall i, j :: 0 <= i < j < |packets| ==> packets[i].timestamp <= packets[j].timestamp)
  }

  lemma StampedLineIsOrdered(calls: seq<Lines>, late: Lines, p: Priority, budget: nat)
    requires Stamped(Arrivals(calls + [late], p), budget)
    ensures Ordered(Run(calls).Get(p) + late.Get(p))
  {
    LinesAreFifo(calls, p);
    assert (calls + [late])[..|calls|] == calls;
    DropThenAppend(Arrivals(calls, p), late.Get(p), Picked(calls, p));
    StampedSuffix(Arrivals(calls + [late], p), budget, Picked(calls, p));
  }

  lemma StampedSuffix(packets: seq<Packet>, budget: nat, k: nat)
    requires Stamped(packets, budget) && k <= |packets|
    ensures Ordered(packets[k..])
  {
  }

  /** Comparing heads only is global EDF: after any run, the next call picks a packet
      that no queued or buffered packet precedes. */
  lemma EveryCallIsGlobalEdf(calls: seq<Lines>, late: Lines, budgets: Table<nat>)
    requires forall p :: Stamped(Arrivals(calls + [late], p), budgets.Get(p))
    ensures var all := Appended(Run(calls), late);
            && AllOrdered(all)
            && (Choice(all) == None <==> all == NOTHING)
            && forall q, x :: Choice(all).Some? && x in all.Get(q) ==>
                 Precedes(all.Get(Choice(all).value)[0], Choice(all).value, x, q)
  {
    var all := Appended(Run(calls), late);
    forall p ensures Ordered(all.Get(p)) {
      StampedLineIsOrdered(calls, late, p, budgets.Get(p));
    }
    OrderedChoice(all);
  }
}
