/** The per-class counters that the workers share with the controller: how far they
    can differ from the heaps they describe. */
module SharedCounters {
  import opened Pipeline
  import opened Heaps
  import opened MultiWorkerProtocol
  import opened ChannelOrder
  import HeadOfLine

  /** The protocol with every worker's shared counters, and the class each worker popped
      first in its present pass, which is the class it credits. */
  datatype System = System(state: State, shared: seq<Table<int>>, first: seq<Priority>)

  const BEGIN := System(Initial(), [Uniform(0), Uniform(0), Uniform(0)], [High, High, High])

  /** Changes of a worker's counter: the class counted, up or down. */
  datatype Change = Change(priority: Priority, delta: int)

  /** What event e adds to the counters of worker e.id. */
  function Entry(s: State, e: Event, first: Priority): Option<Change> {
    if e.Arrive? || e.id >= |s.workers| then None
    else
      var w := s.workers[e.id];
      match (e, w.phase)
      case (DrainPlace(id), DrainFetched(turn, packet)) =>
        if turn < |Classes(id)| && Admit(w, NextItem(s, Classes(id)[turn], packet)).Some?
        then Some(Change(Classes(id)[turn], 1)) else None
      case (Pop(id, i), Drain(turn)) =>
        if turn >= |Classes(id)| && w.heap != [] && Earliest(w.heap, i)
        then Some(Change(w.heap[i].priority, -1)) else None
      case (PollPlace(_), PollFetched(slot, packet)) =>
        if Deadline(packet) < Deadline(slot.packet) then Some(Change(first, 1))
        else if Admit(w, NextItem(s, High, packet)).Some? then Some(Change(High, 1)) else None
      case (GuardPlace(_), GuardFetched(_, _)) => Some(Change(first, 1))
      case _ => None
  }

  function Next(s: System, e: Event): System
    requires |s.shared| == |s.first| == |s.state.workers|
  {
    if e.Arrive? || e.id >= |s.first| then s.(state := Step(s.state, e))
    else
      var t := s.(state := Step(s.state, e));
      match Entry(s.state, e, s.first[e.id])
      case None => t
      case Some(change) =>
        var row := s.shared[e.id];
        t.(shared := s.shared[e.id := row.Set(change.priority, row.Get(change.priority) + change.delta)],
           first := if e.Pop? then s.first[e.id := change.priority] else s.first)
  }

  ghost predicate Shaped(s: System) {
    |s.shared| == |s.first| == |s.state.workers| == 3
  }

  lemma StepKeepsWorkers(s: State, e: Event)
    ensures |Step(s, e).workers| == |s.workers|
  {
  }

  function RunAll(es: seq<Event>): (s: System)
    ensures |s.shared| == |s.first| == |s.state.workers| == 3
  {
    if es == [] then BEGIN
    else
      StepKeepsWorkers(RunAll(es[..|es| - 1]).state, es[|es| - 1]);
      Next(RunAll(es[..|es| - 1]), es[|es| - 1])
  }

  lemma {:induction false} StateIsRun(es: seq<Event>)
    ensures RunAll(es).state == Run(Initial(), es)
  {
    if es == [] {
    } else {
      StateIsRun(es[..|es| - 1]);
    }
  }

  /** How far worker id's shared counter of class p is ahead of its heap. */
  function Drift(s: System, id: nat, p: Priority): int
    requires id < |s.shared| && id < |s.state.workers|
  {
    s.shared[id].Get(p) - s.state.workers[id].counts.Get(p)
  }

  // ------------------------------------------------------------------
  // Which steps miscount
  // ------------------------------------------------------------------

  /** The item in hand that event e displaces. */
  function Displaced(s: State, e: Event): Option<WorkItem> {
    if e.Arrive? || e.id >= |s.workers| then None
    else
      match (e, s.workers[e.id].phase)
      case (PollPlace(_), PollFetched(slot, packet)) =>
        if Deadline(packet) < Deadline(slot.packet) then Some(slot) else None
      case (GuardPlace(_), GuardFetched(slot, _)) => Some(slot)
      case _ => None
  }

  /** A step credits class `first`, while it is the displaced item that returns to the
      heap if it has room. */
  function Gain(s: System, e: Event, p: Priority): int
    requires Shaped(s)
  {
    match Displaced(s.state, e)
    case None => 0
    case Some(slot) =>
      var fits := Room(s.state.workers[e.id], slot.priority);
      (if p == s.first[e.id] then 1 else 0) - if fits && p == slot.priority then 1 else 0
  }

  lemma AdmitCounts(w: Worker, item: WorkItem, p: Priority)
    ensures Admit(w, item).Some? <==> Room(w, item.priority)
    ensures Admit(w, item).Some? ==>
              Admit(w, item).value.counts.Get(p) == w.counts.Get(p) + if p == item.priority then 1 else 0
  {
  }

  lemma DrainPlaceDrifts(s: System, id: nat, turn: nat, packet: Packet, p: Priority)
    requires Shaped(s) && id < 3 && s.state.workers[id].phase == DrainFetched(turn, packet)
    ensures Shaped(Next(s, DrainPlace(id))) && Drift(Next(s, DrainPlace(id)), id, p) == Drift(s, id, p)
  {
    if turn < |Classes(id)| {
      AdmitCounts(s.state.workers[id], NextItem(s.state, Classes(id)[turn], packet), p);
    }
  }

  lemma PollPlaceDrifts(s: System, id: nat, slot: WorkItem, packet: Packet, p: Priority)
    requires Shaped(s) && id < 3 && s.state.workers[id].phase == PollFetched(slot, packet)
    ensures Shaped(Next(s, PollPlace(id)))
    ensures Drift(Next(s, PollPlace(id)), id, p) == Drift(s, id, p) + Gain(s, PollPlace(id), p)
  {
    AdmitCounts(s.state.workers[id], slot, p);
    AdmitCounts(s.state.workers[id], NextItem(s.state, High, packet), p);
  }

  lemma GuardPlaceDrifts(s: System, id: nat, slot: WorkItem, packet: Packet, p: Priority)
    requires Shaped(s) && id < 3 && s.state.workers[id].phase == GuardFetched(slot, packet)
    ensures Shaped(Next(s, GuardPlace(id)))
    ensures Drift(Next(s, GuardPlace(id)), id, p) == Drift(s, id, p) + Gain(s, GuardPlace(id), p)
  {
    AdmitCounts(s.state.workers[id], slot, p);
  }

  /** Events that move no item between hand and heap. */
  lemma QuietDrifts(s: System, e: Event, p: Priority)
    requires Shaped(s) && !e.Arrive? && e.id < 3 && Entry(s.state, e, s.first[e.id]).None?
    requires !e.Pop? && !e.DrainPlace? && !e.PollPlace? && !e.GuardPlace?
    ensures Shaped(Next(s, e)) && Drift(Next(s, e), e.id, p) == Drift(s, e.id, p)
  {
  }

  lemma ElsewhereDrifts(s: System, e: Event, id: nat, p: Priority)
    requires Shaped(s) && id < 3 && (e.Arrive? || e.id != id)
    ensures Shaped(Next(s, e)) && Drift(Next(s, e), id, p) == Drift(s, id, p)
  {
    OtherWorkersStay(s.state, e, id);
  }

  lemma OtherWorkersStay(s: State, e: Event, id: nat)
    requires id < |s.workers| && (e.Arrive? || e.id != id)
    ensures |Step(s, e).workers| == |s.workers| && Step(s, e).workers[id] == s.workers[id]
  {
  }

  lemma PoppedCounts(w: Worker, i: nat, p: Priority)
    requires w.counts.Get(p) == OfClass(w.heap, p)
    ensures Popped(w, i).counts.Get(p)
         == w.counts.Get(p) - if w.heap != [] && Earliest(w.heap, i) && p == w.heap[i].priority then 1 else 0
  {
    if w.heap != [] && Earliest(w.heap, i) {
      OfClassWithout(w.heap, i, p);
    }
  }

  lemma PopDrifts(s: System, id: nat, i: nat, p: Priority)
    requires Shaped(s) && id < 3 && s.state.workers[id].counts.Get(p) == OfClass(s.state.workers[id].heap, p)
    ensures Shaped(Next(s, Pop(id, i))) && Drift(Next(s, Pop(id, i)), id, p) == Drift(s, id, p)
  {
    PoppedCounts(s.state.workers[id], i, p);
  }

  /** The exact effect of a step on every counter. */
  lemma StepDrifts(s: System, e: Event, id: nat, p: Priority)
    requires Shaped(s) && Inv(s.state) && id < 3
    ensures Shaped(Next(s, e))
    ensures Drift(Next(s, e), id, p) == Drift(s, id, p) + if !e.Arrive? && e.id == id then Gain(s, e, p) else 0
  {
    if e.Arrive? || e.id != id {
      ElsewhereDrifts(s, e, id, p);
    } else {
      OwnStepDrifts(s, e, p);
    }
  }

  lemma OwnStepDrifts(s: System, e: Event, p: Priority)
    requires Shaped(s) && Inv(s.state) && !e.Arrive? && e.id < 3
    ensures Shaped(Next(s, e)) && Drift(Next(s, e), e.id, p) == Drift(s, e.id, p) + Gain(s, e, p)
  {
    var phase := s.state.workers[e.id].phase;
    if e.Pop? {
      assert LocalInv(e.id, s.state.workers[e.id]);
      PopDrifts(s, e.id, e.index, p);
    } else if e.DrainPlace? && phase.DrainFetched? {
      DrainPlaceDrifts(s, e.id, phase.turn, phase.packet, p);
    } else if e.PollPlace? && phase.PollFetched? {
      PollPlaceDrifts(s, e.id, phase.slot, phase.packet, p);
    } else if e.GuardPlace? && phase.GuardFetched? {
      GuardPlaceDrifts(s, e.id, phase.slot, phase.packet, p);
    } else if !e.DrainPlace? && !e.PollPlace? && !e.GuardPlace? {
      QuietDrifts(s, e, p);
    }
  }

  /** A step makes some counter wrong, or more wrong, exactly when it displaces an item that
      is not of the class popped first or has no room to return. */
  lemma MiscountsExactlyWhen(s: System, e: Event)
    requires Shaped(s) && Inv(s.state) && !e.Arrive? && e.id < 3
    ensures Shaped(Next(s, e))
    ensures (exists p :: Drift(Next(s, e), e.id, p) != Drift(s, e.id, p))
        <==> Displaced(s.state, e).Some?
             && var slot := Displaced(s.state, e).value;
                slot.priority != s.first[e.id] || !Room(s.state.workers[e.id], slot.priority)
  {
    forall p ensures Drift(Next(s, e), e.id, p) == Drift(s, e.id, p) + Gain(s, e, p) {
      StepDrifts(s, e, e.id, p);
    }
    StepDrifts(s, e, e.id, High);
    if Displaced(s.state, e).Some? {
      assert Drift(Next(s, e), e.id, s.first[e.id]) == Drift(s, e.id, s.first[e.id]) + Gain(s, e, s.first[e.id]);
    }
  }

  // ------------------------------------------------------------------
  // High packets in deadline order
  // ------------------------------------------------------------------

  ghost predicate AheadOf(x: Packet, queue: seq<Packet>) {
    forall y :: y in queue ==> Deadline(x) <= Deadline(y)
  }

  ghost predicate QueueInv(queue: seq<Packet>, arrived: seq<Packet>) {
    HeadOfLine.Ordered(queue) && forall y :: y in queue ==> y in arrived
  }

  /** The item in hand is of the class popped first, or a High packet that no waiting one
      can displace. */
  ghost predicate SlotInv(slot: WorkItem, first: Priority, queue: seq<Packet>, arrived: seq<Packet>) {
    slot.priority == first || (slot.priority == High && slot.packet in arrived && AheadOf(slot.packet, queue))
  }

  ghost predicate HandInv(phase: Phase, first: Priority, queue: seq<Packet>, arrived: seq<Packet>) {
    match phase
    case Poll(slot) => SlotInv(slot, first, queue, arrived)
    case PollFetched(slot, x) =>
      && SlotInv(slot, first, queue, arrived)
      && x in arrived && AheadOf(x, queue)
      && (slot.priority != first ==> Deadline(slot.packet) <= Deadline(x))
    case Guard(slot) => SlotInv(slot, first, queue, arrived)
    case GuardFetched(slot, _) => slot.priority == first
    case _ => true
  }

  ghost predicate OrderInv(s: System, arrived: seq<Packet>) {
    && Shaped(s) && QueueInv(s.state.inputs.high, arrived)
    && forall id :: 0 <= id < 3 ==> HandInv(s.state.workers[id].phase, s.first[id], s.state.inputs.high, arrived)
  }

  /** A packet joins the channel. */
  lemma ArrivalKeepsOrder(queue: seq<Packet>, arrived: seq<Packet>, y: Packet, phase: Phase, first: Priority)
    requires HeadOfLine.Ordered(arrived + [y]) && QueueInv(queue, arrived) && HandInv(phase, first, queue, arrived)
    ensures QueueInv(queue + [y], arrived + [y]) && HandInv(phase, first, queue + [y], arrived + [y])
  {
    forall x | x in arrived ensures Deadline(x) <= Deadline(y) {
      var i :| 0 <= i < |arrived| && arrived[i] == x;
      assert (arrived + [y])[i] == x && (arrived + [y])[|arrived|] == y;
    }
    forall i | 0 <= i < |queue| ensures queue[i] in arrived {
      assert queue[i] in queue;
    }
  }

  /** The head of the channel leaves it. */
  lemma HeadLeaves(queue: seq<Packet>, arrived: seq<Packet>, phase: Phase, first: Priority)
    requires queue != [] && QueueInv(queue, arrived) && HandInv(phase, first, queue, arrived)
    ensures QueueInv(queue[1..], arrived) && HandInv(phase, first, queue[1..], arrived)
    ensures queue[0] in arrived && AheadOf(queue[0], queue[1..])
  {
    assert queue[0] in queue;
    forall y | y in queue[1..] ensures y in queue && Deadline(queue[0]) <= Deadline(y) {
      var i :| 0 <= i < |queue[1..]| && queue[1..][i] == y;
      assert queue[i + 1] == y;
    }
  }

  /** What worker e.id holds after its own step. */
  lemma OwnHand(s: System, e: Event, arrived: seq<Packet>)
    requires OrderInv(s, arrived) && !e.Arrive? && e.id < 3
    ensures Shaped(Next(s, e))
    ensures var t := Next(s, e);
            HandInv(t.state.workers[e.id].phase, t.first[e.id], t.state.inputs.high, arrived)
  {
    if e.DrainStep? || e.PollStep? || e.GuardStep? {
      HandAfterReceiving(s, e, arrived);
    } else if e.DrainPlace? || e.PollPlace? || e.GuardPlace? {
      HandAfterPlacing(s, e, arrived);
    } else if e.Pop? {
      HandAfterPop(s, e.id, e.index, arrived);
    }
  }

  lemma HandAfterReceiving(s: System, e: Event, arrived: seq<Packet>)
    requires OrderInv(s, arrived) && (e.DrainStep? || e.PollStep? || e.GuardStep?) && e.id < 3
    ensures Shaped(Next(s, e))
    ensures var t := Next(s, e);
            HandInv(t.state.workers[e.id].phase, t.first[e.id], t.state.inputs.high, arrived)
  {
    var phase, queue := s.state.workers[e.id].phase, s.state.inputs.high;
    if queue != [] {
      HeadLeaves(queue, arrived, phase, s.first[e.id]);
    }
    if e.PollStep? && phase.Poll? && queue != [] {
      assert queue[0] in queue;
    }
  }

  lemma HandAfterPlacing(s: System, e: Event, arrived: seq<Packet>)
    requires OrderInv(s, arrived) && (e.DrainPlace? || e.PollPlace? || e.GuardPlace?) && e.id < 3
    ensures Shaped(Next(s, e))
    ensures var t := Next(s, e);
            HandInv(t.state.workers[e.id].phase, t.first[e.id], t.state.inputs.high, arrived)
  {
  }

  lemma HandAfterPop(s: System, id: nat, i: nat, arrived: seq<Packet>)
    requires OrderInv(s, arrived) && id < 3
    ensures Shaped(Next(s, Pop(id, i)))
    ensures var t := Next(s, Pop(id, i));
            HandInv(t.state.workers[id].phase, t.first[id], t.state.inputs.high, arrived)
  {
  }

  lemma OthersHand(s: System, e: Event, id: nat, arrived: seq<Packet>)
    requires OrderInv(s, arrived) && !e.Arrive? && e.id != id && id < 3
    ensures Shaped(Next(s, e))
    ensures var t := Next(s, e);
            && QueueInv(t.state.inputs.high, arrived)
            && HandInv(t.state.workers[id].phase, t.first[id], t.state.inputs.high, arrived)
  {
    OtherWorkersStay(s.state, e, id);
    HighQueueAfter(s.state, e);
    if s.state.inputs.high != [] {
      HeadLeaves(s.state.inputs.high, arrived, s.state.workers[id].phase, s.first[id]);
    }
  }

  lemma HighQueueAfter(s: State, e: Event)
    requires !e.Arrive?
    ensures Step(s, e).inputs.high == s.inputs.high
            || (s.inputs.high != [] && Step(s, e).inputs.high == s.inputs.high[1..])
  {
  }

  lemma NextKeepsOrder(s: System, e: Event, arrived: seq<Packet>)
    requires OrderInv(s, arrived) && HeadOfLine.Ordered(arrived + Arriving(e, High))
    ensures OrderInv(Next(s, e), arrived + Arriving(e, High))
  {
    StepKeepsWorkers(s.state, e);
    if e.Arrive? && e.priority != High {
      assert arrived + [] == arrived;
    } else if e.Arrive? {
      var queue := s.state.inputs.high;
      ArrivalKeepsOrder(queue, arrived, e.packet, s.state.workers[0].phase, s.first[0]);
      forall id | 0 <= id < 3
        ensures HandInv(Next(s, e).state.workers[id].phase, s.first[id], queue + [e.packet], arrived + [e.packet])
      {
        ArrivalKeepsOrder(queue, arrived, e.packet, s.state.workers[id].phase, s.first[id]);
      }
    } else {
      assert arrived + [] == arrived;
      forall id | 0 <= id < 3
        ensures QueueInv(Next(s, e).state.inputs.high, arrived)
        ensures HandInv(Next(s, e).state.workers[id].phase, Next(s, e).first[id], Next(s, e).state.inputs.high, arrived)
      {
        OthersHand(s, e, if e.id == 0 then 1 else 0, arrived);
        if e.id == id {
          OwnHand(s, e, arrived);
        } else {
          OthersHand(s, e, id, arrived);
        }
      }
    }
  }

  /** What a step adds to the counters' error is what it loses. */
  lemma GainIsLoss(s: System, e: Event, arrived: seq<Packet>, p: Priority)
    requires OrderInv(s, arrived) && Inv(s.state) && !e.Arrive? && e.id < 3
    ensures Gain(s, e, p) == OfClass(Step(s.state, e).lost, p) - OfClass(s.state.lost, p) >= 0
  {
    LossExactlyWhenQuotaShrank(s.state, e);
    var w := s.state.workers[e.id];
    assert LocalInv(e.id, w);
    if Displaced(s.state, e).Some? {
      OfClassAppend(s.state.lost, Displaced(s.state, e).value);
    }
  }

  /** The error summed over the workers. */
  function TotalDrift(s: System, p: Priority): int
    requires Shaped(s)
  {
    Drift(s, 0, p) + Drift(s, 1, p) + Drift(s, 2, p)
  }

  ghost predicate ErrorIsLoss(s: System, p: Priority)
    requires Shaped(s)
  {
    && TotalDrift(s, p) == OfClass(s.state.lost, p)
    && forall id :: 0 <= id < 3 ==> Drift(s, id, p) >= 0
  }

  lemma ErrorGrows(s: System, t: System, id: nat, gain: nat, p: Priority)
    requires Shaped(s) && Shaped(t) && ErrorIsLoss(s, p) && id < 3
    requires OfClass(t.state.lost, p) == OfClass(s.state.lost, p) + gain
    requires Drift(t, 0, p) == Drift(s, 0, p) + if id == 0 then gain else 0
    requires Drift(t, 1, p) == Drift(s, 1, p) + if id == 1 then gain else 0
    requires Drift(t, 2, p) == Drift(s, 2, p) + if id == 2 then gain else 0
    ensures ErrorIsLoss(t, p)
  {
  }

  lemma NextKeepsError(s: System, e: Event, arrived: seq<Packet>, p: Priority)
    requires OrderInv(s, arrived) && Inv(s.state) && ErrorIsLoss(s, p)
    ensures Shaped(Next(s, e)) && ErrorIsLoss(Next(s, e), p)
  {
    if e.Arrive? || e.id >= 3 {
      IdleKeepsError(s, e, p);
    } else {
      GainIsLoss(s, e, arrived, p);
      ActingKeepsError(s, e, p);
    }
  }

  lemma IdleKeepsError(s: System, e: Event, p: Priority)
    requires Shaped(s) && ErrorIsLoss(s, p) && (e.Arrive? || e.id >= 3)
    ensures Shaped(Next(s, e)) && ErrorIsLoss(Next(s, e), p)
  {
    ElsewhereDrifts(s, e, 0, p);
    ElsewhereDrifts(s, e, 1, p);
    ElsewhereDrifts(s, e, 2, p);
    LostUnlessActing(s.state, e);
    ErrorGrows(s, Next(s, e), 0, 0, p);
  }

  lemma ActingKeepsError(s: System, e: Event, p: Priority)
    requires Shaped(s) && Inv(s.state) && ErrorIsLoss(s, p) && !e.Arrive? && e.id < 3
    requires Gain(s, e, p) == OfClass(Step(s.state, e).lost, p) - OfClass(s.state.lost, p) >= 0
    ensures Shaped(Next(s, e)) && ErrorIsLoss(Next(s, e), p)
  {
    StepDrifts(s, e, 0, p);
    StepDrifts(s, e, 1, p);
    StepDrifts(s, e, 2, p);
    ErrorGrows(s, Next(s, e), e.id, Gain(s, e, p), p);
  }

  lemma LostUnlessActing(s: State, e: Event)
    requires e.Arrive? || e.id >= |s.workers|
    ensures Step(s, e).lost == s.lost
  {
  }

  /** If High packets arrive in deadline order, the counters of a class exceed the heaps
      together by exactly the packets of that class that were lost, in every run. */
  lemma {:induction false} OrderedRunsMiscountOnlyLosses(es: seq<Event>, p: Priority)
    requires HeadOfLine.Ordered(Arrived(es, High))
    ensures var s := RunAll(es);
            && Inv(s.state) && OrderInv(s, Arrived(es, High)) && ErrorIsLoss(s, p)
  {
    if es == [] {
      BeginHolds(p);
    } else {
      var init, e := es[..|es| - 1], es[|es| - 1];
      OrderedPrefix(Arrived(init, High), Arriving(e, High));
      OrderedRunsMiscountOnlyLosses(init, p);
      NextKeepsOrder(RunAll(init), e, Arrived(init, High));
      StepKeepsInv(RunAll(init).state, e);
      NextKeepsError(RunAll(init), e, Arrived(init, High), p);
    }
  }

  lemma BeginHolds(p: Priority)
    ensures Inv(BEGIN.state) && OrderInv(BEGIN, []) && ErrorIsLoss(BEGIN, p)
  {
    InitialInv();
  }

  lemma OrderedPrefix(xs: seq<Packet>, ys: seq<Packet>)
    requires HeadOfLine.Ordered(xs + ys)
    ensures HeadOfLine.Ordered(xs)
  {
    forall i, j | 0 <= i < j < |xs| ensures Deadline(xs[i]) <= Deadline(xs[j]) {
      assert (xs + ys)[i] == xs[i] && (xs + ys)[j] == xs[j];
    }
  }

  lemma {:induction false} NoneCounted(items: seq<WorkItem>, p: Priority)
    requires NoneOf(items, p)
    ensures OfClass(items, p) == 0
  {
    if items == [] {
    } else {
      assert items[|items| - 1] in items;
      NoneCounted(items[..|items| - 1], p);
    }
  }

  lemma NoLossNoError(s: System, p: Priority, id: nat)
    requires Shaped(s) && ErrorIsLoss(s, p) && OfClass(s.state.lost, p) == 0 && id < 3
    ensures Drift(s, id, p) == 0
  {
    assert Drift(s, 0, p) >= 0 && Drift(s, 1, p) >= 0 && Drift(s, 2, p) >= 0;
  }

  /** While High packets arrive in deadline order and no packet of the class is lost, every
      worker's counter equals the number of its packets in that worker's heap. */
  lemma CountersAreExact(es: seq<Event>, p: Priority, id: nat)
    requires HeadOfLine.Ordered(Arrived(es, High)) && NoneOf(RunAll(es).state.lost, p) && id < 3
    ensures RunAll(es).shared[id].Get(p) == OfClass(RunAll(es).state.workers[id].heap, p)
  {
    var s := RunAll(es);
    OrderedRunsMiscountOnlyLosses(es, p);
    NoneCounted(s.state.lost, p);
    NoLossNoError(s, p, id);
    assert LocalInv(id, s.state.workers[id]);
  }

  // ------------------------------------------------------------------
  // High packets out of order
  // ------------------------------------------------------------------

  lemma {:induction false} ArrivalsAreArrived(es: seq<Event>, p: Priority, x: Packet)
    ensures Arrivals(es, p, x) == Occurrences(Arrived(es, p), x)
  {
    if es == [] {
    } else {
      ArrivalsAreArrived(es[..|es| - 1], p, x);
    }
  }

  /** Worker 2 holds a Medium item that it has popped; worker 1 is receiving another. */
  ghost function MediumHeld(a: Packet, m: Packet): State {
    Racing(Uniform([]), DrainFetched(1, a), Second([], Uniform(0), Poll(WorkItem(Medium, 0, m))),
        Uniform([]).Set(Medium, [m]))
  }

  lemma MediumIsPopped(a: Packet, m: Packet) returns (es: seq<Event>)
    ensures Run(Initial(), es) == MediumHeld(a, m)
  {
    var numbered := Uniform([]).Set(Medium, [m]);
    var item := WorkItem(Medium, 0, m);
    SecondNumbersFirst(Medium, a, m);
    SecondEndsDraining(Medium, [a, m], DrainFetched(1, a), [item], Uniform(0).Set(Medium, 1), numbered, 1);
    var s := Racing(Uniform([]), DrainFetched(1, a), Second([item], Uniform(0).Set(Medium, 1), Drain(4)), numbered);
    Acts(Medium, [a, m], s, Pop(2, 0));
    SecondPops(item, DrainFetched(1, a), numbered);
    es :| Run(Initial(), es) == MediumHeld(a, m) && Arrived(es, Medium) == [a, m];
  }

  /** There the counters are exact, as no High packet has arrived yet. */
  lemma MediumInHand(a: Packet, m: Packet) returns (es: seq<Event>)
    ensures RunAll(es).state == MediumHeld(a, m) && Inv(RunAll(es).state)
    ensures RunAll(es).first[2] == Medium
    ensures Drift(RunAll(es), 2, Medium) == 0 && Drift(RunAll(es), 2, High) == 0
  {
    es := MediumIsPopped(a, m);
    StateIsRun(es);
    NoHighYet(es);
    OrderedRunsMiscountOnlyLosses(es, Medium);
    assert HandInv(RunAll(es).state.workers[2].phase, RunAll(es).first[2], RunAll(es).state.inputs.high, []);
    CountersAreExact(es, Medium, 2);
    CountersAreExact(es, High, 2);
    assert LocalInv(2, RunAll(es).state.workers[2]);
  }

  lemma NoHighYet(es: seq<Event>)
    requires var s := Run(Initial(), es);
             && s.inputs.high == [] && s.numbered.high == [] && |s.workers| == 3
             && s.workers[0] == IDLE && s.workers[1].phase.DrainFetched? && s.workers[1].phase.turn == 1
                 && s.workers[2].phase.Poll?
    ensures Arrived(es, High) == []
  {
    if Arrived(es, High) != [] {
      var s, x := Run(Initial(), es), Arrived(es, High)[0];
      assert x in multiset(Arrived(es, High));
      ArrivalsAreArrived(es, High, x);
      ArrivalsAreConserved(es, High, x);
      NothingInTransfer(s.workers, x);
    }
  }

  lemma NothingInTransfer(ws: seq<Worker>, x: Packet)
    requires |ws| == 3 && ws[0] == IDLE && ws[1].phase.DrainFetched? && ws[1].phase.turn == 1 && ws[2].phase.Poll?
    ensures Transfers(ws, High, x) == 0
  {
    assert ws[..2][..1] == ws[..1] && ws[..1][..0] == [];
    assert Classes(1)[1] == Medium;
    assert Transfers(ws[..1], High, x) == 0;
    assert Transfers(ws[..2], High, x) == 0;
  }

  ghost predicate Reachable(s: System) {
    exists es :: RunAll(es) == s
  }

  lemma NextIsReachable(s: System, e: Event)
    requires Shaped(s) && Reachable(s)
    ensures Reachable(Next(s, e))
  {
    var es :| RunAll(es) == s;
    assert (es + [e])[..|es|] == es;
    assert RunAll(es + [e]) == Next(s, e);
  }

  /** What the steps below leave: worker 2 with item `slot` in hand and High packets waiting. */
  ghost predicate Polling(s: System, slot: WorkItem, waiting: seq<Packet>) {
    && Shaped(s) && Reachable(s) && s.first[2] == Medium && s.state.lost == []
    && s.state.workers[2].phase == Poll(slot) && s.state.inputs.high == waiting
    && s.state.workers[2].quota == QUOTA2 && s.state.workers[2].limit == 256
  }

  lemma TwoHighArrive(s: System, slot: WorkItem, late: Packet, early: Packet) returns (t: System)
    requires Polling(s, slot, [])
    ensures Polling(t, slot, [late, early])
    ensures t.shared == s.shared && t.state.workers == s.state.workers
  {
    var half := Next(s, Arrive(High, late));
    NextIsReachable(s, Arrive(High, late));
    NextIsReachable(half, Arrive(High, early));
    t := Next(half, Arrive(High, early));
    assert [] + [late] == [late] && [late] + [early] == [late, early];
  }

  /** Worker 2 receives the next High packet. */
  lemma Receives(s: System, slot: WorkItem, h: Packet, rest: seq<Packet>) returns (t: System)
    requires Polling(s, slot, [h] + rest) && Room(s.state.workers[2], High)
    ensures Shaped(t) && Reachable(t) && t.shared == s.shared && t.first == s.first
    ensures t.state.workers[2] == s.state.workers[2].(phase := PollFetched(slot, h))
    ensures t.state.inputs.high == rest && t.state.lost == []
  {
    NextIsReachable(s, PollStep(2));
    t := Next(s, PollStep(2));
    assert ([h] + rest)[1..] == rest;
  }

  /** It is due before the item in hand, which goes back; Medium, the class popped first,
      is credited. */
  lemma Displaces(s: System, slot: WorkItem, h: Packet) returns (t: System)
    requires Shaped(s) && Reachable(s) && s.state.workers[2].phase == PollFetched(slot, h)
    requires Deadline(h) < Deadline(slot.packet) && Room(s.state.workers[2], slot.priority)
    requires s.state.lost == [] && s.first[2] == Medium
    ensures Shaped(t) && Reachable(t) && t.first == s.first
    ensures t.state.inputs.high == s.state.inputs.high && t.state.lost == []
    ensures var w := s.state.workers[2];
            t.state.workers[2] == w.(heap := w.heap + [slot],
                counts := w.counts.Set(slot.priority, w.counts.Get(slot.priority) + 1),
                                     total := w.total + 1, phase := Poll(NextItem(s.state, High, h)))
    ensures t.shared[2] == s.shared[2].(medium := s.shared[2].medium + 1)
  {
    NextIsReachable(s, PollPlace(2));
    t := Next(s, PollPlace(2));
    ItemGoesBack(s.state, slot, h);
  }

  lemma ItemGoesBack(s: State, slot: WorkItem, h: Packet)
    requires |s.workers| == 3 && s.workers[2].phase == PollFetched(slot, h)
    requires Deadline(h) < Deadline(slot.packet) && Room(s.workers[2], slot.priority) && s.lost == []
    ensures var w, t := s.workers[2], Step(s, PollPlace(2));
            && |t.workers| == 3 && t.inputs == s.inputs && t.lost == []
            && t.workers[2] == w.(heap := w.heap + [slot],
                counts := w.counts.Set(slot.priority, w.counts.Get(slot.priority) + 1),
                                  total := w.total + 1, phase := Poll(NextItem(s, High, h)))
  {
  }

  /** Worker 2's heap and the errors of its Medium and High counters. */
  ghost predicate Errors(s: System, counts: Table<nat>, total: nat, medium: int, high: int) {
    && Shaped(s) && s.state.workers[2].counts == counts && s.state.workers[2].total == total
    && Drift(s, 2, Medium) == medium && Drift(s, 2, High) == high
  }

  /** Both steps in a row. */
  lemma ReceivesAndDisplaces(s: System, slot: WorkItem, h: Packet, rest: seq<Packet>, counts: Table<nat>, total: nat,
                             medium: int, high: int) returns (u: System, next: WorkItem)
    requires Polling(s, slot, [h] + rest) && Errors(s, counts, total, medium, high)
             && Deadline(h) < Deadline(slot.packet)
    requires (slot.priority == Medium || slot.priority == High) && counts.high < 4 && counts.medium < 60 && total < 256
    ensures Polling(u, next, rest) && next.priority == High && next.packet == h
    ensures if slot.priority == Medium then Errors(u, counts.(medium := counts.medium + 1), total + 1, medium, high)
            else Errors(u, counts.(high := counts.high + 1), total + 1, medium + 1, high - 1)
  {
    var t := Receives(s, slot, h, rest);
    u := Displaces(t, slot, h);
    next := NextItem(t.state, High, h);
  }

  lemma StartsPolling(m: Packet) returns (s: System)
    ensures Polling(s, WorkItem(Medium, 0, m), []) && Errors(s, Uniform(0), 0, 0, 0)
  {
    var es := MediumInHand(m, m);
    s := RunAll(es);
  }

  /** Two High packets out of order: the first displaces the Medium item, the second the
      first, and Medium is credited for both. Nothing is lost, yet Medium is then counted
      once too often and High once too little. */
  lemma OutOfOrderMiscounts(m: Packet, late: Packet, early: Packet)
    requires Deadline(early) < Deadline(late) < Deadline(m)
    ensures exists es ::
              RunAll(es).state.lost == [] && Drift(RunAll(es), 2, Medium) == 1 && Drift(RunAll(es), 2, High) == -1
  {
    var item := WorkItem(Medium, 0, m);
    var s := StartsPolling(m);
    var t := TwoHighArrive(s, item, late, early);
    assert [late] + [early] == [late, early] && [early] + [] == [early];
    var u, held := ReceivesAndDisplaces(t, item, late, [early], Uniform(0), 0, 0, 0);
    var v, last := ReceivesAndDisplaces(u, held, early, [], Table(0, 1, 0, 0), 1, 0, 0);
    var es :| RunAll(es) == v;
    assert Drift(RunAll(es), 2, Medium) == 1 && Drift(RunAll(es), 2, High) == -1;
  }
}
