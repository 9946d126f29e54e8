/** Whether the output of a class keeps the order in which its packets arrived. */
module ChannelOrder {
  import opened Pipeline
  import opened Heaps
  import opened SequenceTracking
  import opened MultiWorkerProtocol

  /** The packets that arrived on the channel of class p, in order. */
  function Arrived(es: seq<Event>, p: Priority): seq<Packet> {
    if es == [] then [] else Arrived(es[..|es| - 1], p) + Arriving(es[|es| - 1], p)
  }

  function Arriving(e: Event, p: Priority): seq<Packet> {
    if e.Arrive? && e.priority == p then [e.packet] else []
  }

  /** Every output of class p is an initial part of its arrivals. */
  ghost predicate KeepsChannelOrder(p: Priority) {
    forall es :: Run(Initial(), es).trackers.Get(p).emitted <= Arrived(es, p)
  }

  predicate ServedBy(p: Priority, id: nat) {
    id < |ASSIGNMENTS| && p in ASSIGNMENTS[id]
  }

  ghost predicate OnlyServer(p: Priority, id: nat) {
    ServedBy(p, id) && forall other: nat :: ServedBy(p, other) ==> other == id
  }

  ghost predicate ServedByOneWorker(p: Priority) {
    exists id: nat :: OnlyServer(p, id)
  }

  // ------------------------------------------------------------------
  // One worker keeps the order
  // ------------------------------------------------------------------

  /** The packet of class p that the worker has received but not yet numbered. */
  function Held(id: nat, w: Worker, p: Priority): seq<Packet> {
    match InTransfer(id, w)
    case None => []
    case Some(transfer) => if transfer.0 == p then [transfer.1] else []
  }

  /** Class p from its numbering history over the hands of its worker to its channel. */
  function Line(s: State, p: Priority, id: nat): seq<Packet>
    requires id < |s.workers|
  {
    s.numbered.Get(p) + Held(id, s.workers[id], p) + s.inputs.Get(p)
  }

  lemma OnlyServersAreNotShared(p: Priority, id: nat)
    requires OnlyServer(p, id)
    ensures p != High && id < 3
    ensures forall other: nat :: other != id ==> p !in Classes(other)
  {
    assert ServedBy(High, 0) && ServedBy(High, 1);
    forall other: nat | other != id ensures p !in Classes(other) {
      assert !ServedBy(p, other);
    }
  }

  /** Steps around other classes. */
  lemma ElsewhereKeepsLine(s: State, t: State, p: Priority, id: nat)
    requires id < |s.workers| == |t.workers| && Held(id, t.workers[id], p) == Held(id, s.workers[id], p)
    requires t.numbered.Get(p) == s.numbered.Get(p) && t.inputs.Get(p) == s.inputs.Get(p)
    ensures Line(t, p, id) == Line(s, p, id)
  {
  }

  lemma FetchKeepsLine(s: State, p: Priority, worker: nat, q: Priority, next: Phase, id: nat)
    requires worker < |s.workers| && id < |s.workers| && s.inputs.Get(q) != [] && (q == p ==> worker == id)
    requires InTransfer(worker, s.workers[worker]) == None
    requires InTransfer(worker, s.workers[worker].(phase := next)) == Some((q, s.inputs.Get(q)[0]))
    ensures Line(Fetch(s, worker, q, next), p, id) == Line(s, p, id)
  {
    if q == p {
      var numbered, queue := s.numbered.Get(p), s.inputs.Get(p);
      assert queue == [queue[0]] + queue[1..];
      AppendAssociative(numbered, [queue[0]], queue[1..]);
      assert numbered + [] == numbered;
    } else {
      ElsewhereKeepsLine(s, Fetch(s, worker, q, next), p, id);
    }
  }

  lemma PlaceKeepsLine(s: State, p: Priority, worker: nat, q: Priority, packet: Packet, placed: Placed, id: nat)
    requires worker < |s.workers| && id < |s.workers| && (q == p ==> worker == id)
    requires InTransfer(worker, s.workers[worker]) == Some((q, packet)) && InTransfer(worker, placed.worker) == None
    ensures Line(Place(s, worker, q, packet, placed), p, id) == Line(s, p, id)
  {
    if q == p {
      assert s.numbered.Get(p) + [packet] + [] == s.numbered.Get(p) + [packet];
    } else {
      ElsewhereKeepsLine(s, Place(s, worker, q, packet, placed), p, id);
    }
  }

  lemma QuietKeepsLine(s: State, t: State, p: Priority, worker: nat, id: nat)
    requires worker < |s.workers| == |t.workers| && id < |s.workers|
             && t.workers == s.workers[worker := t.workers[worker]]
    requires InTransfer(worker, s.workers[worker]) == None && InTransfer(worker, t.workers[worker]) == None
    requires t.numbered == s.numbered && t.inputs == s.inputs
    ensures Line(t, p, id) == Line(s, p, id)
  {
    ElsewhereKeepsLine(s, t, p, id);
  }

  /** The packets of class p that worker e.id moves belong to line `id`. */
  predicate OwnLine(s: State, e: Event, p: Priority, id: nat) {
    !e.Arrive? && e.id < |s.workers| && id < |s.workers| && (p in Classes(e.id) ==> e.id == id) && p != High
  }

  lemma ReceivingKeepsLine(s: State, e: Event, p: Priority, id: nat)
    requires OwnLine(s, e, p, id) && (e.DrainStep? || e.PollStep? || e.GuardStep?)
    ensures |Step(s, e).workers| == |s.workers| && Line(Step(s, e), p, id) == Line(s, p, id)
  {
    var w, worker := s.workers[e.id], e.id;
    match (e, w.phase)
    case (DrainStep(_), Drain(turn)) =>
      if turn < |Classes(worker)| {
        var q := Classes(worker)[turn];
        if !Room(w, q) || s.inputs.Get(q) == [] {
          QuietKeepsLine(s, Step(s, e), p, worker, id);
        } else {
          FetchKeepsLine(s, p, worker, q, DrainFetched(turn, s.inputs.Get(q)[0]), id);
        }
      }
    case (PollStep(_), Poll(slot)) =>
      if !Room(w, High) || s.inputs.high == [] {
        QuietKeepsLine(s, Step(s, e), p, worker, id);
      } else {
        FetchKeepsLine(s, p, worker, High, PollFetched(slot, s.inputs.high[0]), id);
      }
    case (GuardStep(_, closed), Guard(slot)) =>
      if closed || (slot.priority != Medium && slot.priority != Low) {
        QuietKeepsLine(s, Step(s, e), p, worker, id);
      } else if Room(w, High) && s.inputs.high != [] {
        FetchKeepsLine(s, p, worker, High, GuardFetched(slot, s.inputs.high[0]), id);
      }
    case _ =>
  }

  lemma PlacingKeepsLine(s: State, e: Event, p: Priority, id: nat)
    requires OwnLine(s, e, p, id) && (e.DrainPlace? || e.PollPlace? || e.GuardPlace?)
    ensures |Step(s, e).workers| == |s.workers| && Line(Step(s, e), p, id) == Line(s, p, id)
  {
    var w, worker := s.workers[e.id], e.id;
    match (e, w.phase)
    case (DrainPlace(_), DrainFetched(turn, packet)) =>
      if turn < |Classes(worker)| {
        var q := Classes(worker)[turn];
        PlaceKeepsLine(s, p, worker, q, packet, PlaceDrained(w, turn, NextItem(s, q, packet)), id);
      }
    case (PollPlace(_), PollFetched(slot, packet)) =>
      PlaceKeepsLine(s, p, worker, High, packet, PlacePolled(w, slot, NextItem(s, High, packet)), id);
    case (GuardPlace(_), GuardFetched(slot, packet)) =>
      PlaceKeepsLine(s, p, worker, High, packet, Preempt(w, slot, Busy(NextItem(s, High, packet))), id);
    case _ =>
  }

  /** A worker moves packets along the line of its own class and touches no other line. */
  lemma StepKeepsLine(s: State, e: Event, p: Priority, id: nat)
    requires OwnLine(s, e, p, id)
    ensures |Step(s, e).workers| == |s.workers| && Line(Step(s, e), p, id) == Line(s, p, id)
  {
    if e.DrainStep? || e.PollStep? || e.GuardStep? {
      ReceivingKeepsLine(s, e, p, id);
    } else if e.DrainPlace? || e.PollPlace? || e.GuardPlace? {
      PlacingKeepsLine(s, e, p, id);
    } else {
      ElsewhereKeepsLine(s, Step(s, e), p, id);
    }
  }

  lemma ArrivalExtendsLine(s: State, q: Priority, x: Packet, p: Priority, id: nat)
    requires id < |s.workers|
    ensures Line(Step(s, Arrive(q, x)), p, id) == Line(s, p, id) + Arriving(Arrive(q, x), p)
  {
    if q == p {
      AppendAssociative(s.numbered.Get(p) + Held(id, s.workers[id], p), s.inputs.Get(p), [x]);
    }
  }

  /** The arrivals of a class with one worker are, in order, what is numbered, what that
      worker holds and what still waits. */
  lemma {:induction false} LineIsArrivals(es: seq<Event>, p: Priority, id: nat)
    requires OnlyServer(p, id)
    ensures var s := Run(Initial(), es); |s.workers| == 3 && id < 3 && Line(s, p, id) == Arrived(es, p)
  {
    OnlyServersAreNotShared(p, id);
    if es == [] {
    } else {
      var e, s := es[|es| - 1], Run(Initial(), es[..|es| - 1]);
      LineIsArrivals(es[..|es| - 1], p, id);
      if e.Arrive? {
        ArrivalExtendsLine(s, e.priority, e.packet, p, id);
      } else if e.id < |s.workers| {
        StepKeepsLine(s, e, p, id);
      }
    }
  }

  /** Hence the output of such a class is an initial part of its arrivals, and all of them
      once nothing of the class waits or is worked on, unless a number was lost. */
  lemma OneWorkerKeepsOrder(es: seq<Event>, p: Priority)
    requires ServedByOneWorker(p)
    ensures var s := Run(Initial(), es);
            && s.trackers.Get(p).emitted <= s.numbered.Get(p) <= Arrived(es, p)
            && (IdleIn(s, p) && (forall id :: 0 <= id < |s.workers| ==> Held(id, s.workers[id], p) == [])
                && s.inputs.Get(p) == []
                && (forall item :: item in s.lost ==> item.priority != p) ==>
                  s.trackers.Get(p).emitted == Arrived(es, p))
  {
    var id: nat :| OnlyServer(p, id);
    LineIsArrivals(es, p, id);
    OutputFollowsAssignmentOrder(es, p);
    var s := Run(Initial(), es);
    AppendAssociative(s.numbered.Get(p), Held(id, s.workers[id], p), s.inputs.Get(p));
    if IdleIn(s, p) && Held(id, s.workers[id], p) == [] && s.inputs.Get(p) == [] && NoneOf(s.lost, p) {
      IdleOutputIsComplete(es, p);
      NoneMeansNoCopies(s.lost, p, s.trackers.Get(p).nextEmit);
    }
  }

  // ------------------------------------------------------------------
  // Two workers can swap two packets
  // ------------------------------------------------------------------

  /** Some run ends in state s after these arrivals of class p. */
  ghost predicate Reaches(p: Priority, arrived: seq<Packet>, s: State) {
    exists es :: Run(Initial(), es) == s && Arrived(es, p) == arrived
  }

  lemma Moves(p: Priority, arrived: seq<Packet>, s: State, e: Event)
    requires Reaches(p, arrived, s)
    ensures Reaches(p, arrived + Arriving(e, p), Step(s, e))
  {
    var es :| Run(Initial(), es) == s && Arrived(es, p) == arrived;
    assert (es + [e])[..|es|] == es;
    assert Run(Initial(), es + [e]) == Step(s, e);
  }

  /** A step that brings no packet. */
  lemma Acts(p: Priority, arrived: seq<Packet>, s: State, e: Event)
    requires Reaches(p, arrived, s) && !e.Arrive?
    ensures Reaches(p, arrived, Step(s, e))
  {
    Moves(p, arrived, s, e);
    assert arrived + [] == arrived;
  }

  /** The initial quotas and limits of workers 1 and 2. */
  const QUOTA1: Table<nat> := Table(4, 60, 0, 0)
  const QUOTA2: Table<nat> := Table(4, 60, 64, 128)

  /** Workers 1 and 2 have made one pass at most. */
  ghost function Racing(inputs: Table<seq<Packet>>, first: Phase, second: Worker, numbered: Table<seq<Packet>>): State {
    State(inputs, [IDLE, Worker([], Uniform(0), 0, QUOTA1, 64, Uniform(0), first), second], numbered, Uniform(EMPTY),
        [])
  }

  ghost function Second(heap: seq<WorkItem>, counts: Table<nat>, phase: Phase): Worker {
    Worker(heap, counts, |heap|, QUOTA2, 256, Uniform(0), phase)
  }

  lemma BothArrive(p: Priority, a: Packet, b: Packet)
    ensures Reaches(p, [a, b], Initial().(inputs := Uniform([]).Set(p, [a, b])))
  {
    assert Run(Initial(), []) == Initial() && Arrived([], p) == [];
    Moves(p, [], Initial(), Arrive(p, a));
    assert [] + [a] == [a] && [a] + [b] == [a, b];
    Moves(p, [a], Step(Initial(), Arrive(p, a)), Arrive(p, b));
    assert Step(Step(Initial(), Arrive(p, a)), Arrive(p, b)) == Initial().(inputs := Uniform([]).Set(p, [a, b]));
  }

  lemma BothStart(p: Priority, a: Packet, b: Packet)
    requires p == High || p == Medium
    ensures Reaches(p, [a, b], Racing(Uniform([]).Set(p, [a, b]), Drain(Index(p)),
            Second([], Uniform(0), Drain(Index(p))),
                                      Uniform([])))
  {
    var inputs := Uniform([]).Set(p, [a, b]);
    BothArrive(p, a, b);
    Acts(p, [a, b], Initial().(inputs := inputs), ReadQuotas(1, QUOTA1, 64));
    var half := Step(Initial().(inputs := inputs), ReadQuotas(1, QUOTA1, 64));
    Acts(p, [a, b], half, ReadQuotas(2, QUOTA2, 256));
    var start := Racing(inputs, Drain(0), Second([], Uniform(0), Drain(0)), Uniform([]));
    assert half.workers == start.workers[2 := IDLE];
    assert Step(half, ReadQuotas(2, QUOTA2, 256)).workers == start.workers;
    if p == Medium {
      SkipHigh(a, b);
    }
  }

  /** Neither worker finds a High packet. */
  lemma SkipHigh(a: Packet, b: Packet)
    requires Reaches(Medium, [a, b], Racing(Table([], [a, b], [], []), Drain(0), Second([], Uniform(0), Drain(0)),
             Uniform([])))
    ensures Reaches(Medium, [a, b], Racing(Table([], [a, b], [], []), Drain(1), Second([], Uniform(0), Drain(1)),
            Uniform([])))
  {
    var s := Racing(Table([], [a, b], [], []), Drain(0), Second([], Uniform(0), Drain(0)), Uniform([]));
    var t := Racing(Table([], [a, b], [], []), Drain(1), Second([], Uniform(0), Drain(0)), Uniform([]));
    assert Classes(1)[0] == High && Classes(2)[0] == High;
    Acts(Medium, [a, b], s, DrainStep(1));
    assert Step(s, DrainStep(1)).workers == t.workers;
    Acts(Medium, [a, b], t, DrainStep(2));
    assert Step(t, DrainStep(2)).workers[2] == Second([], Uniform(0), Drain(1));
  }

  /** Worker 1 receives the first packet and worker 2 the second. */
  lemma BothReceive(p: Priority, a: Packet, b: Packet)
    requires p == High || p == Medium
    ensures Reaches(p, [a, b], Racing(Uniform([]), DrainFetched(Index(p), a),
                                      Second([], Uniform(0), DrainFetched(Index(p), b)), Uniform([])))
  {
    var k := Index(p);
    BothStart(p, a, b);
    var s := Racing(Uniform([]).Set(p, [a, b]), Drain(k), Second([], Uniform(0), Drain(k)), Uniform([]));
    var t := Racing(Uniform([]).Set(p, [b]), DrainFetched(k, a), Second([], Uniform(0), Drain(k)), Uniform([]));
    Acts(p, [a, b], s, DrainStep(1));
    FirstReceives(p, a, b);
    Acts(p, [a, b], t, DrainStep(2));
    SecondReceives(p, a, b);
  }

  lemma FirstReceives(p: Priority, a: Packet, b: Packet)
    requires p == High || p == Medium
    ensures Step(Racing(Uniform([]).Set(p, [a, b]), Drain(Index(p)), Second([], Uniform(0), Drain(Index(p))),
            Uniform([])), DrainStep(1))
         == Racing(Uniform([]).Set(p, [b]), DrainFetched(Index(p), a), Second([], Uniform(0), Drain(Index(p))),
             Uniform([]))
  {
    var s := Racing(Uniform([]).Set(p, [a, b]), Drain(Index(p)), Second([], Uniform(0), Drain(Index(p))), Uniform([]));
    var t := Racing(Uniform([]).Set(p, [b]), DrainFetched(Index(p), a), Second([], Uniform(0), Drain(Index(p))),
        Uniform([]));
    assert Classes(1)[Index(p)] == p && [a, b][1..] == [b];
    assert Step(s, DrainStep(1)).workers == t.workers;
  }

  lemma SecondReceives(p: Priority, a: Packet, b: Packet)
    requires p == High || p == Medium
    ensures Step(Racing(Uniform([]).Set(p, [b]), DrainFetched(Index(p), a), Second([], Uniform(0), Drain(Index(p))),
            Uniform([])),
                 DrainStep(2))
         == Racing(Uniform([]), DrainFetched(Index(p), a), Second([], Uniform(0), DrainFetched(Index(p), b)),
             Uniform([]))
  {
    var s := Racing(Uniform([]).Set(p, [b]), DrainFetched(Index(p), a), Second([], Uniform(0), Drain(Index(p))),
        Uniform([]));
    var t := Racing(Uniform([]), DrainFetched(Index(p), a), Second([], Uniform(0), DrainFetched(Index(p), b)),
        Uniform([]));
    assert Classes(2)[Index(p)] == p && [b][1..] == [];
    assert Step(s, DrainStep(2)).workers == t.workers && Step(s, DrainStep(2)).inputs == t.inputs;
  }

  /** Worker 2 takes the first number. */
  lemma SecondNumbersFirst(p: Priority, a: Packet, b: Packet)
    requires p == High || p == Medium
    ensures Reaches(p, [a, b], Racing(Uniform([]), DrainFetched(Index(p), a),
                                      Second([WorkItem(p, 0, b)], Uniform(0).Set(p, 1), Drain(Index(p))),
                                      Uniform([]).Set(p, [b])))
  {
    BothReceive(p, a, b);
    Acts(p, [a, b], Racing(Uniform([]), DrainFetched(Index(p), a), Second([], Uniform(0), DrainFetched(Index(p), b)),
        Uniform([])),
         DrainPlace(2));
    SecondPlaces(p, a, b);
  }

  lemma SecondPlaces(p: Priority, a: Packet, b: Packet)
    requires p == High || p == Medium
    ensures Step(Racing(Uniform([]), DrainFetched(Index(p), a), Second([], Uniform(0), DrainFetched(Index(p), b)),
            Uniform([])),
                 DrainPlace(2))
         == Racing(Uniform([]), DrainFetched(Index(p), a),
             Second([WorkItem(p, 0, b)], Uniform(0).Set(p, 1), Drain(Index(p))),
                   Uniform([]).Set(p, [b]))
  {
    var s := Racing(Uniform([]), DrainFetched(Index(p), a), Second([], Uniform(0), DrainFetched(Index(p), b)),
        Uniform([]));
    assert Classes(2)[Index(p)] == p;
    assert [] + [WorkItem(p, 0, b)] == [WorkItem(p, 0, b)] && [] + [b] == [b];
    assert Step(s, DrainPlace(2)).workers[2] == Second([WorkItem(p, 0, b)], Uniform(0).Set(p, 1), Drain(Index(p)));
  }

  /** Worker 2 finds all remaining channels empty. */
  lemma {:induction false} SecondEndsDraining(p: Priority, arrived: seq<Packet>, first: Phase, heap: seq<WorkItem>,
                                              counts: Table<nat>, numbered: Table<seq<Packet>>, turn: nat)
    requires turn <= 4 && Reaches(p, arrived, Racing(Uniform([]), first, Second(heap, counts, Drain(turn)), numbered))
    ensures Reaches(p, arrived, Racing(Uniform([]), first, Second(heap, counts, Drain(4)), numbered))
    decreases 4 - turn
  {
    if turn == 4 {
    } else {
      var s := Racing(Uniform([]), first, Second(heap, counts, Drain(turn)), numbered);
      Acts(p, arrived, s, DrainStep(2));
      assert s.inputs.Get(Classes(2)[turn]) == [];
      assert Step(s, DrainStep(2)).workers[2] == Second(heap, counts, Drain(turn + 1));
      SecondEndsDraining(p, arrived, first, heap, counts, numbered, turn + 1);
    }
  }

  /** Worker 2 pops its packet and starts to process it. */
  lemma SecondGetsBusy(p: Priority, arrived: seq<Packet>, first: Phase, b: Packet, numbered: Table<seq<Packet>>)
    requires p == High || p == Medium
    requires Reaches(p, arrived, Racing(Uniform([]), first,
                                        Second([WorkItem(p, 0, b)], Uniform(0).Set(p, 1), Drain(4)), numbered))
    ensures Reaches(p, arrived, Racing(Uniform([]), first, Second([], Uniform(0), Busy(WorkItem(p, 0, b))), numbered))
  {
    var item := WorkItem(p, 0, b);
    Acts(p, arrived, Racing(Uniform([]), first, Second([item], Uniform(0).Set(p, 1), Drain(4)), numbered), Pop(2, 0));
    SecondPops(item, first, numbered);
    Acts(p, arrived, Racing(Uniform([]), first, Second([], Uniform(0), Poll(item)), numbered), PollStep(2));
    SecondPolls(item, first, numbered);
    Acts(p, arrived, Racing(Uniform([]), first, Second([], Uniform(0), Guard(item)), numbered), GuardStep(2, true));
    SecondStopsWaiting(item, first, numbered);
  }

  lemma SecondPops(item: WorkItem, first: Phase, numbered: Table<seq<Packet>>)
    requires item.priority == High || item.priority == Medium
    ensures Step(Racing(Uniform([]), first, Second([item], Uniform(0).Set(item.priority, 1), Drain(4)), numbered),
            Pop(2, 0))
         == Racing(Uniform([]), first, Second([], Uniform(0), Poll(item)), numbered)
  {
    var s := Racing(Uniform([]), first, Second([item], Uniform(0).Set(item.priority, 1), Drain(4)), numbered);
    assert |Classes(2)| == 4 && Without([item], 0) == [];
    assert Popped(s.workers[2], 0) == Second([], Uniform(0), Poll(item));
    assert Step(s, Pop(2, 0)).workers[2] == Second([], Uniform(0), Poll(item));
  }

  lemma SecondPolls(item: WorkItem, first: Phase, numbered: Table<seq<Packet>>)
    ensures Step(Racing(Uniform([]), first, Second([], Uniform(0), Poll(item)), numbered), PollStep(2))
         == Racing(Uniform([]), first, Second([], Uniform(0), Guard(item)), numbered)
  {
    var s := Racing(Uniform([]), first, Second([], Uniform(0), Poll(item)), numbered);
    assert Step(s, PollStep(2)).workers[2] == Second([], Uniform(0), Guard(item));
  }

  lemma SecondStopsWaiting(item: WorkItem, first: Phase, numbered: Table<seq<Packet>>)
    ensures Step(Racing(Uniform([]), first, Second([], Uniform(0), Guard(item)), numbered), GuardStep(2, true))
         == Racing(Uniform([]), first, Second([], Uniform(0), Busy(item)), numbered)
  {
    var s := Racing(Uniform([]), first, Second([], Uniform(0), Guard(item)), numbered);
    assert Step(s, GuardStep(2, true)).workers[2] == Second([], Uniform(0), Busy(item));
  }

  /** Worker 2 completes its packet while worker 1 still holds the earlier one. */
  lemma SecondCompletes(p: Priority, arrived: seq<Packet>, first: Phase, b: Packet, numbered: Table<seq<Packet>>)
    requires Reaches(p, arrived, Racing(Uniform([]), first, Second([], Uniform(0), Busy(WorkItem(p, 0, b))), numbered))
    ensures exists es :: Run(Initial(), es).trackers.Get(p).emitted == [b] && Arrived(es, p) == arrived
  {
    var s := Racing(Uniform([]), first, Second([], Uniform(0), Busy(WorkItem(p, 0, b))), numbered);
    Acts(p, arrived, s, Finish(2));
    assert Completed(EMPTY, 0, b).emitted == [b];
    assert Step(s, Finish(2)).trackers.Get(p).emitted == [b];
    var es :| Run(Initial(), es) == Step(s, Finish(2)) && Arrived(es, p) == arrived;
  }

  /** Two packets arrive, and the second one leaves first. */
  lemma TwoWorkersSwap(p: Priority, a: Packet, b: Packet)
    requires p == High || p == Medium
    ensures exists es :: Run(Initial(), es).trackers.Get(p).emitted == [b] && Arrived(es, p) == [a, b]
  {
    SecondNumbersFirst(p, a, b);
    var counts := Uniform(0).Set(p, 1);
    SecondEndsDraining(p, [a, b], DrainFetched(Index(p), a), [WorkItem(p, 0, b)], counts, Uniform([]).Set(p, [b]),
        Index(p));
    SecondGetsBusy(p, [a, b], DrainFetched(Index(p), a), b, Uniform([]).Set(p, [b]));
    SecondCompletes(p, [a, b], DrainFetched(Index(p), a), b, Uniform([]).Set(p, [b]));
  }

  lemma SwapBreaksOrder(p: Priority)
    requires p == High || p == Medium
    ensures !KeepsChannelOrder(p)
  {
    var a, b := Packet(0, p, 0, 1, 64), Packet(1, p, 0, 1, 64);
    TwoWorkersSwap(p, a, b);
    var es :| Run(Initial(), es).trackers.Get(p).emitted == [b] && Arrived(es, p) == [a, b];
    assert [b][0] != [a, b][0];
    assert !(Run(Initial(), es).trackers.Get(p).emitted <= Arrived(es, p));
  }

  /** A class leaves in the order of its arrivals in every run exactly if a single worker
      serves it: Low and best effort do, High and Medium do not. */
  lemma OrderKeptExactlyWithOneWorker(p: Priority)
    ensures KeepsChannelOrder(p) <==> ServedByOneWorker(p)
    ensures ServedByOneWorker(p) <==> p == Low || p == BestEffort
  {
    if ServedByOneWorker(p) {
      forall es ensures Run(Initial(), es).trackers.Get(p).emitted <= Arrived(es, p) {
        OneWorkerKeepsOrder(es, p);
      }
    }
    if p == High || p == Medium {
      SwapBreaksOrder(p);
    } else {
      assert OnlyServer(p, 2);
    }
  }
}
