/** Clock times for the multi-worker protocol, and when its guard window keeps the
    deadline order. */
module GuardTiming {
  import opened Pipeline
  import opened Heaps
  import opened SequenceTracking
  import opened MultiWorkerProtocol

  /** One latency budget per class, the largest guard settings the controller makes, in
      nanoseconds, and how much later than its clock check a poll can happen. */
  datatype Setup = Setup(budgets: Table<nat>, guardNs: Table<nat>, slack: nat)

  /** The largest guard threshold: only Medium and Low items wait, never past their own
      budget. */
  function Threshold(c: Setup, p: Priority): nat {
    match GuardThreshold(p, c.guardNs.Get(p), c.budgets.Get(p))
    case None => 0
    case Some(ns) => ns
  }

  /** An event of the protocol and the time at which it happens. */
  datatype Timed = Timed(time: nat, event: Event)

  function Events(es: seq<Timed>): seq<Event> {
    if es == [] then [] else Events(es[..|es| - 1]) + [es[|es| - 1].event]
  }

  function After(es: seq<Timed>): State {
    if es == [] then Initial() else Step(After(es[..|es| - 1]), es[|es| - 1].event)
  }

  function LastTime(es: seq<Timed>): nat {
    if es == [] then 0 else es[|es| - 1].time
  }

  /** What the clock allows: no packet is stamped in the future, and the guard window polls
      only before the threshold, up to the slack. It may give up at any time, since a
      disconnected channel ends it early. */
  ghost predicate Fits(c: Setup, s: State, e: Timed) {
    match e.event
    case Arrive(p, x) => x.budget == c.budgets.Get(p) && x.timestamp <= e.time
    case GuardStep(id, closed) =>
      id < |s.workers| && s.workers[id].phase.Guard? && !closed ==>
        var slot := s.workers[id].phase.slot;
        var threshold := Threshold(c, slot.priority);
        threshold > 0 && e.time < slot.packet.timestamp + threshold + c.slack
    case _ => true
  }

  ghost predicate OnTime(c: Setup, es: seq<Timed>) {
    es == [] ||
    var init, last := es[..|es| - 1], es[|es| - 1];
    OnTime(c, init) && LastTime(init) <= last.time && Fits(c, After(init), last)
  }

  /** Timed runs are runs of the protocol. */
  lemma {:induction false} TimedRunsAreRuns(es: seq<Timed>)
    ensures After(es) == Run(Initial(), Events(es))
  {
    if es == [] {
    } else {
      TimedRunsAreRuns(es[..|es| - 1]);
      assert Events(es)[..|Events(es)| - 1] == Events(es[..|es| - 1]);
    }
  }

  /** Every item about to be processed is due no later than everything in its worker's heap. */
  ghost predicate DeadlineOrder(s: State) {
    forall id :: 0 <= id < |s.workers| && s.workers[id].phase.Busy? ==>
      DueFirst(s.workers[id].phase.slot, s.workers[id].heap)
  }

  ghost predicate AlwaysInDeadlineOrder(c: Setup) {
    forall es :: OnTime(c, es) ==> DeadlineOrder(After(es))
  }

  /** A Medium or Low budget covers the High budget and the time in which a High packet can
      still come in. */
  predicate Roomy(c: Setup) {
    RoomyFor(c, Medium) && RoomyFor(c, Low)
  }

  predicate RoomyFor(c: Setup, p: Priority) {
    Threshold(c, p) > 0 ==> c.budgets.Get(p) + 1 >= c.budgets.high + Threshold(c, p) + c.slack
  }

  // ------------------------------------------------------------------
  // Roomy budgets keep the order
  // ------------------------------------------------------------------

  ghost predicate Budgeted(c: Setup, item: WorkItem) {
    item.packet.budget == c.budgets.Get(item.priority)
  }

  ghost predicate InputsInv(c: Setup, inputs: Table<seq<Packet>>, time: nat) {
    forall p, x :: x in inputs.Get(p) ==> x.budget == c.budgets.Get(p) && x.timestamp <= time
  }

  ghost predicate HandInv(c: Setup, w: Worker, slot: WorkItem) {
    Budgeted(c, slot) && DueFirst(slot, w.heap)
  }

  ghost predicate TimedInv(c: Setup, id: nat, w: Worker) {
    && (forall item :: item in w.heap ==> Budgeted(c, item))
    && match w.phase
       case Top => true
       case Drain(_) => true
       case DrainFetched(turn, x) => turn < |Classes(id)| ==> x.budget == c.budgets.Get(Classes(id)[turn])
       case Poll(slot) => HandInv(c, w, slot)
       case PollFetched(slot, x) => HandInv(c, w, slot) && x.budget == c.budgets.high
       case Guard(slot) => HandInv(c, w, slot)
       case GuardFetched(slot, x) =>
         && HandInv(c, w, slot) && (slot.priority == Medium || slot.priority == Low) && x.budget == c.budgets.high
         && Threshold(c, slot.priority) > 0
         && x.timestamp < slot.packet.timestamp + Threshold(c, slot.priority) + c.slack
       case Busy(slot) => HandInv(c, w, slot)
  }

  lemma PoppedIsTimed(c: Setup, id: nat, w: Worker, i: nat)
    requires TimedInv(c, id, w) && w.phase.Drain?
    ensures TimedInv(c, id, Popped(w, i))
  {
    if w.heap != [] && Earliest(w.heap, i) {
      var rest := Without(w.heap, i);
      forall item | item in rest ensures item in w.heap && DeadlineOf(w.heap[i]) <= DeadlineOf(item) {
        WithoutItems(w.heap, i);
        assert item in multiset(w.heap);
      }
    }
  }

  lemma DrainPlacedIsTimed(c: Setup, id: nat, w: Worker, turn: nat, item: WorkItem)
    requires TimedInv(c, id, w) && Budgeted(c, item)
    ensures TimedInv(c, id, PlaceDrained(w, turn, item).worker)
  {
  }

  lemma PollPlacedIsTimed(c: Setup, id: nat, w: Worker, slot: WorkItem, item: WorkItem)
    requires TimedInv(c, id, w) && HandInv(c, w, slot) && Budgeted(c, item)
    ensures TimedInv(c, id, PlacePolled(w, slot, item).worker)
  {
  }

  lemma GuardPlacedIsTimed(c: Setup, id: nat, w: Worker, slot: WorkItem, item: WorkItem)
    requires TimedInv(c, id, w) && w.phase == GuardFetched(slot, item.packet) && item.priority == High && Roomy(c)
    ensures TimedInv(c, id, Preempt(w, slot, Busy(item)).worker)
  {
    assert DeadlineOf(item) <= DeadlineOf(slot);
  }

  lemma StepKeepsTimed(c: Setup, s: State, e: Timed, id: nat)
    requires Roomy(c) && id < |s.workers| && TimedInv(c, id, s.workers[id])
    requires InputsInv(c, s.inputs, e.time) && Fits(c, s, e)
    ensures |Step(s, e.event).workers| == |s.workers| && TimedInv(c, id, Step(s, e.event).workers[id])
  {
    if !e.event.Arrive? && e.event.id == id {
      var w := s.workers[id];
      match (e.event, w.phase)
      case (DrainStep(_), Drain(turn)) =>
        if turn < |Classes(id)| && Room(w, Classes(id)[turn]) && s.inputs.Get(Classes(id)[turn]) != [] {
          assert s.inputs.Get(Classes(id)[turn])[0] in s.inputs.Get(Classes(id)[turn]);
        }
      case (DrainPlace(_), DrainFetched(turn, x)) =>
        if turn < |Classes(id)| {
          DrainPlacedIsTimed(c, id, w, turn, NextItem(s, Classes(id)[turn], x));
        }
      case (Pop(_, i), Drain(turn)) => PoppedIsTimed(c, id, w, i);
      case (PollStep(_), Poll(slot)) =>
        if s.inputs.high != [] {
          assert s.inputs.high[0] in s.inputs.Get(High);
        }
      case (PollPlace(_), PollFetched(slot, x)) => PollPlacedIsTimed(c, id, w, slot, NextItem(s, High, x));
      case (GuardStep(_, closed), Guard(slot)) =>
        if s.inputs.high != [] {
          assert s.inputs.high[0] in s.inputs.Get(High);
        }
      case (GuardPlace(_), GuardFetched(slot, x)) => GuardPlacedIsTimed(c, id, w, slot, NextItem(s, High, x));
      case _ =>
    }
  }

  lemma StepKeepsInputs(c: Setup, s: State, e: Timed)
    requires InputsInv(c, s.inputs, e.time) && Fits(c, s, e)
    ensures InputsInv(c, Step(s, e.event).inputs, e.time)
  {
    var t := Step(s, e.event);
    forall p, x | x in t.inputs.Get(p) ensures x.budget == c.budgets.Get(p) && x.timestamp <= e.time {
      if x !in s.inputs.Get(p) {
        assert e.event == Arrive(p, x);
      }
    }
  }

  ghost predicate AllTimed(c: Setup, s: State, time: nat) {
    && InputsInv(c, s.inputs, time)
    && |s.workers| == 3
    && forall id :: 0 <= id < 3 ==> TimedInv(c, id, s.workers[id])
  }

  lemma StepKeepsAllTimed(c: Setup, s: State, time: nat, e: Timed)
    requires Roomy(c) && AllTimed(c, s, time) && time <= e.time && Fits(c, s, e)
    ensures AllTimed(c, Step(s, e.event), e.time)
  {
    StepKeepsInputs(c, s, e);
    forall id | 0 <= id < 3
      ensures |Step(s, e.event).workers| == 3 && TimedInv(c, id, Step(s, e.event).workers[id])
    {
      StepKeepsTimed(c, s, e, id);
    }
  }

  lemma {:induction false} RoomyRunsAreTimed(c: Setup, es: seq<Timed>)
    requires Roomy(c) && OnTime(c, es)
    ensures AllTimed(c, After(es), LastTime(es))
  {
    if es == [] {
      assert forall p, x :: x !in Initial().inputs.Get(p);
    } else {
      var n := |es| - 1;
      RoomyRunsAreTimed(c, es[..n]);
      StepKeepsAllTimed(c, After(es[..n]), LastTime(es[..n]), es[n]);
    }
  }

  // ------------------------------------------------------------------
  // Tight budgets break it
  // ------------------------------------------------------------------

  ghost predicate Reaches(c: Setup, es: seq<Timed>, s: State, time: nat) {
    OnTime(c, es) && After(es) == s && LastTime(es) == time
  }

  lemma Extend(c: Setup, es: seq<Timed>, s: State, time: nat, e: Timed)
    requires Reaches(c, es, s, time) && time <= e.time && Fits(c, s, e)
    ensures Reaches(c, es + [e], Step(s, e.event), e.time)
  {
    assert (es + [e])[..|es|] == es;
  }

  /** The controller's initial quotas of worker 2. */
  const QUOTA := Table(4, 60, 64, 128)
  const LIMIT: nat := 256

  /** A state in which only worker 2 has done anything. */
  ghost function Solo(inputs: Table<seq<Packet>>, w: Worker, numbered: Table<seq<Packet>>): State {
    State(inputs, [IDLE, IDLE, w], numbered, Uniform(EMPTY), [])
  }

  ghost function Holding(item: Option<WorkItem>, phase: Phase): Worker {
    match item
    case None => Worker([], Uniform(0), 0, QUOTA, LIMIT, Uniform(0), phase)
    case Some(x) => Worker([x], Uniform(0).Set(x.priority, 1), 1, QUOTA, LIMIT, Uniform(0), phase)
  }

  lemma EmptyTurn(inputs: Table<seq<Packet>>, item: Option<WorkItem>, numbered: Table<seq<Packet>>, turn: nat)
    requires turn < 4 && inputs.Get(ALL[turn]) == []
    ensures Step(Solo(inputs, Holding(item, Drain(turn)), numbered), DrainStep(2))
         == Solo(inputs, Holding(item, Drain(turn + 1)), numbered)
  {
    var s := Solo(inputs, Holding(item, Drain(turn)), numbered);
    assert Classes(2) == ALL;
    assert Step(s, DrainStep(2)).workers == [IDLE, IDLE, Holding(item, Drain(turn + 1))];
  }

  /** Worker 2 finds the remaining channels up to turn `to` empty. */
  lemma {:induction false} SkipTurns(c: Setup, es: seq<Timed>, inputs: Table<seq<Packet>>, item: Option<WorkItem>,
                                     numbered: Table<seq<Packet>>, turn: nat, to: nat) returns (fs: seq<Timed>)
    requires turn <= to <= 4 && Reaches(c, es, Solo(inputs, Holding(item, Drain(turn)), numbered), 0)
    requires forall k :: turn <= k < to ==> inputs.Get(ALL[k]) == []
    ensures Reaches(c, fs, Solo(inputs, Holding(item, Drain(to)), numbered), 0)
  {
    if turn == to {
      fs := es;
    } else {
      fs := SkipTurns(c, es, inputs, item, numbered, turn, to - 1);
      Extend(c, fs, Solo(inputs, Holding(item, Drain(to - 1)), numbered), 0, Timed(0, DrainStep(2)));
      EmptyTurn(inputs, item, numbered, to - 1);
      fs := fs + [Timed(0, DrainStep(2))];
    }
  }

  /** A lone packet of class p arrives, is drained and popped by worker 2, which then
      enters the guard window. */
  lemma LonePacketWaits(c: Setup, p: Priority, m: Packet) returns (es: seq<Timed>)
    requires (p == Medium || p == Low) && m.budget == c.budgets.Get(p) && m.timestamp == 0
    ensures var item := WorkItem(p, 0, m);
            Reaches(c, es, Solo(Uniform([]), Holding(None, Guard(item)), Uniform([]).Set(p, [m])), 0)
  {
    var none: Table<seq<Packet>> := Uniform([]);
    var there := none.Set(p, [m]);
    var item := WorkItem(p, 0, m);
    var k := Index(p);
    assert ALL[k] == p && Classes(2) == ALL;
    es := LoneArrival(c, p, m);
    es := Starts(c, es, there);
    es := SkipTurns(c, es, there, None, none, 0, k);
    es := Drains(c, es, p, m);
    es := SkipTurns(c, es, none, Some(item), there, k, 4);
    es := Pops(c, es, item, there);
  }

  lemma LoneArrival(c: Setup, p: Priority, m: Packet) returns (es: seq<Timed>)
    requires m.budget == c.budgets.Get(p) && m.timestamp == 0
    ensures Reaches(c, es, Solo(Uniform([]).Set(p, [m]), IDLE, Uniform([])), 0)
  {
    var none: Table<seq<Packet>> := Uniform([]);
    assert Reaches(c, [], Initial(), 0);
    Extend(c, [], Initial(), 0, Timed(0, Arrive(p, m)));
    assert none.Get(p) + [m] == [m];
    assert Step(Initial(), Arrive(p, m)) == Solo(none.Set(p, [m]), IDLE, none);
    es := [] + [Timed(0, Arrive(p, m))];
  }

  lemma Starts(c: Setup, es: seq<Timed>, inputs: Table<seq<Packet>>) returns (fs: seq<Timed>)
    requires Reaches(c, es, Solo(inputs, IDLE, Uniform([])), 0)
    ensures Reaches(c, fs, Solo(inputs, Holding(None, Drain(0)), Uniform([])), 0)
  {
    var s := Solo(inputs, IDLE, Uniform([]));
    Extend(c, es, s, 0, Timed(0, ReadQuotas(2, QUOTA, LIMIT)));
    fs := es + [Timed(0, ReadQuotas(2, QUOTA, LIMIT))];
    assert Step(s, ReadQuotas(2, QUOTA, LIMIT)).workers == [IDLE, IDLE, Holding(None, Drain(0))];
  }

  lemma Drains(c: Setup, es: seq<Timed>, p: Priority, m: Packet) returns (fs: seq<Timed>)
    requires p == Medium || p == Low
    requires Reaches(c, es, Solo(Uniform([]).Set(p, [m]), Holding(None, Drain(Index(p))), Uniform([])), 0)
    ensures Reaches(c, fs, Solo(Uniform([]), Holding(Some(WorkItem(p, 0, m)), Drain(Index(p))),
            Uniform([]).Set(p, [m])), 0)
  {
    var k := Index(p);
    var s := Solo(Uniform([]).Set(p, [m]), Holding(None, Drain(k)), Uniform([]));
    var t := Solo(Uniform([]), Holding(None, DrainFetched(k, m)), Uniform([]));
    Extend(c, es, s, 0, Timed(0, DrainStep(2)));
    ReceivesLone(p, m);
    Extend(c, es + [Timed(0, DrainStep(2))], t, 0, Timed(0, DrainPlace(2)));
    AdmitsLone(p, m);
    fs := (es + [Timed(0, DrainStep(2))]) + [Timed(0, DrainPlace(2))];
  }

  lemma ReceivesLone(p: Priority, m: Packet)
    requires p == Medium || p == Low
    ensures Step(Solo(Uniform([]).Set(p, [m]), Holding(None, Drain(Index(p))), Uniform([])), DrainStep(2))
         == Solo(Uniform([]), Holding(None, DrainFetched(Index(p), m)), Uniform([]))
  {
    var none: Table<seq<Packet>> := Uniform([]);
    var s := Solo(none.Set(p, [m]), Holding(None, Drain(Index(p))), none);
    assert Classes(2)[Index(p)] == p && [m][1..] == [];
    assert Step(s, DrainStep(2)).workers == [IDLE, IDLE, Holding(None, DrainFetched(Index(p), m))];
    assert Step(s, DrainStep(2)).inputs == none;
  }

  lemma AdmitsLone(p: Priority, m: Packet)
    requires p == Medium || p == Low
    ensures Step(Solo(Uniform([]), Holding(None, DrainFetched(Index(p), m)), Uniform([])), DrainPlace(2))
         == Solo(Uniform([]), Holding(Some(WorkItem(p, 0, m)), Drain(Index(p))), Uniform([]).Set(p, [m]))
  {
    var none: Table<seq<Packet>> := Uniform([]);
    var t := Solo(none, Holding(None, DrainFetched(Index(p), m)), none);
    assert Classes(2)[Index(p)] == p;
    assert [] + [WorkItem(p, 0, m)] == [WorkItem(p, 0, m)] && [] + [m] == [m];
    assert Step(t, DrainPlace(2)).workers == [IDLE, IDLE, Holding(Some(WorkItem(p, 0, m)), Drain(Index(p)))];
    assert Step(t, DrainPlace(2)).numbered == none.Set(p, [m]);
  }

  lemma Pops(c: Setup, es: seq<Timed>, item: WorkItem, numbered: Table<seq<Packet>>) returns (fs: seq<Timed>)
    requires Reaches(c, es, Solo(Uniform([]), Holding(Some(item), Drain(4)), numbered), 0)
    requires item.priority == Medium || item.priority == Low
    ensures Reaches(c, fs, Solo(Uniform([]), Holding(None, Guard(item)), numbered), 0)
  {
    var none: Table<seq<Packet>> := Uniform([]);
    var s := Solo(none, Holding(Some(item), Drain(4)), numbered);
    var t := Solo(none, Holding(None, Poll(item)), numbered);
    assert |Classes(2)| == 4 && Without([item], 0) == [];
    Extend(c, es, s, 0, Timed(0, Pop(2, 0)));
    assert Popped(Holding(Some(item), Drain(4)), 0) == Holding(None, Poll(item));
    assert Step(s, Pop(2, 0)).workers == t.workers;
    Extend(c, es + [Timed(0, Pop(2, 0))], t, 0, Timed(0, PollStep(2)));
    fs := (es + [Timed(0, Pop(2, 0))]) + [Timed(0, PollStep(2))];
    assert Step(t, PollStep(2)).workers == [IDLE, IDLE, Holding(None, Guard(item))];
  }

  /** A run of the protocol, with clock times, in which a High packet that is due later
      replaces a waiting item: at its end worker 2 processes the High packet while the
      earlier item lies in its heap. */
  lemma GuardCanInvertDeadlines(c: Setup, p: Priority) returns (es: seq<Timed>)
    requires (p == Medium || p == Low) && !RoomyFor(c, p)
    ensures OnTime(c, es) && !DeadlineOrder(After(es))
    ensures |After(es).workers| == 3
    ensures var w := After(es).workers[2];
            && w.phase.Busy? && w.phase.slot.priority == High
            && exists item :: item in w.heap && item.priority == p && DeadlineOf(item) < DeadlineOf(w.phase.slot)
  {
    var m := Packet(0, p, 0, c.budgets.Get(p), 64);
    var time: nat := Threshold(c, p) + c.slack - 1;
    var h := Packet(1, High, time, c.budgets.high, 64);
    es := LonePacketWaits(c, p, m);
    es := HighComesLate(c, es, WorkItem(p, 0, m), h, Uniform([]).Set(p, [m]));
    var w := After(es).workers[2];
    assert WorkItem(p, 0, m) in w.heap;
  }

  lemma HighComesLate(c: Setup, es: seq<Timed>, item: WorkItem, h: Packet, numbered: Table<seq<Packet>>)
      returns (fs: seq<Timed>)
    requires item.priority == Medium || item.priority == Low
    requires Reaches(c, es, Solo(Uniform([]), Holding(None, Guard(item)), numbered), 0) && numbered.high == []
    requires h.budget == c.budgets.high && Threshold(c, item.priority) > 0
    requires h.timestamp < item.packet.timestamp + Threshold(c, item.priority) + c.slack
    ensures OnTime(c, fs) && After(fs).workers == [IDLE, IDLE, Holding(Some(item), Busy(WorkItem(High, 0, h)))]
  {
    var none: Table<seq<Packet>> := Uniform([]);
    var time := h.timestamp;
    var s := Solo(none, Holding(None, Guard(item)), numbered);
    var t := Solo(none.(high := [h]), Holding(None, Guard(item)), numbered);
    var u := Solo(none, Holding(None, GuardFetched(item, h)), numbered);
    assert [] + [h] == [h] && [h][1..] == [];
    Extend(c, es, s, 0, Timed(time, Arrive(High, h)));
    assert Step(s, Arrive(High, h)) == t;
    var e1 := es + [Timed(time, Arrive(High, h))];
    Extend(c, e1, t, time, Timed(time, GuardStep(2, false)));
    assert Step(t, GuardStep(2, false)).workers == u.workers;
    var e2 := e1 + [Timed(time, GuardStep(2, false))];
    Extend(c, e2, u, time, Timed(time, GuardPlace(2)));
    fs := e2 + [Timed(time, GuardPlace(2))];
    assert [] + [item] == [item];
    assert Preempt(Holding(None, GuardFetched(item, h)), item, Busy(WorkItem(High, 0, h))).worker
        == Holding(Some(item), Busy(WorkItem(High, 0, h)));
  }

  /** In every timed run every item is processed in deadline order if and only if each
      guarded budget covers the High budget and the time the guard window stays open. */
  lemma DeadlineOrderExactlyWhenRoomy(c: Setup)
    ensures AlwaysInDeadlineOrder(c)
       <==> forall p :: (p == Medium || p == Low) && c.guardNs.Get(p) > 0 && c.budgets.Get(p) > 0 ==>
              c.budgets.Get(p) + 1 >= c.budgets.high + Min(c.guardNs.Get(p), c.budgets.Get(p)) + c.slack
  {
    assert Roomy(c) <==> forall p :: p == Medium || p == Low ==> RoomyFor(c, p);
    if Roomy(c) {
      forall es | OnTime(c, es) ensures DeadlineOrder(After(es)) {
        RoomyRunsAreTimed(c, es);
      }
    } else {
      var es := GuardCanInvertDeadlines(c, if RoomyFor(c, Medium) then Low else Medium);
    }
  }

  /** The default budgets are roomy for guard thresholds of at most 80 us, even if polls
      come almost nine milliseconds after their clock check. */
  lemma DefaultBudgetsAreRoomy(c: Setup)
    requires c.budgets == Table(1_000_000, 10_000_000, 100_000_000, 200_000_000)
    requires c.guardNs.medium <= 80_000 && c.guardNs.low <= 80_000 && c.slack <= 8_900_000
    ensures AlwaysInDeadlineOrder(c)
  {
    DeadlineOrderExactlyWhenRoomy(c);
  }
}
