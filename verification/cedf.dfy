/** A C-EDF worker: guard windows, mid-processing preemption and the remaining-work
    bookkeeping between them. */
module ClusterEdf {
  import opened Pipeline
  import opened ClusterPreemption
  import opened EgressChannels
  import opened WorkerLoop

  // ------------------------------------------------------------------
  // The worker
  // ------------------------------------------------------------------

  /** The High and Medium input channels as one worker sees them; others read them too.
      `log` is what this worker received, `misses` the receives that found nothing, and
      `empty` their classes. */
  class Inputs {
    const clock: Clock
    ghost var log: seq<Packet>
    ghost var misses: seq<Miss>
    ghost var empty: seq<Priority>

    constructor (clock: Clock)
      ensures this.clock == clock && log == [] && misses == [] && empty == []
    {
      this.clock := clock;
      log, misses, empty := [], [], [];
    }

    method TryRecv(p: Priority) returns (r: Option<Packet>, closed: bool)
      requires clock.Valid()
      modifies this, clock
      ensures old(clock.time) < clock.time <= old(clock.time) + clock.gap
      ensures r.Some? ==> !closed && log == old(log) + [r.value] && misses == old(misses) && empty == old(empty)
      ensures r.None? ==> log == old(log) && misses == old(misses) + [Miss(p, |log|, clock.time, closed)]
      ensures r.None? ==> empty == old(empty) + [p]
    {
      var now := clock.Now();
      r := *;
      if r.Some? {
        closed := false;
        log := log + [r.value];
      } else {
        closed := *;
        misses, empty := misses + [Miss(p, |log|, now, closed)], empty + [p];
      }
    }

    /** Poll the classes that may interrupt class p, higher class first. `closed` tells that
        High is all there is to poll and its channel is disconnected. */
    method Poll(p: Priority) returns (q: Priority, r: Option<Packet>, closed: bool)
      requires clock.Valid() && (p == Medium || p == Low)
      modifies this, clock
      ensures Receives(if (r.Some? && q == High) || p == Medium then 1 else 2, old(clock.time), clock.time, clock.gap)
      ensures log == if r.Some? then old(log) + [r.value] else old(log)
      ensures empty == old(empty) + FoundEmpty(p, r.Some?, q)
      ensures old(misses) <= misses && |misses| == |old(misses)| + |FoundEmpty(p, r.Some?, q)|
      ensures forall k :: |old(misses)| <= k < |misses| ==>
                misses[k].priority == FoundEmpty(p, r.Some?, q)[k - |old(misses)|]
                && clock.time <= misses[k].time + clock.gap
      ensures r.Some? ==> MayInterrupt(p, q)
      ensures closed <==> r.None? && p == Medium && misses[|misses| - 1].closed
    {
      q := High;
      r, closed := TryRecv(High);
      if r.None? && p == Low {
        q := Medium;
        r, closed := TryRecv(Medium);
        closed := false;
      }
    }
  }

  /** What a poll on behalf of class p finds empty before it receives from q, or in all. */
  function FoundEmpty(p: Priority, found: bool, q: Priority): seq<Priority> {
    if found && q == High then []
    else if found || p == Medium then [High]
    else [High, Medium]
  }

  /** What the checks of these turns found empty. */
  function EmptyInTurn(first: QueuedTask, look: Look): seq<Priority> {
    match look
    case Missed(_, _) => FoundEmpty(first.priority, false, High)
    case Taken(_, _, q, _, _, _, _) => FoundEmpty(first.priority, true, q)
    case _ => []
  }

  function EmptyInTurns(first: QueuedTask, ts: seq<Turn>): seq<Priority> {
    if ts == [] then [] else EmptyInTurns(first, ts[..|ts| - 1]) + EmptyInTurn(first, ts[|ts| - 1].look)
  }

  const GUARD_SLICE: nat := 50_000

  function GuardCap(p: Priority): nat {
    if p == Medium then 3_000_000 else 10_000_000
  }

  /** How long the guard window may stay open for a task looked at when it opens: while the
      worst latency so far is below the budget, the least of the room between the two, what
      the budget leaves beyond twice the processing time, and 3 ms (Medium) or 10 ms (Low). */
  ghost predicate IsThreshold(task: QueuedTask, p100: nat, opening: nat, threshold: nat) {
    var x := task.packet;
    var room := x.budget - p100;
    var spare := x.timestamp + x.budget - Max(opening, x.timestamp) - 2 * ProcessingNs(x.size);
    var cap := if task.priority == Medium then 3_000_000 else 10_000_000;
    if 0 < p100 < x.budget && spare > 0
    then threshold <= room && threshold <= spare && threshold <= cap
         && (threshold == room || threshold == spare || threshold == cap)
    else threshold == 0
  }

  /** The task that a guard window let in. */
  ghost predicate CameIn(task: QueuedTask, current: QueuedTask, arrived: seq<Packet>, entry: nat) {
    && |arrived| == 1
    && MayInterrupt(task.priority, current.priority)
    && current == Fresh(current.priority, arrived[0], entry)
  }

  /** All the window of a Medium task polls, the High channel, is disconnected. */
  ghost predicate Gone(task: QueuedTask, misses: seq<Miss>, since: nat) {
    task.priority == Medium && Disconnected(misses, since)
  }

  /** Every class the window polls was found empty shortly before `time`. */
  ghost predicate PolledAll(task: QueuedTask, misses: seq<Miss>, since: nat, time: nat, slack: nat) {
    && PolledUntil(misses, since, High, time, slack)
    && (task.priority == Low ==> PolledUntil(misses, since, Medium, time, slack))
  }

  /** A guard window: the clock before and at its opening, its threshold, the clock when it
      closed, and the packet it received, if any. */
  datatype Window = Window(before: nat, opening: nat, threshold: nat, closed: nat, arrived: seq<Packet>)

  /** Without an arrival the window stays open until its threshold is reached, or the budget
      or the channel is gone; it is polled to the end if it is longer than two clock gaps
      and a gap shorter than a slice; and it leaves room for twice the processing time
      before the deadline, up to eight clock gaps. Below 1 us it does not open at all. */
  ghost predicate WindowKept(task: QueuedTask, p100: nat, w: Window, misses: seq<Miss>, since: nat, gap: nat) {
    var margin := 2 * ProcessingNs(task.packet.size);
    && Reads(w.before, w.opening, gap) && IsThreshold(task, p100, w.opening, w.threshold)
    && if w.threshold < 1000 then w.arrived == [] && w.closed == w.opening
       else w.arrived == [] ==>
         && (|| w.closed >= w.opening + w.threshold
             || w.closed + margin >= Deadline(task.packet)
             || Gone(task, misses, since))
         && (w.threshold > 2 * gap && gap < GUARD_SLICE ==> PolledAll(task, misses, since, w.closed, 8 * gap))
         && w.closed + margin <= Deadline(task.packet) + 8 * gap
  }

  lemma WindowStillKept(task: QueuedTask, p100: nat, w: Window, misses: seq<Miss>, more: seq<Miss>, since: nat,
                        gap: nat)
    requires WindowKept(task, p100, w, misses, since, gap) && misses <= more
    ensures WindowKept(task, p100, w, more, since, gap)
  {
    if Gone(task, misses, since) {
      var k :| since <= k < |misses| && misses[k].priority == High && misses[k].closed;
      assert more[k] == misses[k];
    }
    if PolledAll(task, misses, since, w.closed, 8 * gap) {
      PolledMore(misses, more, since, High, w.closed, 8 * gap);
      if task.priority == Low {
        PolledMore(misses, more, since, Medium, w.closed, 8 * gap);
      }
    }
  }

  /** One pass of the worker: the task popped, its index in the heap, and its window, the
      task that is processed first and what waits meanwhile, when processing began, its
      turns, and how long its last slice ran. */
  datatype Service = Service(index: nat, popped: QueuedTask, window: Window, first: QueuedTask,
                             waiting: seq<QueuedTask>, from: nat, ts: seq<Turn>, elapsed: nat)

  /** Only Medium and Low tasks have a guard window; what it lets in is processed first. */
  ghost predicate ServiceOk(mediumP100: nat, lowP100: nat, service: Service, misses: seq<Miss>, since: nat, gap: nat) {
    var p, w, first := service.popped.priority, service.window, service.first;
    && (if Consulted(service.popped)
        then WindowKept(service.popped, if p == Medium then mediumP100 else lowP100, w, misses, since, gap)
        else w.arrived == [] && w.closed == w.before)
    && (if w.arrived == [] then first == service.popped
        else |w.arrived| == 1 && MayInterrupt(p, first.priority) && first.packet == w.arrived[0])
    && Reads(w.closed, service.from, gap) && Turns(first, Begin(first, service.waiting, service.from), service.ts, gap)
  }

  /** What the pass left behind: the heap, the packets received, and the finished task,
      whose last slice has run to its end. */
  ghost predicate ServiceDone(service: Service, arrived: seq<Packet>, done: QueuedTask, after: seq<QueuedTask>) {
    var b := Begin(service.first, service.waiting, service.from);
    var run := LoopAfter(b, service.ts).run;
    && arrived == service.window.arrived + Arrived(Interruptions(b, service.ts))
    && after == run.heap
    && service.elapsed >= run.current.estimate && done == Interrupted(run.current, service.elapsed)
  }

  lemma PolledAllStill(task: QueuedTask, misses: seq<Miss>, since: nat, time: nat, slack: nat, earlier: nat, later: nat,
                       more: nat)
    requires PolledAll(task, misses, since, time, slack) && earlier <= since && later + slack <= time + more
    ensures PolledAll(task, misses, earlier, later, more)
  {
    PolledStill(misses, since, High, time, slack, earlier, later, more);
    if task.priority == Low {
      PolledStill(misses, since, Medium, time, slack, earlier, later, more);
    }
  }

  /** A poll that found nothing. */
  lemma PolledOnce(task: QueuedTask, before: seq<Miss>, after: seq<Miss>, since: nat, time: nat, tick: nat, gap: nat)
    requires (task.priority == Medium || task.priority == Low) && since <= |before| && before <= after
    requires |after| == |before| + |FoundEmpty(task.priority, false, High)| && tick <= time + gap
    requires forall k :: |before| <= k < |after| ==>
               after[k].priority == FoundEmpty(task.priority, false, High)[k - |before|] && time <= after[k].time + gap
    ensures PolledAll(task, after, since, tick, 2 * gap)
  {
    assert after[|before|].priority == High;
    if task.priority == Low {
      assert after[|before| + 1].priority == Medium;
    }
  }

  /** A slice that polled to its end, or one too short to poll. */
  lemma PollsGoOn(task: QueuedTask, before: seq<Miss>, after: seq<Miss>, since: nat, last: nat, tick: nat, checked: nat,
                  gap: nat)
    requires before <= after && since <= |before| && tick <= checked <= tick + gap
    ensures PolledAll(task, after, |before|, tick, 2 * gap) ==>
              PolledAll(task, after, since, checked, 3 * gap) && PolledAll(task, after, since, checked, 7 * gap)
    ensures PolledAll(task, before, since, last, 3 * gap) && checked <= last + 4 * gap ==>
              PolledAll(task, after, since, checked, 7 * gap)
  {
    if PolledAll(task, after, |before|, tick, 2 * gap) {
      PolledAllStill(task, after, |before|, tick, 2 * gap, since, checked, 3 * gap);
      PolledAllStill(task, after, |before|, tick, 2 * gap, since, checked, 7 * gap);
    }
    if PolledAll(task, before, since, last, 3 * gap) && checked <= last + 4 * gap {
      PolledMore(before, after, since, High, last, 3 * gap);
      if task.priority == Low {
        PolledMore(before, after, since, Medium, last, 3 * gap);
      }
      PolledAllStill(task, after, since, last, 3 * gap, since, checked, 7 * gap);
    }
  }

  lemma PolledMore(before: seq<Miss>, after: seq<Miss>, since: nat, p: Priority, time: nat, slack: nat)
    requires before <= after && PolledUntil(before, since, p, time, slack)
    ensures PolledUntil(after, since, p, time, slack)
  {
    var k :| since <= k < |before| && before[k].priority == p && time <= before[k].time + slack;
    assert after[k] == before[k];
  }

  class Worker {
    var heap: seq<QueuedTask>
    var completion: nat             // estimated completion time
    const egress: Table<Egress>
    ghost var received: multiset<Packet>
    ghost var finished: seq<QueuedTask>

    constructor (egress: Table<Egress>, now: nat)
      requires Separate(egress) && forall p :: egress.Get(p).Valid() && egress.Get(p).offered == []
      ensures Valid() && heap == [] && received == multiset{} && finished == [] && this.egress == egress
    {
      heap, completion, this.egress := [], now, egress;
      received, finished := multiset{}, [];
    }

    /** Every packet received is queued or finished, exactly once; no account is short; a
        finished packet has had at least its original processing time; and each class's
        egress channel was offered the packets finished under that class, in order. */
    ghost predicate Valid()
      reads this, egress.high, egress.medium, egress.low, egress.bestEffort
    {
      Accounted(heap, received, finished) && Delivered(egress, Departures(finished))
    }

    method Push(task: QueuedTask)
      modifies this`heap, this`completion
      ensures heap == old(heap) + [task] && completion == old(completion) + task.estimate
    {
      heap := heap + [task];
      completion := completion + task.estimate;
    }

    method TryPop() returns (r: Option<QueuedTask>)
      modifies this`heap
      ensures r.None? ==> old(heap) == [] && heap == []
      ensures r.Some? ==> exists i :: 0 <= i < |old(heap)| && LeastSlack(old(heap), i)
                                      && r.value == old(heap)[i] && heap == Without(old(heap), i)
    {
      if heap == [] {
        return None;
      }
      var first := 0;
      for i := 1 to |heap|
        invariant first < i && forall j :: 0 <= j < i ==> heap[first].slack <= heap[j].slack
      {
        if heap[i].slack < heap[first].slack {
          first := i;
        }
      }
      r := Some(heap[first]);
      assert LeastSlack(heap, first);
      heap := heap[..first] + heap[first + 1..];
    }

    /** One slice of a guard window: poll until the clock reaches `closes`. */
    method GuardSlice(task: QueuedTask, inputs: Inputs, closes: nat)
        returns (stop: bool, current: QueuedTask, ghost arrived: seq<Packet>, ghost entry: nat)
      requires inputs.clock.Valid() && (task.priority == Medium || task.priority == Low)
      modifies this`heap, this`completion, inputs, inputs.clock
      ensures inputs.log == old(inputs.log) + arrived && inputs.clock.time > old(inputs.clock.time)
      ensures old(inputs.misses) <= inputs.misses
      ensures arrived == [] ==> current == task && heap == old(heap)
      ensures arrived != [] ==> CameIn(task, current, arrived, entry) && heap == old(heap) + [task]
      ensures stop <==> arrived != [] || Gone(task, inputs.misses, |old(inputs.misses)|)
      ensures !stop ==> inputs.clock.time >= closes
      ensures arrived == [] ==> inputs.clock.time < Max(closes, old(inputs.clock.time)) + 3 * inputs.clock.gap
      ensures arrived == [] ==>
                || (!stop && inputs.clock.time <= old(inputs.clock.time) + inputs.clock.gap)
                || PolledAll(task, inputs.misses, |old(inputs.misses)|, inputs.clock.time, 2 * inputs.clock.gap)
    {
      stop, current, arrived, entry := false, task, [], 0;
      var tick := inputs.clock.Now();
      while tick < closes
        invariant tick == inputs.clock.time > old(inputs.clock.time) && !stop && current == task
        invariant tick < Max(closes, old(inputs.clock.time)) + 3 * inputs.clock.gap
        invariant heap == old(heap) && inputs.log == old(inputs.log) && old(inputs.misses) <= inputs.misses
        invariant arrived == []
        invariant !Gone(task, inputs.misses, |old(inputs.misses)|)
        invariant tick <= old(inputs.clock.time) + inputs.clock.gap
                  || PolledAll(task, inputs.misses, |old(inputs.misses)|, tick, 2 * inputs.clock.gap)
        decreases Monus(closes, tick)
      {
        ghost var before := inputs.misses;
        var q, r, closed := inputs.Poll(task.priority);
        if r.Some? {
          stop, arrived := true, [r.value];
          var t := inputs.clock.Now();
          Push(task);
          entry := t;
          current := Fresh(q, r.value, t);
          return;
        }
        ghost var polled := inputs.clock.time;
        PolledOnce(task, before, inputs.misses, |old(inputs.misses)|, polled, polled, inputs.clock.gap);
        if closed {
          assert inputs.misses[|inputs.misses| - 1].priority == High;
          stop := true;
          return;
        }
        tick := inputs.clock.Now();
        PolledOnce(task, before, inputs.misses, |old(inputs.misses)|, polled, tick, inputs.clock.gap);
      }
    }

    /** The guard window itself, open for `wait` or until the budget falls to `margin`. */
    method GuardFor(task: QueuedTask, wait: nat, margin: nat, inputs: Inputs)
        returns (current: QueuedTask, ghost arrived: seq<Packet>, ghost entry: nat)
      requires inputs.clock.Valid() && (task.priority == Medium || task.priority == Low)
      modifies this`heap, this`completion, inputs, inputs.clock
      ensures inputs.log == old(inputs.log) + arrived && inputs.clock.time > old(inputs.clock.time)
      ensures old(inputs.misses) <= inputs.misses
      ensures arrived == [] ==> current == task && heap == old(heap)
      ensures arrived != [] ==> CameIn(task, current, arrived, entry) && heap == old(heap) + [task]
      ensures arrived == [] ==>
                || inputs.clock.time >= old(inputs.clock.time) + wait
                || BudgetLeft(task.packet, inputs.clock.time) <= margin
                || Gone(task, inputs.misses, |old(inputs.misses)|)
      ensures arrived == [] && wait > 2 * inputs.clock.gap && inputs.clock.gap < GUARD_SLICE ==>
                PolledAll(task, inputs.misses, |old(inputs.misses)|, inputs.clock.time, 8 * inputs.clock.gap)
      ensures arrived == [] ==> inputs.clock.time <= old(inputs.clock.time) + wait + 7 * inputs.clock.gap
    {
      var clock := inputs.clock;
      current, arrived, entry := task, [], 0;
      var guardStart := clock.Now();
      ghost var since, gap, last := |inputs.misses|, clock.gap, guardStart;
      ghost var polling := wait > 2 * gap && gap < GUARD_SLICE;
      while true
        invariant clock == inputs.clock && clock.Valid() && clock.time == last >= guardStart
        invariant last <= guardStart + wait + 5 * gap
        invariant heap == old(heap) && inputs.log == old(inputs.log) && arrived == [] && current == task
        invariant since == |old(inputs.misses)| && old(inputs.misses) <= inputs.misses
        invariant polling && last != guardStart ==>
                    PolledAll(task, inputs.misses, since, last, if last < guardStart + wait then 3 * gap else 7 * gap)
        decreases guardStart + wait + 5 * gap - last
      {
        var elapsed := clock.Now();
        if elapsed - guardStart >= wait {
          if polling {
            PolledAllStill(task, inputs.misses, since, last, if last < guardStart + wait then 3 * gap else 7 * gap,
                           since, elapsed, 8 * gap);
          }
          break;
        }
        var window := Min(wait - (elapsed - guardStart), GUARD_SLICE);
        var sliceStart := clock.Now();
        ghost var misses := inputs.misses;
        var stop;
        stop, current, arrived, entry := GuardSlice(task, inputs, sliceStart + window);
        ghost var tick := clock.time;
        if stop {
          PollsGoOn(task, misses, inputs.misses, since, last, tick, tick, gap);
          return;
        }
        var checked := clock.Now();
        PollsGoOn(task, misses, inputs.misses, since, last, tick, checked, gap);
        last := checked;
        if BudgetLeft(task.packet, checked) <= margin {
          break;
        }
      }
    }

    /** Guard window before a Medium or Low task: wait for a higher class while the budget
        allows it. */
    method Guard(task: QueuedTask, p100: nat, inputs: Inputs)
        returns (current: QueuedTask, ghost arrived: seq<Packet>, ghost entry: nat, ghost opening: nat,
                 ghost threshold: nat)
      requires inputs.clock.Valid() && (task.priority == Medium || task.priority == Low)
      modifies this`heap, this`completion, inputs, inputs.clock
      ensures inputs.log == old(inputs.log) + arrived && inputs.clock.time > old(inputs.clock.time)
      ensures old(inputs.misses) <= inputs.misses
      ensures arrived == [] ==> current == task && heap == old(heap)
      ensures arrived != [] ==> CameIn(task, current, arrived, entry) && heap == old(heap) + [task]
      ensures var w := Window(old(inputs.clock.time), opening, threshold, inputs.clock.time, arrived);
              WindowKept(task, p100, w, inputs.misses, |old(inputs.misses)|, inputs.clock.gap)
    {
      var clock := inputs.clock;
      current, arrived, entry, threshold := task, [], 0, 0;
      var now := clock.Now();
      opening := now;
      var x := task.packet;
      if !(0 < p100 < x.budget) {
        return;
      }
      var budgetLeft := BudgetLeft(x, now);
      var margin := 2 * ProcessingNs(x.size);
      var wait := Min(Min(x.budget - p100, Monus(budgetLeft, margin)), GuardCap(task.priority));
      threshold := wait;
      if wait / 1000 == 0 || budgetLeft <= margin {
        return;
      }
      current, arrived, entry := GuardFor(task, wait, margin, inputs);
    }

    /** The check for preemption after the reading `now`: a waiting packet of a higher class
        takes over if the budget allows it, and the remaining work is stored. */
    method Check(first: QueuedTask, current: QueuedTask, start: nat, now: nat, inputs: Inputs, ghost l: Loop,
                 ghost tick: nat)
        returns (look: Look)
      requires inputs.clock.Valid() && now == inputs.clock.time && Due(first, l, now)
      requires l.run == Running(current, heap) && l.start == start <= l.clock
      requires Reads(l.clock, tick, inputs.clock.gap) && tick < start + current.estimate
               && Reads(tick, now, inputs.clock.gap)
      modifies this`heap, this`completion, inputs, inputs.clock
      ensures TurnOk(first, l, Turn(tick, now, look), inputs.clock.gap) && !look.NotDue?
      ensures heap == TurnDone(l, Turn(tick, now, look)).run.heap
      ensures inputs.clock.time == TurnDone(l, Turn(tick, now, look)).clock
      ensures inputs.log == old(inputs.log) + ReceivedIn(look)
      ensures old(inputs.misses) <= inputs.misses && inputs.empty == old(inputs.empty) + EmptyInTurn(first, look)
    {
      var clock := inputs.clock;
      var budgetLeft := BudgetLeft(first.packet, now);
      var looked := clock.Now();
      var remaining := Monus(current.estimate, looked - start);
      if 5 * budgetLeft <= 6 * remaining {
        return Refused(looked);
      }
      var q, r, _ := inputs.Poll(first.priority);
      var polled := clock.time;    // for the record, not a reading
      if r.None? {
        return Missed(looked, polled);
      }
      var time := clock.Now();
      var stopped := clock.Now();
      Push(Interrupted(current, stopped - start));
      var resumed := clock.Now();
      look := Taken(looked, polled, q, r.value, time, stopped, resumed);
    }

    /** One turn of the processing loop: finish, or spin once. */
    method Spin(first: QueuedTask, current: QueuedTask, start: nat, lastCheck: nat, inputs: Inputs, ghost l: Loop)
        returns (finished: bool, elapsed: nat, turn: Turn)
      requires inputs.clock.Valid() && l == Loop(Running(current, heap), start, lastCheck, inputs.clock.time)
      requires start <= inputs.clock.time && lastCheck <= inputs.clock.time
      modifies this`heap, this`completion, inputs, inputs.clock
      ensures inputs.clock.time > old(inputs.clock.time)
      ensures finished ==> elapsed >= current.estimate && heap == old(heap) && inputs.log == old(inputs.log)
      ensures finished ==> inputs.empty == old(inputs.empty)
      ensures old(inputs.misses) <= inputs.misses
      ensures !finished ==>
                && TurnOk(first, l, turn, inputs.clock.gap)
                && heap == TurnDone(l, turn).run.heap && inputs.clock.time == TurnDone(l, turn).clock
                && inputs.log == old(inputs.log) + ReceivedIn(turn.look)
                && inputs.empty == old(inputs.empty) + EmptyInTurn(first, turn.look)
    {
      finished, turn := false, Turn(0, 0, NotDue);
      var tick := inputs.clock.Now();
      elapsed := tick - start;
      if elapsed >= current.estimate {
        finished := true;
        return;
      }
      var now := inputs.clock.Now();
      var look := NotDue;
      if (first.priority == Medium || first.priority == Low) && now - lastCheck >= CHECK_INTERVAL {
        look := Check(first, current, start, now, inputs, l, tick);
      }
      turn := Turn(tick, now, look);
    }

    /** Processing, sliced by preemptions. The class and budget consulted are those of the
        task that was current at the start. */
    method Process(task: QueuedTask, inputs: Inputs)
        returns (last: QueuedTask, finalPriority: Priority, elapsed: nat, ghost from: nat, ghost ts: seq<Turn>)
      requires inputs.clock.Valid()
      modifies this`heap, this`completion, inputs, inputs.clock
      ensures Turns(task, Begin(task, old(heap), from), ts, inputs.clock.gap)
      ensures Running(last, heap) == LoopAfter(Begin(task, old(heap), from), ts).run
      ensures finalPriority == last.priority && elapsed >= last.estimate
      ensures inputs.log == old(inputs.log) + Arrived(Interruptions(Begin(task, old(heap), from), ts))
      ensures old(inputs.misses) <= inputs.misses && inputs.empty == old(inputs.empty) + EmptyInTurns(task, ts)
      ensures inputs.clock.time > old(inputs.clock.time) && Reads(old(inputs.clock.time), from, inputs.clock.gap)
    {
      var clock := inputs.clock;
      last, finalPriority, elapsed, ts := task, task.priority, 0, [];
      var start: nat := clock.Now();
      var lastCheck: nat := start;
      from := start;
      ghost var b := Begin(task, heap, from);
      ghost var l := b;
      ghost var arrived: seq<Packet>, empty: seq<Priority> := [], [];
      var finished := false;
      while !finished
        invariant clock == inputs.clock && clock.Valid() && clock.time > old(inputs.clock.time)
        invariant Progress(task, b, ts, l, arrived, empty, clock.gap)
        invariant inputs.log == old(inputs.log) + arrived && inputs.empty == old(inputs.empty) + empty
        invariant old(inputs.misses) <= inputs.misses
        invariant l.run == Running(last, heap) && l.start == start <= clock.time
                  && l.lastCheck == lastCheck <= clock.time
        invariant !finished ==> l.clock == clock.time
        invariant finalPriority == last.priority && (finished ==> elapsed >= last.estimate)
        decreases !finished, Monus(Deadline(task.packet), clock.time), Monus(start + last.estimate, clock.time)
      {
        var turn: Turn;
        finished, elapsed, turn := Spin(task, last, start, lastCheck, inputs, l);
        if !finished {
          NextProgress(task, b, ts, l, arrived, empty, turn, clock.gap);
          AppendAssociative(old(inputs.log), arrived, ReceivedIn(turn.look));
          AppendAssociative(old(inputs.empty), empty, EmptyInTurn(task, turn.look));
          arrived, empty := arrived + ReceivedIn(turn.look), empty + EmptyInTurn(task, turn.look);
          ts, l := ts + [turn], TurnDone(l, turn);
          if !turn.look.NotDue? {
            lastCheck := turn.now;
          }
          if turn.look.Taken? {
            last := Fresh(turn.look.priority, turn.look.packet, turn.look.time);
            finalPriority, start := turn.look.priority, turn.look.resumed;
          }
        }
      }
    }

    /** A packet handed over by the dispatcher joins with its full estimate and with the
        slack it has at that moment. */
    method Accept(p: Priority, x: Packet, now: nat) returns (ghost t: QueuedTask)
      requires Valid()
      modifies this
      ensures Valid() && received == old(received) + multiset{x} && finished == old(finished)
      ensures heap == old(heap) + [t] && completion == old(completion) + t.estimate
      ensures IsFresh(t, p, x, now)
    {
      var task := Fresh(p, x, now);
      FreshIsFresh(p, x, now);
      AcceptKeepsAccounts(heap, received, finished, task);
      Push(task);
      received := received + multiset{x};
      t := task;
    }

    /** The guard window applies to Medium and Low tasks only. */
    method Admit(task: QueuedTask, mediumP100: nat, lowP100: nat, inputs: Inputs)
        returns (current: QueuedTask, ghost w: Window)
      requires inputs.clock.Valid()
      modifies this`heap, this`completion, inputs, inputs.clock
      ensures inputs.log == old(inputs.log) + w.arrived && old(inputs.misses) <= inputs.misses
      ensures w.arrived == [] ==> current == task && heap == old(heap)
      ensures w.arrived != [] ==>
                && |w.arrived| == 1
                && MayInterrupt(task.priority, current.priority)
                && current.packet == w.arrived[0] && Balanced(current)
                && heap == old(heap) + [task]
      ensures w.before == old(inputs.clock.time) && w.closed == inputs.clock.time
      ensures var p100 := if task.priority == Medium then mediumP100 else lowP100;
              if Consulted(task)
              then WindowKept(task, p100, w, inputs.misses, |old(inputs.misses)|, inputs.clock.gap)
              else w.arrived == [] && w.closed == w.before
    {
      current := task;
      ghost var before: nat := inputs.clock.time;
      ghost var arrived: seq<Packet>, entry: nat, opening: nat, threshold: nat := [], 0, before, 0;
      if task.priority == Medium {
        current, arrived, entry, opening, threshold := Guard(task, mediumP100, inputs);
      } else if task.priority == Low {
        current, arrived, entry, opening, threshold := Guard(task, lowP100, inputs);
      }
      w := Window(before, opening, threshold, inputs.clock.time, arrived);
    }

    /** From the pop to the end of the processing; `done` is the finished task, its
        last slice included. */
    method Serve(mediumP100: nat, lowP100: nat, inputs: Inputs)
        returns (last: Option<Packet>, finalPriority: Priority, ghost done: QueuedTask, ghost arrived: seq<Packet>,
                 ghost service: Service)
      requires Accounted(heap, received, finished) && inputs.clock.Valid()
      modifies this`heap, this`completion, this`received, this`finished, inputs, inputs.clock
      ensures Accounted(heap, received, finished)
      ensures inputs.log == old(inputs.log) + arrived && received == old(received) + multiset(arrived)
      ensures last.None? <==> old(heap) == []
      ensures last.None? ==> finished == old(finished) && completion == old(completion) && arrived == []
      ensures last.Some? ==>
                done.priority == finalPriority && done.packet == last.value && finished == old(finished) + [done]
      ensures last.Some? ==> ServedFrom(old(heap), service)
      ensures last.Some? ==>
                && service.window.before == old(inputs.clock.time)
                && ServiceOk(mediumP100, lowP100, service, inputs.misses, |old(inputs.misses)|, inputs.clock.gap)
                && ServiceDone(service, arrived, done, heap)
    {
      last, arrived, finalPriority, done, service := None, [], High, *, *;
      var popped := TryPop();
      if popped.None? {
        return;
      }
      ghost var i :| 0 <= i < |old(heap)| && LeastSlack(old(heap), i)
                     && popped.value == old(heap)[i] && heap == Without(old(heap), i);
      var packet: Packet;
      packet, finalPriority, done, arrived, service
        := ServePopped(popped.value, old(heap), i, mediumP100, lowP100, inputs);
      last := Some(packet);
      LeastSlackServesMostUrgent(old(heap), service);
    }

    method ServePopped(popped: QueuedTask, ghost before: seq<QueuedTask>, ghost i: nat,
                       mediumP100: nat, lowP100: nat, inputs: Inputs)
        returns (last: Packet, finalPriority: Priority, ghost done: QueuedTask, ghost arrived: seq<Packet>,
                 ghost service: Service)
      requires inputs.clock.Valid() && Accounted(before, received, finished)
      requires i < |before| && popped == before[i] && heap == Without(before, i)
      modifies this`heap, this`completion, this`received, this`finished, inputs, inputs.clock
      ensures Accounted(heap, received, finished)
      ensures inputs.log == old(inputs.log) + arrived && received == old(received) + multiset(arrived)
      ensures done.priority == finalPriority && done.packet == last && finished == old(finished) + [done]
      ensures service.index == i && service.popped == popped && service.window.before == old(inputs.clock.time)
      ensures service.waiting == old(heap) + if service.window.arrived == [] then [] else [popped]
      ensures ServiceOk(mediumP100, lowP100, service, inputs.misses, |old(inputs.misses)|, inputs.clock.gap)
      ensures ServiceDone(service, arrived, done, heap)
    {
      var first: QueuedTask;
      ghost var w: Window;
      first, w := Admit(popped, mediumP100, lowP100, inputs);
      ghost var waiting, misses := heap, inputs.misses;
      var task: QueuedTask, elapsed: nat;
      ghost var from: nat, ts: seq<Turn>, more: seq<Packet>;
      task, finalPriority, elapsed, from, ts, more := ServeAdmitted(first, before, i, w.arrived, inputs);
      AppendAssociative(old(inputs.log), w.arrived, more);
      last, done, arrived := task.packet, Interrupted(task, elapsed), w.arrived + more;
      service := Service(i, popped, w, first, waiting, from, ts, elapsed);
      if Consulted(popped) {
        WindowStillKept(popped, if popped.priority == Medium then mediumP100 else lowP100, w, misses, inputs.misses,
                        |old(inputs.misses)|, inputs.clock.gap);
      }
    }

    method ServeAdmitted(first: QueuedTask, ghost before: seq<QueuedTask>, ghost i: nat, ghost guard: seq<Packet>,
                         inputs: Inputs)
        returns (task: QueuedTask, finalPriority: Priority, elapsed: nat, ghost from: nat, ghost ts: seq<Turn>,
                 ghost more: seq<Packet>)
      requires inputs.clock.Valid() && Accounted(before, received, finished)
      requires Admitted(before, i, guard, Running(first, heap))
      modifies this`heap, this`completion, this`received, this`finished, inputs, inputs.clock
      ensures Accounted(heap, received, finished) && old(inputs.misses) <= inputs.misses
      ensures inputs.log == old(inputs.log) + more && received == old(received) + multiset(guard + more)
      ensures finalPriority == task.priority && finished == old(finished) + [Interrupted(task, elapsed)]
      ensures var b := Begin(first, old(heap), from);
              && Reads(old(inputs.clock.time), from, inputs.clock.gap) && Turns(first, b, ts, inputs.clock.gap)
              && LoopAfter(b, ts).run == Running(task, heap) && elapsed >= task.estimate
              && more == Arrived(Interruptions(b, ts))
    {
      ghost var r := Running(first, heap);
      task, finalPriority, elapsed, from, ts := Process(first, inputs);
      ghost var b := Begin(first, r.heap, from);
      more := Arrived(Interruptions(b, ts));
      TurnsKeepAccounts(before, i, received, finished, guard, b, ts, elapsed);
      received, finished := received + multiset(guard + more), finished + [Interrupted(task, elapsed)];
    }

    /** One turn of the worker loop. The finished packet is offered to the egress channel of
        its own class, and only Medium and Low latencies are reported to the trackers. */
    method Iterate(mediumP100: nat, lowP100: nat, inputs: Inputs)
        returns (mediumLatency: Option<nat>, lowLatency: Option<nat>,
                 ghost done: Option<QueuedTask>, ghost arrived: seq<Packet>, ghost service: Service)
      requires Valid() && inputs.clock.Valid()
      modifies this, inputs, inputs.clock, egress.high, egress.medium, egress.low, egress.bestEffort
      ensures Valid() && inputs.log == old(inputs.log) + arrived && received == old(received) + multiset(arrived)
      ensures done.None? <==> old(heap) == []
      ensures finished == if done.None? then old(finished) else old(finished) + [done.value]
      ensures done.None? ==> completion == old(completion) && mediumLatency == lowLatency == None && arrived == []
      ensures done.Some? ==> ServedFrom(old(heap), service)
      ensures done.Some? ==>
                && service.window.before == old(inputs.clock.time)
                && ServiceOk(mediumP100, lowP100, service, inputs.misses, |old(inputs.misses)|, inputs.clock.gap)
                && ServiceDone(service, arrived, done.value, heap)
      ensures done.Some? ==> completion == inputs.clock.time
      ensures done.Some? ==>
                && (mediumLatency.Some? <==> done.value.priority == Medium)
                && (lowLatency.Some? <==> done.value.priority == Low)
                && (mediumLatency.Some? ==> IsLatency(mediumLatency.value, done.value.packet, completion))
                && (lowLatency.Some? ==> IsLatency(lowLatency.value, done.value.packet, completion))
    {
      mediumLatency, lowLatency, done := None, None, None;
      var last, finalPriority;
      ghost var task: QueuedTask;
      last, finalPriority, task, arrived, service := Serve(mediumP100, lowP100, inputs);
      if last.None? {
        return;
      }
      done := Some(task);
      mediumLatency, lowLatency := Complete(finalPriority, last.value, inputs.clock, old(finished), task);
    }

    /** After the processing: report, then hand the packet to egress. */
    method Complete(p: Priority, x: Packet, clock: Clock, ghost before: seq<QueuedTask>, ghost task: QueuedTask)
        returns (mediumLatency: Option<nat>, lowLatency: Option<nat>)
      requires clock.Valid() && Delivered(egress, Departures(before)) && task.priority == p && task.packet == x
      modifies this`completion, clock, egress.high, egress.medium, egress.low, egress.bestEffort
      ensures completion == clock.time && Delivered(egress, Departures(before + [task]))
      ensures (mediumLatency.Some? <==> p == Medium) && (lowLatency.Some? <==> p == Low)
      ensures mediumLatency.Some? ==> IsLatency(mediumLatency.value, x, completion)
      ensures lowLatency.Some? ==> IsLatency(lowLatency.value, x, completion)
    {
      mediumLatency, lowLatency := Report(p, x, clock);
      DeparturesNext(before, task);
      Forward(egress, p, x, Departures(before));
    }

    /** The completion time, and the latencies for the trackers. */
    method Report(p: Priority, x: Packet, clock: Clock) returns (mediumLatency: Option<nat>, lowLatency: Option<nat>)
      requires clock.Valid()
      modifies this`completion, clock
      ensures completion == clock.time
      ensures (mediumLatency.Some? <==> p == Medium) && (lowLatency.Some? <==> p == Low)
      ensures mediumLatency.Some? ==> IsLatency(mediumLatency.value, x, completion)
      ensures lowLatency.Some? ==> IsLatency(lowLatency.value, x, completion)
    {
      mediumLatency, lowLatency := None, None;
      completion := clock.Now();
      var latency: nat := Monus(completion, x.timestamp);
      if p == Medium {
        mediumLatency := Some(latency);
      }
      if p == Low {
        lowLatency := Some(latency);
      }
    }
  }

  /** The time from ingress to completion, 0 if the stamp is later. */
  ghost predicate IsLatency(ns: nat, x: Packet, completion: nat) {
    if x.timestamp <= completion then x.timestamp + ns == completion else ns == 0
  }

  /** Finished tasks leave under their own class. */
  ghost function Departures(finished: seq<QueuedTask>): seq<Pick> {
    if finished == [] then []
    else
      var n := |finished| - 1;
      Departures(finished[..n]) + [Pick(finished[n].priority, finished[n].packet)]
  }

  lemma DeparturesNext(finished: seq<QueuedTask>, t: QueuedTask)
    ensures Departures(finished + [t]) == Departures(finished) + [Pick(t.priority, t.packet)]
  {
    assert (finished + [t])[..|finished|] == finished;
  }

  /** Relative to their entries a must start no later than b; being late counts as being due
      at once. */
  ghost predicate MoreUrgent(a: QueuedTask, b: QueuedTask) {
    LatestStart(a) - a.entry <= Max(LatestStart(b) - b.entry, 0)
  }

  /** The pass popped a task with least slack and so the most urgent; the others wait, and
      so does that task if its window let another packet in. */
  ghost predicate ServedFrom(before: seq<QueuedTask>, service: Service) {
    var i, popped := service.index, service.popped;
    && LeastSlack(before, i) && popped == before[i]
    && (forall j :: 0 <= j < |before| ==> MoreUrgent(popped, before[j]))
    && service.waiting == Without(before, i) + if service.window.arrived == [] then [] else [popped]
  }

  lemma LeastSlackServesMostUrgent(before: seq<QueuedTask>, service: Service)
    requires var i := service.index;
             && AllBalanced(before) && LeastSlack(before, i) && service.popped == before[i]
             && service.waiting
                == Without(before, i) + if service.window.arrived == [] then [] else [service.popped]
    ensures ServedFrom(before, service)
  {
    forall j | 0 <= j < |before| ensures MoreUrgent(service.popped, before[j]) {
      LeastSlackIsMostUrgent(before, service.index, j);
    }
  }

  /** The same for the turns of the loop. */
  lemma TurnsKeepAccounts(before: seq<QueuedTask>, i: nat, received: multiset<Packet>, finished: seq<QueuedTask>,
                          guard: seq<Packet>, b: Loop, ts: seq<Turn>, elapsed: nat)
    requires Accounted(before, received, finished) && Admitted(before, i, guard, b.run)
    requires elapsed >= LoopAfter(b, ts).run.current.estimate
    ensures var s := LoopAfter(b, ts).run;
            Accounted(s.heap, received + multiset(guard + Arrived(Interruptions(b, ts))),
                      finished + [Interrupted(s.current, elapsed)])
  {
    TurnsReplay(b, ts);
    CompletionKeepsAccounts(before, i, received, finished, guard, b.run, Interruptions(b, ts), elapsed);
  }

  ghost predicate Served(t: QueuedTask) {
    t.spent >= ProcessingNs(t.packet.size)
  }

  ghost predicate Accounted(heap: seq<QueuedTask>, received: multiset<Packet>, finished: seq<QueuedTask>) {
    && AllBalanced(heap)
    && received == PacketsOf(heap) + PacketsOf(finished)
    && forall t :: t in finished ==> Served(t)
  }

  /** Task i of `before` was popped and is processed, unless a guard window replaced it. */
  ghost predicate Admitted(before: seq<QueuedTask>, i: nat, guard: seq<Packet>, r: Running) {
    && i < |before|
    && if guard == [] then r == Running(before[i], Without(before, i))
       else && |guard| == 1 && Balanced(r.current) && r.current.packet == guard[0]
            && r.heap == Without(before, i) + [before[i]]
  }

  /** A task with its full estimate and the slack it has at time `now`, and no history. */
  ghost predicate IsFresh(t: QueuedTask, p: Priority, x: Packet, now: nat) {
    && t.packet == x && t.priority == p && t.entry == now && t.spent == t.over == 0
    && t.estimate == ProcessingNs(x.size)
    && t.deadline == x.timestamp + x.budget
    && t.slack == Max(t.deadline - now - t.estimate, 0)
  }

  lemma FreshIsFresh(p: Priority, x: Packet, now: nat)
    ensures IsFresh(Fresh(p, x, now), p, x, now) && Balanced(Fresh(p, x, now))
  {
  }

  lemma AcceptKeepsAccounts(heap: seq<QueuedTask>, received: multiset<Packet>, finished: seq<QueuedTask>, t: QueuedTask)
    requires Accounted(heap, received, finished) && Balanced(t)
    ensures Accounted(heap + [t], received + multiset{t.packet}, finished)
  {
    PacketsOfAppend(heap, t);
    Swapped(PacketsOf(heap), PacketsOf(finished), multiset{t.packet});
  }

  lemma Swapped(a: multiset<Packet>, b: multiset<Packet>, c: multiset<Packet>)
    ensures (a + b) + c == (a + c) + b
  {
  }

  /** One processing, from the pop to the completion, keeps the accounts. */
  lemma CompletionKeepsAccounts(before: seq<QueuedTask>, i: nat, received: multiset<Packet>, finished: seq<QueuedTask>,
                                guard: seq<Packet>, r: Running, es: seq<Preemption>, elapsed: nat)
    requires Accounted(before, received, finished) && Admitted(before, i, guard, r)
    requires elapsed >= Replay(r, es).current.estimate
    ensures var s := Replay(r, es);
            Accounted(s.heap, received + multiset(guard + Arrived(es)), finished + [Interrupted(s.current, elapsed)])
  {
    var s := Replay(r, es);
    var done := Interrupted(s.current, elapsed);
    PacketsOfWithout(before, i);
    AdmissionKeepsPackets(before, i, guard, r);
    PreemptionKeepsAccounts(r, es);
    PacketsOfAppend(finished, done);
    assert Served(done);
    Rearranged(received, PacketsOf(before), PacketsOf(finished), PacketsOf(r.heap) + multiset{r.current.packet},
               multiset(guard), multiset(Arrived(es)), PacketsOf(s.heap), multiset{done.packet});
  }

  lemma RestIsBalanced(before: seq<QueuedTask>, i: nat)
    requires AllBalanced(before) && i < |before|
    ensures Balanced(before[i]) && AllBalanced(Without(before, i))
  {
    WithoutItems(before, i);
    forall t | t in Without(before, i) ensures t in before {
      assert t in multiset(before);
    }
  }

  lemma AdmissionKeepsPackets(before: seq<QueuedTask>, i: nat, guard: seq<Packet>, r: Running)
    requires AllBalanced(before) && Admitted(before, i, guard, r)
    ensures PacketsOf(r.heap) + multiset{r.current.packet} == PacketsOf(before) + multiset(guard)
    ensures Balanced(r.current) && AllBalanced(r.heap)
  {
    PacketsOfWithout(before, i);
    RestIsBalanced(before, i);
    var rest := Without(before, i);
    if guard != [] {
      PacketsOfAppend(rest, before[i]);
      assert guard == [guard[0]];
      assert PacketsOf(r.heap) == PacketsOf(before);
    }
  }

  lemma Rearranged(received: multiset<Packet>, queued: multiset<Packet>, finished: multiset<Packet>,
                   admitted: multiset<Packet>, guard: multiset<Packet>, arrived: multiset<Packet>,
                       left: multiset<Packet>,
                   done: multiset<Packet>)
    requires received == queued + finished && admitted == queued + guard && left + done == admitted + arrived
    ensures received + (guard + arrived) == left + (finished + done)
  {
    forall x ensures (received + (guard + arrived))[x] == (left + (finished + done))[x] {
      assert received[x] == queued[x] + finished[x];
      assert admitted[x] == queued[x] + guard[x];
      assert (left + done)[x] == (admitted + arrived)[x];
    }
  }

  lemma {:induction false} PacketsOfWithout(tasks: seq<QueuedTask>, i: nat)
    requires i < |tasks|
    ensures PacketsOf(tasks) == PacketsOf(Without(tasks, i)) + multiset{tasks[i].packet}
  {
    var n := |tasks| - 1;
    if i == n {
      assert Without(tasks, i) == tasks[..n];
    } else {
      PacketsOfWithout(tasks[..n], i);
      var rest := Without(tasks[..n], i);
      assert Without(tasks, i) == rest + [tasks[n]];
      PacketsOfAppend(rest, tasks[n]);
      Swapped(PacketsOf(rest), multiset{tasks[i].packet}, multiset{tasks[n].packet});
    }
  }

  function ReceivedIn(look: Look): seq<Packet> {
    if look.Taken? then [look.packet] else []
  }

  /** The turns so far, what they received and what they found empty. */
  ghost predicate Progress(first: QueuedTask, b: Loop, ts: seq<Turn>, l: Loop, arrived: seq<Packet>,
                           empty: seq<Priority>, gap: nat) {
    && Turns(first, b, ts, gap) && l == LoopAfter(b, ts)
    && arrived == Arrived(Interruptions(b, ts)) && empty == EmptyInTurns(first, ts)
  }

  lemma NextProgress(first: QueuedTask, b: Loop, ts: seq<Turn>, l: Loop, arrived: seq<Packet>, empty: seq<Priority>,
                     t: Turn, gap: nat)
    requires Progress(first, b, ts, l, arrived, empty, gap) && TurnOk(first, l, t, gap)
    ensures Progress(first, b, ts + [t], TurnDone(l, t), arrived + ReceivedIn(t.look),
                     empty + EmptyInTurn(first, t.look), gap)
  {
    TurnsAppend(first, b, ts, t, gap);
    assert (ts + [t])[..|ts|] == ts;
    if t.look.Taken? {
      ReplayAppend(b.run, Interruptions(b, ts), PreemptionOf(l, t.look));
    } else {
      assert arrived + [] == arrived && Interruptions(b, ts) + [] == Interruptions(b, ts);
    }
  }
}
