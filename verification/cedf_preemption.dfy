/** C-EDF processing: preemption as a sequence of loop turns, each with its clock readings. */
module ClusterPreemption {
  import opened Pipeline

  /** A queued task. Beyond the scheduler's own fields, `entry` is the time for which the
      slack was computed, `spent` the processor time the packet has received so far and
      `over` the part of it by which slices overran. */
  datatype QueuedTask = QueuedTask(
    slack: nat,
    deadline: nat,
    priority: Priority,
    packet: Packet,
    estimate: nat,
    entry: nat,
    spent: nat,
    over: nat)

  function Fresh(p: Priority, x: Packet, now: nat): QueuedTask {
    QueuedTask(Monus(Deadline(x), now + ProcessingNs(x.size)), Deadline(x), p, x, ProcessingNs(x.size), now, 0, 0)
  }

  /** What the slack means: at the time of entry the task could wait that long and still be
      processed by its deadline, or not at all. */
  predicate SlackIsTrue(t: QueuedTask) {
    && t.deadline == t.packet.timestamp + t.packet.budget
    && if t.entry + ProcessingNs(t.packet.size) <= t.deadline
       then t.entry + t.slack + ProcessingNs(t.packet.size) == t.deadline
       else t.slack == 0
  }

  /** Time spent plus the stored estimate is the original estimate, up to overruns, and the
      slack is what it was at entry. */
  predicate Balanced(t: QueuedTask) {
    t.spent + t.estimate == ProcessingNs(t.packet.size) + t.over && SlackIsTrue(t)
  }

  /** The latest time at which processing can start and still meet the deadline. */
  function LatestStart(t: QueuedTask): int {
    t.packet.timestamp + t.packet.budget - ProcessingNs(t.packet.size)
  }

  ghost predicate AllBalanced(heap: seq<QueuedTask>) {
    forall t :: t in heap ==> Balanced(t)
  }

  function PacketsOf(tasks: seq<QueuedTask>): multiset<Packet> {
    if tasks == [] then multiset{} else PacketsOf(tasks[..|tasks| - 1]) + multiset{tasks[|tasks| - 1].packet}
  }

  predicate LeastSlack(heap: seq<QueuedTask>, i: nat) {
    i < |heap| && forall j :: 0 <= j < |heap| ==> heap[i].slack <= heap[j].slack
  }

  /** A task of least slack must start, relative to its entry, no later than any other; a
      task that is late already counts as due at once. */
  lemma LeastSlackIsMostUrgent(heap: seq<QueuedTask>, i: nat, j: nat)
    requires LeastSlack(heap, i) && j < |heap| && AllBalanced(heap)
    ensures LatestStart(heap[i]) - heap[i].entry <= Max(LatestStart(heap[j]) - heap[j].entry, 0)
    ensures heap[i].entry == heap[j].entry && LatestStart(heap[j]) > heap[j].entry ==>
              LatestStart(heap[i]) <= LatestStart(heap[j])
  {
    assert heap[i] in heap && heap[j] in heap;
    assert SlackIsTrue(heap[i]) && SlackIsTrue(heap[j]);
  }

  // ------------------------------------------------------------------
  // What preemptions do to the tasks
  // ------------------------------------------------------------------

  /** What is being processed, and what waits in the worker's heap. */
  datatype Running = Running(current: QueuedTask, heap: seq<QueuedTask>)

  /** A packet of class `priority` takes over at time `time`, after the interrupted slice
      has run for `elapsed`. */
  datatype Preemption = Preemption(priority: Priority, packet: Packet, time: nat, elapsed: nat)

  function Interrupted(t: QueuedTask, elapsed: nat): QueuedTask {
    t.(estimate := Monus(t.estimate, elapsed), spent := t.spent + elapsed, over := t.over + Monus(elapsed, t.estimate))
  }

  function Preempted(r: Running, e: Preemption): Running {
    Running(Fresh(e.priority, e.packet, e.time), r.heap + [Interrupted(r.current, e.elapsed)])
  }

  function Replay(r: Running, es: seq<Preemption>): Running {
    if es == [] then r else Preempted(Replay(r, es[..|es| - 1]), es[|es| - 1])
  }

  lemma InterruptedStaysBalanced(t: QueuedTask, elapsed: nat)
    requires Balanced(t)
    ensures Balanced(Interrupted(t, elapsed))
    ensures elapsed <= t.estimate ==> Interrupted(t, elapsed).over == t.over
  {
  }

  /** Across any preemptions, nothing is lost or duplicated and no packet's account is
      ever short: what it has received plus what is stored covers its original estimate. */
  lemma {:induction false} PreemptionKeepsAccounts(r: Running, es: seq<Preemption>)
    requires Balanced(r.current) && AllBalanced(r.heap)
    ensures var s := Replay(r, es);
            && Balanced(s.current) && AllBalanced(s.heap)
            && |s.heap| == |r.heap| + |es|
            && PacketsOf(s.heap) + multiset{s.current.packet}
               == PacketsOf(r.heap) + multiset{r.current.packet} + multiset(Arrived(es))
  {
    if es == [] {
    } else {
      var n := |es| - 1;
      PreemptionKeepsAccounts(r, es[..n]);
      var s := Replay(r, es[..n]);
      InterruptedStaysBalanced(s.current, es[n].elapsed);
      PacketsOfAppend(s.heap, Interrupted(s.current, es[n].elapsed));
    }
  }

  function Arrived(es: seq<Preemption>): seq<Packet> {
    if es == [] then [] else Arrived(es[..|es| - 1]) + [es[|es| - 1].packet]
  }

  lemma PacketsOfAppend(tasks: seq<QueuedTask>, t: QueuedTask)
    ensures PacketsOf(tasks + [t]) == PacketsOf(tasks) + multiset{t.packet}
  {
    assert (tasks + [t])[..|tasks|] == tasks;
  }

  /** Without overrunning slices the account is exact. */
  ghost predicate NoOverrun(r: Running, es: seq<Preemption>) {
    forall k :: 0 <= k < |es| ==> es[k].elapsed <= Replay(r, es[..k]).current.estimate
  }

  lemma {:induction false} ExactWithoutOverruns(r: Running, es: seq<Preemption>)
    requires Balanced(r.current) && AllBalanced(r.heap) && NoOverrun(r, es)
    requires r.current.over == 0 && forall t :: t in r.heap ==> t.over == 0
    ensures var s := Replay(r, es);
            && s.current.spent + s.current.estimate == ProcessingNs(s.current.packet.size)
            && forall t :: t in s.heap ==> t.spent + t.estimate == ProcessingNs(t.packet.size)
  {
    OverStaysZero(r, es);
    PreemptionKeepsAccounts(r, es);
  }

  lemma NoOverrunBefore(r: Running, es: seq<Preemption>)
    requires es != [] && NoOverrun(r, es)
    ensures var n := |es| - 1; NoOverrun(r, es[..n]) && es[n].elapsed <= Replay(r, es[..n]).current.estimate
  {
    var n := |es| - 1;
    forall k | 0 <= k < n ensures es[..n][k].elapsed <= Replay(r, es[..n][..k]).current.estimate {
      assert es[..n][..k] == es[..k] && es[..n][k] == es[k];
    }
  }

  lemma {:induction false} OverStaysZero(r: Running, es: seq<Preemption>)
    requires NoOverrun(r, es) && r.current.over == 0 && forall t :: t in r.heap ==> t.over == 0
    ensures var s := Replay(r, es); s.current.over == 0 && forall t :: t in s.heap ==> t.over == 0
  {
    if es == [] {
    } else {
      NoOverrunBefore(r, es);
      OverStaysZero(r, es[..|es| - 1]);
    }
  }

  // ------------------------------------------------------------------
  // The processing loop, turn by turn
  // ------------------------------------------------------------------

  /** Latency budget left to a packet at time `now`. */
  function BudgetLeft(x: Packet, now: nat): nat {
    Monus(x.budget, Monus(now, x.timestamp))
  }

  /** Class q may interrupt a processing that began with a task of class p. */
  predicate MayInterrupt(p: Priority, q: Priority) {
    (p == Medium && q == High) || (p == Low && (q == High || q == Medium))
  }

  const CHECK_INTERVAL: nat := 10_000

  /** The loop between two turns: the slice that began at `start`, the last check for
      preemption, and the last reading of the clock. */
  datatype Loop = Loop(run: Running, start: nat, lastCheck: nat, clock: nat)

  /** What a turn does after its two readings: no check is due, the budget refuses, no
      packet waits, or a packet takes over. */
  datatype Look =
    | NotDue
    | Refused(looked: nat)
    | Missed(looked: nat, polled: nat)
    | Taken(looked: nat, polled: nat, priority: Priority, packet: Packet, time: nat, stopped: nat, resumed: nat)

  /** `tick` is the loop guard's reading, `now` the one in the body. */
  datatype Turn = Turn(tick: nat, now: nat, look: Look)

  /** Two consecutive readings of a strictly increasing clock. */
  predicate Reads(before: nat, after: nat, gap: nat) {
    before < after <= before + gap
  }

  /** `receives` receives in a row take as many steps of the clock. */
  predicate Receives(receives: nat, before: nat, after: nat, gap: nat) {
    before + receives <= after <= before + receives * gap
  }

  predicate Consulted(first: QueuedTask) {
    first.priority == Medium || first.priority == Low
  }

  predicate Due(first: QueuedTask, l: Loop, now: nat) {
    Consulted(first) && now >= l.lastCheck + CHECK_INTERVAL
  }

  /** The first task's budget covers 1.2 times what is left of the running slice. */
  predicate Affordable(first: QueuedTask, l: Loop, now: nat, looked: nat) {
    5 * BudgetLeft(first.packet, now) > 6 * Monus(l.run.current.estimate, Monus(looked, l.start))
  }

  /** A turn the code can take: the slice is not over at the guard, and every reading
      follows the one before it. */
  predicate TurnOk(first: QueuedTask, l: Loop, t: Turn, gap: nat) {
    && Reads(l.clock, t.tick, gap) && t.tick < l.start + l.run.current.estimate && Reads(t.tick, t.now, gap)
    && match t.look
       case NotDue => !Due(first, l, t.now)
       case Refused(looked) => Due(first, l, t.now) && Reads(t.now, looked, gap) && !Affordable(first, l, t.now, looked)
       case Missed(looked, polled) =>
         && Due(first, l, t.now) && Reads(t.now, looked, gap) && Affordable(first, l, t.now, looked)
         && Receives(if first.priority == Low then 2 else 1, looked, polled, gap)
       case Taken(looked, polled, q, _, time, stopped, resumed) =>
         && Due(first, l, t.now) && Reads(t.now, looked, gap) && Affordable(first, l, t.now, looked)
         && MayInterrupt(first.priority, q) && Receives(if q == High then 1 else 2, looked, polled, gap)
         && Reads(polled, time, gap) && Reads(time, stopped, gap) && Reads(stopped, resumed, gap)
  }

  function PreemptionOf(l: Loop, t: Look): Preemption
    requires t.Taken?
  {
    Preemption(t.priority, t.packet, t.time, Monus(t.stopped, l.start))
  }

  function TurnDone(l: Loop, t: Turn): Loop {
    match t.look
    case NotDue => l.(clock := t.now)
    case Refused(looked) => l.(lastCheck := t.now, clock := looked)
    case Missed(_, polled) => l.(lastCheck := t.now, clock := polled)
    case Taken(_, _, _, _, _, _, resumed) =>
      Loop(Preempted(l.run, PreemptionOf(l, t.look)), resumed, t.now, resumed)
  }

  function LoopAfter(l: Loop, ts: seq<Turn>): Loop {
    if ts == [] then l else TurnDone(LoopAfter(l, ts[..|ts| - 1]), ts[|ts| - 1])
  }

  /** The runs of the loop while the processing of `first` lasts: the class and budget
      consulted are those of `first` throughout. */
  ghost predicate Turns(first: QueuedTask, l: Loop, ts: seq<Turn>, gap: nat) {
    ts == [] ||
    var n := |ts| - 1;
    Turns(first, l, ts[..n], gap) && TurnOk(first, LoopAfter(l, ts[..n]), ts[n], gap)
  }

  function Begin(first: QueuedTask, heap: seq<QueuedTask>, from: nat): Loop {
    Loop(Running(first, heap), from, from, from)
  }

  /** The preemptions among the turns. */
  function Interruptions(l: Loop, ts: seq<Turn>): seq<Preemption> {
    if ts == [] then []
    else
      var n := |ts| - 1;
      Interruptions(l, ts[..n])
      + if ts[n].look.Taken? then [PreemptionOf(LoopAfter(l, ts[..n]), ts[n].look)] else []
  }

  lemma {:induction false} TurnsReplay(l: Loop, ts: seq<Turn>)
    ensures LoopAfter(l, ts).run == Replay(l.run, Interruptions(l, ts))
  {
    if ts == [] {
    } else {
      var n := |ts| - 1;
      TurnsReplay(l, ts[..n]);
      if ts[n].look.Taken? {
        ReplayAppend(l.run, Interruptions(l, ts[..n]), PreemptionOf(LoopAfter(l, ts[..n]), ts[n].look));
      } else {
        assert Interruptions(l, ts) == Interruptions(l, ts[..n]);
      }
    }
  }

  lemma ReplayAppend(r: Running, es: seq<Preemption>, e: Preemption)
    ensures Replay(r, es + [e]) == Preempted(Replay(r, es), e)
    ensures Arrived(es + [e]) == Arrived(es) + [e.packet]
  {
    assert (es + [e])[..|es|] == es;
  }

  lemma TurnsAppend(first: QueuedTask, l: Loop, ts: seq<Turn>, t: Turn, gap: nat)
    requires Turns(first, l, ts, gap) && TurnOk(first, LoopAfter(l, ts), t, gap)
    ensures Turns(first, l, ts + [t], gap) && LoopAfter(l, ts + [t]) == TurnDone(LoopAfter(l, ts), t)
    ensures Interruptions(l, ts + [t])
         == if t.look.Taken? then Interruptions(l, ts) + [PreemptionOf(LoopAfter(l, ts), t.look)]
            else Interruptions(l, ts)
  {
    assert (ts + [t])[..|ts|] == ts;
  }

  // ------------------------------------------------------------------
  // How often, and whom
  // ------------------------------------------------------------------

  /** The time of the last turn that was not too early for a check, or the start. */
  function LastCheck(from: nat, ts: seq<Turn>): nat {
    if ts == [] then from
    else
      var n := |ts| - 1;
      if ts[n].look.NotDue? then LastCheck(from, ts[..n]) else ts[n].now
  }

  lemma {:induction false} LoopKeepsLastCheck(first: QueuedTask, heap: seq<QueuedTask>, from: nat, ts: seq<Turn>)
    ensures LoopAfter(Begin(first, heap, from), ts).lastCheck == LastCheck(from, ts)
  {
    if ts == [] {
    } else {
      LoopKeepsLastCheck(first, heap, from, ts[..|ts| - 1]);
    }
  }

  /** In every run a turn looks for a preemption exactly when the processing began with a
      Medium or Low task and the last look, or the start, is 10 us ago. */
  lemma ChecksComeEveryInterval(first: QueuedTask, heap: seq<QueuedTask>, from: nat, ts: seq<Turn>, t: Turn, gap: nat)
    requires TurnOk(first, LoopAfter(Begin(first, heap, from), ts), t, gap)
    ensures !t.look.NotDue?
       <==> (first.priority == Medium || first.priority == Low) && t.now >= LastCheck(from, ts) + 10_000
  {
    LoopKeepsLastCheck(first, heap, from, ts);
  }

  /** An interruption puts the running task back with the time since its slice began taken
      off what is left of it, and starts the newcomer's slice; any other turn leaves the
      tasks and the slice alone. */
  lemma TurnMovesTasks(l: Loop, t: Turn)
    requires t.look.Taken? ==> l.start <= t.look.stopped
    ensures !t.look.Taken? ==> TurnDone(l, t).run == l.run && TurnDone(l, t).start == l.start
    ensures t.look.Taken? ==>
              var was, ran, m := l.run.current, t.look.stopped - l.start, TurnDone(l, t);
              var back := was.(estimate := Max(was.estimate - ran, 0), spent := was.spent + ran,
                               over := was.over + Max(ran - was.estimate, 0));
              && m.run == Running(Fresh(t.look.priority, t.look.packet, t.look.time), l.run.heap + [back])
              && m.start == t.look.resumed
  {
  }

  /** An interrupted slice has overrun its estimate by less than six clock gaps. */
  lemma OverrunIsSmall(first: QueuedTask, l: Loop, t: Turn, gap: nat)
    requires TurnOk(first, l, t, gap) && t.look.Taken?
    ensures PreemptionOf(l, t.look).elapsed < l.run.current.estimate + 6 * gap
  {
  }

  /** Preemptions lie a check interval apart and happen before the first task's deadline,
      so they are few. */
  lemma {:induction false} PreemptionsAreBounded(first: QueuedTask, heap: seq<QueuedTask>, from: nat, ts: seq<Turn>,
                                                 gap: nat)
    requires Turns(first, Begin(first, heap, from), ts, gap) && first.packet.timestamp <= from
    ensures var n := |Interruptions(Begin(first, heap, from), ts)|;
            && from + n * CHECK_INTERVAL <= LoopAfter(Begin(first, heap, from), ts).lastCheck
            && (n > 0 ==> from + n * CHECK_INTERVAL < Deadline(first.packet))
  {
    if ts == [] {
    } else {
      PreemptionsAreBounded(first, heap, from, ts[..|ts| - 1], gap);
    }
  }

  /** Up to the first interruption the first task runs its first slice; an interruption
      needs a Medium or Low first task whose first slice can still be going on when a
      check is due. */
  lemma {:induction false} FirstInterruption(first: QueuedTask, heap: seq<QueuedTask>, from: nat, ts: seq<Turn>,
                                             gap: nat)
    requires Turns(first, Begin(first, heap, from), ts, gap)
    ensures var b := Begin(first, heap, from);
            var l := LoopAfter(b, ts);
            if Interruptions(b, ts) == [] then
              l.run.current == first && l.start == from && l.lastCheck >= from && l.clock >= from
            else
              Consulted(first) && CheckReachable(first.estimate, gap) && l.lastCheck >= from + CHECK_INTERVAL
  {
    if ts == [] {
    } else {
      FirstInterruption(first, heap, from, ts[..|ts| - 1], gap);
    }
  }

  /** A slice of this length can reach a check: its last guard reading comes at most one
      step of the clock before the check is due. */
  predicate CheckReachable(estimate: nat, gap: nat) {
    estimate >= 2 && estimate + gap > CHECK_INTERVAL
  }

  /** A processing that began with a High or best-effort task is never interrupted. */
  lemma HighStartsUninterrupted(first: QueuedTask, heap: seq<QueuedTask>, from: nat, ts: seq<Turn>, gap: nat)
    requires Turns(first, Begin(first, heap, from), ts, gap) && !Consulted(first)
    ensures Interruptions(Begin(first, heap, from), ts) == []
  {
    FirstInterruption(first, heap, from, ts, gap);
  }

  /** The running task is the first one, or came in by an interruption. */
  lemma {:induction false} RunningTaskCameIn(first: QueuedTask, heap: seq<QueuedTask>, from: nat, ts: seq<Turn>)
    ensures var b := Begin(first, heap, from);
            var es := Interruptions(b, ts);
            LoopAfter(b, ts).run.current
            == if es == [] then first else var e := es[|es| - 1]; Fresh(e.priority, e.packet, e.time)
  {
    TurnsReplay(Begin(first, heap, from), ts);
  }

  /** A High task that is interrupted came in by an interruption itself: the class
      consulted is still the first task's. */
  lemma InterruptedHighCameInMidway(first: QueuedTask, heap: seq<QueuedTask>, from: nat, ts: seq<Turn>, t: Turn,
                                    gap: nat)
    requires var l := LoopAfter(Begin(first, heap, from), ts);
             TurnOk(first, l, t, gap) && t.look.Taken? && l.run.current.priority == High
    ensures var es := Interruptions(Begin(first, heap, from), ts);
            && first.priority != High && es != []
            && var e := es[|es| - 1];
               e.priority == High
               && LoopAfter(Begin(first, heap, from), ts).run.current == Fresh(High, e.packet, e.time)
  {
    RunningTaskCameIn(first, heap, from, ts);
  }

  // ------------------------------------------------------------------
  // When a High task can be interrupted
  // ------------------------------------------------------------------

  /** Some run of the loop interrupts a High task. */
  ghost predicate HighCanBeInterrupted(first: QueuedTask, heap: seq<QueuedTask>, from: nat, gap: nat) {
    exists ts, t :: InterruptsHigh(first, heap, from, gap, ts, t)
  }

  ghost predicate InterruptsHigh(first: QueuedTask, heap: seq<QueuedTask>, from: nat, gap: nat, ts: seq<Turn>,
                                 t: Turn) {
    var l := LoopAfter(Begin(first, heap, from), ts);
    && Turns(first, Begin(first, heap, from), ts, gap)
    && TurnOk(first, l, t, gap) && t.look.Taken? && l.run.current.priority == High
  }

  /** Whatever the budget: only after a Medium or Low start, only if the first slice can
      reach a check, and only if budget remains at the second check. */
  lemma InterruptingHighNeeds(first: QueuedTask, heap: seq<QueuedTask>, from: nat, gap: nat)
    requires HighCanBeInterrupted(first, heap, from, gap)
    ensures Consulted(first) && CheckReachable(first.estimate, gap)
    ensures BudgetLeft(first.packet, from + 2 * CHECK_INTERVAL) > 0
  {
    var ts, t :| InterruptsHigh(first, heap, from, gap, ts, t);
    FirstInterruption(first, heap, from, ts, gap);
  }

  // With no bound on the clock gaps

  /** The earliest reading at which the first check can find the budget sufficient. */
  function EarliestTake(first: QueuedTask, from: nat): nat {
    var missing := Monus(6 * first.estimate, 5 * BudgetLeft(first.packet, from + CHECK_INTERVAL));
    from + Max(CHECK_INTERVAL + 1, missing / 6 + 1)
  }

  /** The earliest time of a check that can interrupt a High task: one interval after the
      first check, and once the slice of that task has begun. */
  function EarliestSecondCheck(first: QueuedTask, from: nat): nat {
    Max(from + 2 * CHECK_INTERVAL, EarliestTake(first, from) + 6)
  }

  lemma AffordableFrom(estimate: nat, left: nat, passed: nat)
    ensures 5 * left > 6 * Monus(estimate, passed) 
        <==> left > 0 && passed >= (if 6 * estimate < 5 * left then 0 else Monus(6 * estimate, 5 * left) / 6 + 1)
  {
  }

  /** After an interruption the clock has passed the earliest take. */
  lemma {:induction false} InterruptionsComeLater(first: QueuedTask, heap: seq<QueuedTask>, from: nat, ts: seq<Turn>,
                                                  gap: nat)
    requires Turns(first, Begin(first, heap, from), ts, gap)
    requires Interruptions(Begin(first, heap, from), ts) != []
    ensures var l := LoopAfter(Begin(first, heap, from), ts);
            l.clock >= l.start >= EarliestTake(first, from) + 4
  {
    var n, b := |ts| - 1, Begin(first, heap, from);
    var l := LoopAfter(b, ts[..n]);
    FirstInterruption(first, heap, from, ts[..n], gap);
    if Interruptions(b, ts[..n]) == [] {
      FirstTakeIsLate(first, l, ts[n], from, gap);
    } else {
      InterruptionsComeLater(first, heap, from, ts[..n], gap);
    }
  }

  lemma FirstTakeIsLate(first: QueuedTask, l: Loop, t: Turn, from: nat, gap: nat)
    requires TurnOk(first, l, t, gap) && t.look.Taken?
    requires l.run.current == first && l.start == from && l.lastCheck >= from
    ensures TurnDone(l, t).clock >= TurnDone(l, t).start >= EarliestTake(first, from) + 4
  {
    AffordableFrom(first.estimate, BudgetLeft(first.packet, t.now), t.look.looked - from);
    assert BudgetLeft(first.packet, t.now) <= BudgetLeft(first.packet, from + CHECK_INTERVAL);
  }

  /** Some run, with whatever steps of the clock, interrupts a High task exactly if the
      processing began with a Medium or Low task that has at least 2 ns left to run and
      whose budget lasts beyond the earliest possible second check. */
  lemma HighIsInterruptedExactlyWhen(first: QueuedTask, heap: seq<QueuedTask>, from: nat)
    ensures (exists gap :: HighCanBeInterrupted(first, heap, from, gap))
        <==> Consulted(first) && first.estimate >= 2 && BudgetLeft(first.packet, EarliestSecondCheck(first, from)) > 0
  {
    if gap :| HighCanBeInterrupted(first, heap, from, gap) {
      var ts, t :| InterruptsHigh(first, heap, from, gap, ts, t);
      FirstInterruption(first, heap, from, ts, gap);
      InterruptedLate(first, heap, from, ts, t, gap);
    }
    if Consulted(first) && first.estimate >= 2 && BudgetLeft(first.packet, EarliestSecondCheck(first, from)) > 0 {
      TwoTurnsInterruptHigh(first, heap, from);
    }
  }

  lemma InterruptedLate(first: QueuedTask, heap: seq<QueuedTask>, from: nat, ts: seq<Turn>, t: Turn, gap: nat)
    requires InterruptsHigh(first, heap, from, gap, ts, t)
    ensures Consulted(first) && first.estimate >= 2 && BudgetLeft(first.packet, EarliestSecondCheck(first, from)) > 0
  {
    FirstInterruption(first, heap, from, ts, gap);
    InterruptionsComeLater(first, heap, from, ts, gap);
  }

  /** The first of two turns brings in a High packet at the earliest reading possible. */
  lemma FirstOfTwoTurns(first: QueuedTask, heap: seq<QueuedTask>, from: nat, gap: nat, x: Packet) returns (t: Turn)
    requires Consulted(first) && first.estimate >= 2 && BudgetLeft(first.packet, from + CHECK_INTERVAL) > 0
    requires gap >= first.estimate + CHECK_INTERVAL
    ensures Turns(first, Begin(first, heap, from), [t], gap)
    ensures var l, take := LoopAfter(Begin(first, heap, from), [t]), EarliestTake(first, from);
            && l.run.current == Fresh(High, x, take + 2)
            && l.start == l.clock == take + 4 && l.lastCheck == from + CHECK_INTERVAL
  {
    var b, take := Begin(first, heap, from), EarliestTake(first, from);
    t := Turn(from + 1, from + CHECK_INTERVAL, Taken(take, take + 1, High, x, take + 2, take + 3, take + 4));
    AffordableFrom(first.estimate, BudgetLeft(first.packet, from + CHECK_INTERVAL), take - from);
    assert TurnOk(first, b, t, gap);
    TurnsAppend(first, b, [], t, gap);
    assert [] + [t] == [t] && LoopAfter(b, []) == b;
  }

  /** The second interrupts it. */
  lemma TwoTurnsInterruptHigh(first: QueuedTask, heap: seq<QueuedTask>, from: nat)
    requires Consulted(first) && first.estimate >= 2 && BudgetLeft(first.packet, EarliestSecondCheck(first, from)) > 0
    ensures exists gap :: HighCanBeInterrupted(first, heap, from, gap)
  {
    var gap := first.estimate + 100_000;
    var x := Packet(0, High, from, 1_000_000, 64);
    var take, second := EarliestTake(first, from), EarliestSecondCheck(first, from);
    assert BudgetLeft(first.packet, from + CHECK_INTERVAL) >= BudgetLeft(first.packet, second);
    var t0 := FirstOfTwoTurns(first, heap, from, gap, x);
    var l := LoopAfter(Begin(first, heap, from), [t0]);
    var looked := second + 60_000;
    var t1 := Turn(take + 5, second, Taken(looked, looked + 1, High, x, looked + 2, looked + 3, looked + 4));
    assert Monus(l.run.current.estimate, looked - l.start) == 0;
    assert TurnOk(first, l, t1, gap);
    assert InterruptsHigh(first, heap, from, gap, [t0], t1);
    assert HighCanBeInterrupted(first, heap, from, gap);
  }

  // With a given bound on the clock gaps

  /** With budget for both checks in hand, some run with such gaps interrupts a High task
      exactly if the processing began with a Medium or Low task whose first slice can reach
      a check. */
  lemma HighIsInterruptedForGapExactlyWhen(first: QueuedTask, heap: seq<QueuedTask>, from: nat, gap: nat)
    requires gap > 0
    requires 5 * BudgetLeft(first.packet, from + CHECK_INTERVAL) > 6 * Monus(first.estimate, CHECK_INTERVAL + 1)
    requires 5 * BudgetLeft(first.packet, from + 2 * CHECK_INTERVAL + 1) > 6 * 40_003
    ensures HighCanBeInterrupted(first, heap, from, gap) <==> Consulted(first) && CheckReachable(first.estimate, gap)
  {
    if HighCanBeInterrupted(first, heap, from, gap) {
      InterruptingHighNeeds(first, heap, from, gap);
    }
    if Consulted(first) && CheckReachable(first.estimate, gap) {
      var x := Packet(0, High, from, 1_000_000, 64);
      var ts := HighComesIn(first, heap, from, gap, x);
      SecondHighComesIn(first, heap, from, gap, x, ts);
    }
  }

  /** The turns lead the loop from l to m. */
  ghost predicate Leads(first: QueuedTask, l: Loop, ts: seq<Turn>, m: Loop, gap: nat) {
    Turns(first, l, ts, gap) && LoopAfter(l, ts) == m
  }

  /** A turn of two unit steps in which no check is due. */
  lemma UnitTurn(first: QueuedTask, l: Loop, ts: seq<Turn>, m: Loop, gap: nat)
    requires gap > 0 && Leads(first, l, ts, m, gap)
    requires m.clock + 2 < m.lastCheck + CHECK_INTERVAL && m.clock + 2 <= m.start + m.run.current.estimate
    ensures Leads(first, l, ts + [Turn(m.clock + 1, m.clock + 2, NotDue)], m.(clock := m.clock + 2), gap)
  {
    TurnsAppend(first, l, ts, Turn(m.clock + 1, m.clock + 2, NotDue), gap);
  }

  /** n of them in a row. */
  lemma {:induction false} UnitTurns(first: QueuedTask, l: Loop, ts: seq<Turn>, m: Loop, n: nat, gap: nat)
      returns (all: seq<Turn>)
    requires gap > 0 && Leads(first, l, ts, m, gap)
    requires m.clock + 2 * n < m.lastCheck + CHECK_INTERVAL && m.clock + 2 * n <= m.start + m.run.current.estimate
    ensures Leads(first, l, all, m.(clock := m.clock + 2 * n), gap)
  {
    if n == 0 {
      all := ts;
    } else {
      var before := UnitTurns(first, l, ts, m, n - 1, gap);
      var end := m.(clock := m.clock + 2 * (n - 1));
      UnitTurn(first, l, before, end, gap);
      all := before + [Turn(end.clock + 1, end.clock + 2, NotDue)];
    }
  }

  /** Packet x takes over at the turn with readings `tick` and `now`, all later readings
      following at unit steps. */
  function TakeOver(tick: nat, now: nat, x: Packet): Turn {
    Turn(tick, now, Taken(now + 1, now + 2, High, x, now + 3, now + 4, now + 5))
  }

  /** The first check, reached within the first slice, brings in a High packet. */
  lemma HighComesIn(first: QueuedTask, heap: seq<QueuedTask>, from: nat, gap: nat, x: Packet) returns (ts: seq<Turn>)
    requires gap > 0 && Consulted(first) && CheckReachable(first.estimate, gap)
    requires 5 * BudgetLeft(first.packet, from + CHECK_INTERVAL) > 6 * Monus(first.estimate, CHECK_INTERVAL + 1)
    ensures var b := Begin(first, heap, from);
            var l := LoopAfter(b, ts);
            && Turns(first, b, ts, gap)
            && l.run.current == Fresh(High, x, from + CHECK_INTERVAL + 3)
            && l.start == l.clock == from + CHECK_INTERVAL + 5 && l.lastCheck == from + CHECK_INTERVAL
  {
    var b := Begin(first, heap, from);
    var last: nat := Min(first.estimate, CHECK_INTERVAL) - 1;
    var k: nat := (last - 1) / 2;
    var before := UnitTurns(first, b, [], b, k, gap);
    ts := HighTakesOver(first, b, before, from, last, gap, x);
  }

  lemma HighTakesOver(first: QueuedTask, b: Loop, before: seq<Turn>, from: nat, last: nat, gap: nat, x: Packet)
      returns (ts: seq<Turn>)
    requires Consulted(first) && gap > 0 && Turns(first, b, before, gap)
    requires 5 * BudgetLeft(first.packet, from + CHECK_INTERVAL) > 6 * Monus(first.estimate, CHECK_INTERVAL + 1)
    requires var l := LoopAfter(b, before);
             l.run.current == first && l.start == l.lastCheck == from && Reads(l.clock, from + last, gap)
    requires last < first.estimate && Reads(from + last, from + CHECK_INTERVAL, gap)
    ensures var l := LoopAfter(b, ts);
            && Turns(first, b, ts, gap)
            && l.run.current == Fresh(High, x, from + CHECK_INTERVAL + 3)
            && l.start == l.clock == from + CHECK_INTERVAL + 5 && l.lastCheck == from + CHECK_INTERVAL
  {
    var t := TakeOver(from + last, from + CHECK_INTERVAL, x);
    TakeOverDone(first, LoopAfter(b, before), from, last, gap, x);
    TurnsAppend(first, b, before, t, gap);
    ts := before + [t];
  }

  lemma TakeOverDone(first: QueuedTask, l: Loop, from: nat, last: nat, gap: nat, x: Packet)
    requires Consulted(first) && gap > 0
    requires 5 * BudgetLeft(first.packet, from + CHECK_INTERVAL) > 6 * Monus(first.estimate, CHECK_INTERVAL + 1)
    requires l.run.current == first && l.start == l.lastCheck == from && Reads(l.clock, from + last, gap)
    requires last < first.estimate && Reads(from + last, from + CHECK_INTERVAL, gap)
    ensures var t := TakeOver(from + last, from + CHECK_INTERVAL, x);
            && TurnOk(first, l, t, gap)
            && TurnDone(l, t).run.current == Fresh(High, x, from + CHECK_INTERVAL + 3)
            && TurnDone(l, t).start == TurnDone(l, t).clock == from + CHECK_INTERVAL + 5
            && TurnDone(l, t).lastCheck == from + CHECK_INTERVAL
  {
    assert Affordable(first, l, from + CHECK_INTERVAL, from + CHECK_INTERVAL + 1);
    assert Receives(1, from + CHECK_INTERVAL + 1, from + CHECK_INTERVAL + 2, gap);
  }

  /** A check later another High packet interrupts the first one. */
  lemma SecondHighComesIn(first: QueuedTask, heap: seq<QueuedTask>, from: nat, gap: nat, x: Packet, ts: seq<Turn>)
    requires gap > 0 && Consulted(first) && x.size <= 200
    requires 5 * BudgetLeft(first.packet, from + 2 * CHECK_INTERVAL + 1) > 6 * 40_003
    requires var l := LoopAfter(Begin(first, heap, from), ts);
             && Turns(first, Begin(first, heap, from), ts, gap)
             && l.run.current == Fresh(High, x, from + CHECK_INTERVAL + 3)
             && l.start == l.clock == from + CHECK_INTERVAL + 5 && l.lastCheck == from + CHECK_INTERVAL
    ensures HighCanBeInterrupted(first, heap, from, gap)
  {
    var b := Begin(first, heap, from);
    var n: nat := CHECK_INTERVAL / 2 - 3;
    var all := UnitTurns(first, b, ts, LoopAfter(b, ts), n, gap);
    var t := TakeOver(from + 2 * CHECK_INTERVAL, from + 2 * CHECK_INTERVAL + 1, x);
    assert InterruptsHigh(first, heap, from, gap, all, t);
  }
}
