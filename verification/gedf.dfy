/** Global EDF: one shared heap guarded by a mutex and a condition variable. */
module GlobalEdf {
  import opened Pipeline

  // ------------------------------------------------------------------
  // Keys: real and virtual deadlines
  // ------------------------------------------------------------------

  /** The plain scheduler orders by deadline, the other one by virtual deadline. */
  datatype Discipline = RealDeadlines | VirtualDeadlines

  /** Scaling factors in hundredths. */
  const SCALING := Table(1, 80, 90, 100)

  function Clamp(x: nat, lo: nat, hi: nat): nat {
    Max(lo, Min(x, hi))
  }

  /** The latency budget scaled by its clamped factor, rounded to the nanosecond. */
  function Scaled(p: Priority, budget: nat): nat {
    (budget * Clamp(SCALING.Get(p), 10, 100) + 50) / 100
  }

  function Key(d: Discipline, x: Packet): nat {
    match d
    case RealDeadlines => Deadline(x)
    case VirtualDeadlines => x.timestamp + Scaled(x.priority, x.budget)
  }

  /** The key a packet calls for: its deadline, or the end of a tenth, eight tenths, nine
      tenths or all of its budget, by class and to the nearest nanosecond (half up). */
  ghost predicate RightKey(d: Discipline, x: Packet, key: nat) {
    if d == RealDeadlines then key == x.timestamp + x.budget
    else Table(10, 80, 90, 100).Get(x.priority) * x.budget - 50
         < 100 * (key - x.timestamp)
         <= Table(10, 80, 90, 100).Get(x.priority) * x.budget + 50
  }

  /** Every task carries its packet's key, and no other key is right. */
  lemma TasksCarryTheirKey(d: Discipline, x: Packet, key: nat)
    ensures TaskOf(d, x).packet == x && (RightKey(d, x, key) <==> key == TaskOf(d, x).key)
  {
    var f, k := Table(10, 80, 90, 100).Get(x.priority), TaskOf(d, x).key;
    assert d == VirtualDeadlines ==> k - x.timestamp == (x.budget * f + 50) / 100;
  }

  /** A key never precedes the packet's own timestamp nor follows its deadline. */
  lemma KeyWithinBudget(d: Discipline, x: Packet, key: nat)
    requires RightKey(d, x, key)
    ensures x.timestamp <= key <= Deadline(x)
  {
  }

  /** The clamp lifts the High factor from 0.01 to 0.1. */
  lemma ScaledBudgets(budget: nat)
    requires budget % 10 == 0
    ensures Scaled(High, budget) == budget / 10 && Scaled(Medium, budget) == 8 * (budget / 10)
    ensures Scaled(Low, budget) == 9 * (budget / 10) && Scaled(BestEffort, budget) == budget
  {
  }

  datatype Task = Task(key: nat, packet: Packet)

  function TaskOf(d: Discipline, x: Packet): Task {
    Task(Key(d, x), x)
  }

  predicate Earliest(heap: seq<Task>, i: nat) {
    i < |heap| && forall j :: 0 <= j < |heap| ==> heap[i].key <= heap[j].key
  }

  // ------------------------------------------------------------------
  // The monitor as a state machine
  // ------------------------------------------------------------------

  /** Where a worker thread is. `Found` and `Committed` hold the mutex: the heap was found
      empty, and the running flag was then seen set. */
  datatype Worker = Busy | Ready | Found | Committed | Asleep | Gone

  /** Where the dispatcher is: about to receive, holding a received task, about to
      notify_one after a push, past its loop and about to notify_all, or finished. */
  datatype Dispatcher = Receiving | Carrying(task: Task) | Owing | Leaving | Finished

  /** `arrived`, `pushed` and `popped` are histories. */
  datatype State = State(
    now: nat,
    inputs: Table<seq<Packet>>,
    arrived: seq<Packet>,
    heap: seq<Task>,
    workers: seq<Worker>,
    dispatcher: Dispatcher,
    running: bool,
    pushed: seq<Task>,
    popped: seq<Task>)

  /** Ingress stamps a packet with the clock when it enters its channel. */
  datatype Event =
    | Tick(step: nat)
    | Arrive(priority: Priority, id: nat, budget: nat, size: nat)
    | Receive(from: Priority)
    | Push
    | NotifyOne(target: Option<nat>)
    | Leave
    | NotifyAll
    | Shutdown
    | Call(worker: nat)
    | Lock(worker: nat, index: nat)
    | CheckRunning(worker: nat)
    | Wait(worker: nat)
    | SpuriousWakeup(worker: nat)

  ghost predicate Start(s: State) {
    && s.inputs == Uniform([]) && s.arrived == [] && s.heap == [] && s.pushed == [] && s.popped == []
    && s.dispatcher == Receiving && s.running
    && forall w :: 0 <= w < |s.workers| ==> s.workers[w] == Busy
  }

  predicate Holds(w: Worker) {
    w == Found || w == Committed
  }

  ghost predicate LockFree(workers: seq<Worker>) {
    forall w :: 0 <= w < |workers| ==> !Holds(workers[w])
  }

  ghost predicate At(s: State, w: nat, k: Worker) {
    w < |s.workers| && s.workers[w] == k
  }

  function Woken(workers: seq<Worker>): seq<Worker> {
    seq(|workers|, w requires 0 <= w < |workers| => if workers[w] == Asleep then Ready else workers[w])
  }

  ghost predicate Enabled(s: State, e: Event) {
    match e
    case Tick(_) => true
    case Arrive(_, _, _, _) => true
    case Receive(p) => s.dispatcher == Receiving && s.inputs.Get(p) != []
    case Push => s.dispatcher.Carrying? && LockFree(s.workers)
    case NotifyOne(None) => s.dispatcher == Owing && forall w :: 0 <= w < |s.workers| ==> s.workers[w] != Asleep
    case NotifyOne(Some(w)) => s.dispatcher == Owing && At(s, w, Asleep)
    case Leave => s.dispatcher == Receiving && !s.running
    case NotifyAll => s.dispatcher == Leaving
    case Shutdown => true
    case Call(w) => At(s, w, Busy)
    case Lock(w, i) => At(s, w, Ready) && LockFree(s.workers) && (s.heap != [] ==> Earliest(s.heap, i))
    case CheckRunning(w) => At(s, w, Found)
    case Wait(w) => At(s, w, Committed)
    case SpuriousWakeup(w) => At(s, w, Asleep)
  }

  ghost function Next(d: Discipline, s: State, e: Event): State
    requires Enabled(s, e)
  {
    match e
    case Tick(step) => s.(now := s.now + step)
    case Arrive(p, id, budget, size) =>
      var x := Packet(id, p, s.now, budget, size);
      s.(inputs := s.inputs.Set(p, s.inputs.Get(p) + [x]), arrived := s.arrived + [x])
    case Receive(p) =>
      var queue := s.inputs.Get(p);
      s.(inputs := s.inputs.Set(p, queue[1..]), dispatcher := Carrying(TaskOf(d, queue[0])))
    case Push =>
      var task := s.dispatcher.task;
      s.(heap := s.heap + [task], pushed := s.pushed + [task], dispatcher := Owing)
    case NotifyOne(None) => s.(dispatcher := Receiving)
    case NotifyOne(Some(w)) => s.(dispatcher := Receiving, workers := s.workers[w := Ready])
    case Leave => s.(dispatcher := Leaving)
    case NotifyAll => s.(dispatcher := Finished, workers := Woken(s.workers))
    case Shutdown => s.(running := false)
    case Call(w) => s.(workers := s.workers[w := Ready])
    case Lock(w, i) =>
      if s.heap == [] then s.(workers := s.workers[w := Found])
      else s.(heap := Without(s.heap, i), popped := s.popped + [s.heap[i]], workers := s.workers[w := Busy])
    case CheckRunning(w) => s.(workers := s.workers[w := if s.running then Committed else Gone])
    case Wait(w) => s.(workers := s.workers[w := Asleep])
    case SpuriousWakeup(w) => s.(workers := s.workers[w := Ready])
  }

  ghost predicate Possible(d: Discipline, s: State, es: seq<Event>)
    decreases |es|
  {
    es == [] || (Enabled(s, es[0]) && Possible(d, Next(d, s, es[0]), es[1..]))
  }

  ghost function After(d: Discipline, s: State, es: seq<Event>): State
    requires Possible(d, s, es)
    decreases |es|
  {
    if es == [] then s else After(d, Next(d, s, es[0]), es[1..])
  }

  // ------------------------------------------------------------------
  // No task is stranded
  // ------------------------------------------------------------------

  function Number(workers: seq<Worker>, k: Worker): nat {
    if workers == [] then 0
    else Number(workers[..|workers| - 1], k) + if workers[|workers| - 1] == k then 1 else 0
  }

  lemma {:induction false} NumberUpdate(workers: seq<Worker>, w: nat, to: Worker, k: Worker)
    requires w < |workers|
    ensures Number(workers[w := to], k)
            == Number(workers, k) - (if workers[w] == k then 1 else 0) + if to == k then 1 else 0
  {
    var n := |workers| - 1;
    if w == n {
      assert workers[w := to][..n] == workers[..n];
    } else {
      NumberUpdate(workers[..n], w, to, k);
      assert workers[w := to][..n] == workers[..n][w := to];
    }
  }

  lemma {:induction false} NumberPositive(workers: seq<Worker>, k: Worker)
    ensures Number(workers, k) > 0 <==> exists w :: 0 <= w < |workers| && workers[w] == k
  {
    if workers == [] {
    } else {
      var n := |workers| - 1;
      NumberPositive(workers[..n], k);
      if Number(workers[..n], k) > 0 {
        var w :| 0 <= w < n && workers[..n][w] == k;
        assert workers[w] == k;
      }
      if w :| 0 <= w < n && workers[w] == k {
        assert workers[..n][w] == k;
      }
    }
  }

  function Owed(d: Dispatcher): nat {
    if d == Owing then 1 else 0
  }

  ghost predicate SomeAsleep(workers: seq<Worker>) {
    exists w :: 0 <= w < |workers| && workers[w] == Asleep
  }

  /** At most one worker holds the mutex between steps, and only over an empty heap. */
  ghost predicate Exclusive(heap: seq<Task>, workers: seq<Worker>) {
    && (forall v, w :: 0 <= v < w < |workers| ==> !(Holds(workers[v]) && Holds(workers[w])))
    && (LockFree(workers) || heap == [])
  }

  /** A worker sleeps only while awakened workers and the owed notification cover every
      queued task. */
  ghost predicate Covered(heap: seq<Task>, workers: seq<Worker>, d: Dispatcher) {
    SomeAsleep(workers) ==> |heap| <= Number(workers, Ready) + Owed(d)
  }

  ghost predicate Conserved(s: State) {
    multiset(s.pushed) == multiset(s.heap) + multiset(s.popped)
  }

  ghost predicate StoppedLast(workers: seq<Worker>, d: Dispatcher, running: bool) {
    && (forall w :: 0 <= w < |workers| && workers[w] == Gone ==> !running)
    && (d == Leaving || d == Finished ==> !running)
  }

  ghost predicate Inv(s: State) {
    && Exclusive(s.heap, s.workers)
    && Covered(s.heap, s.workers, s.dispatcher)
    && Conserved(s)
    && StoppedLast(s.workers, s.dispatcher, s.running)
  }

  /** Worker w moves; taking the mutex needs it to be free over an empty heap. */
  lemma MoveKeepsExclusive(heap: seq<Task>, workers: seq<Worker>, w: nat, to: Worker, less: seq<Task>)
    requires Exclusive(heap, workers) && w < |workers| && (less == heap || LockFree(workers))
    requires Holds(to) ==> less == [] && (Holds(workers[w]) || LockFree(workers))
    requires !Holds(to) && !LockFree(workers) ==> less == []
    ensures Exclusive(less, workers[w := to])
  {
  }

  lemma MoveKeepsCovered(heap: seq<Task>, workers: seq<Worker>, d: Dispatcher, w: nat, to: Worker, less: seq<Task>)
    requires Covered(heap, workers, d) && w < |workers|
    requires workers[w] == Ready ==> less == [] || |less| + 1 == |heap|
    requires workers[w] != Ready ==> less == heap
    requires to == Asleep ==> less == []
    ensures Covered(less, workers[w := to], d)
  {
    NumberUpdate(workers, w, to, Ready);
  }

  lemma LockKeepsInv(d: Discipline, s: State, w: nat, i: nat)
    requires Inv(s) && Enabled(s, Lock(w, i))
    ensures Inv(Next(d, s, Lock(w, i)))
  {
    var t := Next(d, s, Lock(w, i));
    if s.heap != [] {
      WithoutItems(s.heap, i);
    }
    MoveKeepsExclusive(s.heap, s.workers, w, t.workers[w], t.heap);
    MoveKeepsCovered(s.heap, s.workers, s.dispatcher, w, t.workers[w], t.heap);
  }

  predicate WorkerEvent(e: Event) {
    e.Call? || e.Lock? || e.CheckRunning? || e.Wait? || e.SpuriousWakeup?
  }

  lemma WorkerStepKeepsInv(d: Discipline, s: State, e: Event)
    requires Inv(s) && Enabled(s, e) && WorkerEvent(e) && !e.Lock?
    ensures Inv(Next(d, s, e))
  {
    var w := e.worker;
    var to := Next(d, s, e).workers[w];
    assert e.CheckRunning? || e.Wait? ==> !LockFree(s.workers);
    MoveKeepsExclusive(s.heap, s.workers, w, to, s.heap);
    MoveKeepsCovered(s.heap, s.workers, s.dispatcher, w, to, s.heap);
  }

  lemma NotifyKeepsInv(d: Discipline, s: State, e: Event)
    requires Inv(s) && Enabled(s, e) && (e.NotifyOne? || e.NotifyAll?)
    ensures Inv(Next(d, s, e))
  {
    if e.NotifyOne? && e.target.Some? {
      MoveKeepsExclusive(s.heap, s.workers, e.target.value, Ready, s.heap);
      NumberUpdate(s.workers, e.target.value, Ready, Ready);
    }
  }

  lemma DispatcherStepKeepsInv(d: Discipline, s: State, e: Event)
    requires Inv(s) && Enabled(s, e) && !WorkerEvent(e)
    ensures Inv(Next(d, s, e))
  {
    if e.NotifyOne? || e.NotifyAll? {
      NotifyKeepsInv(d, s, e);
    } else if e.Push? {
      assert LockFree(s.workers);
    }
  }

  lemma {:induction false} RunKeepsInv(d: Discipline, s: State, es: seq<Event>)
    requires Inv(s) && Possible(d, s, es)
    ensures Inv(After(d, s, es))
    decreases |es|
  {
    if es == [] {
    } else {
      var e := es[0];
      if !WorkerEvent(e) {
        DispatcherStepKeepsInv(d, s, e);
      } else if e.Lock? {
        LockKeepsInv(d, s, e.worker, e.index);
      } else {
        WorkerStepKeepsInv(d, s, e);
      }
      RunKeepsInv(d, Next(d, s, e), es[1..]);
    }
  }

  /** In every reachable state, spurious wakeups included: a queued task means that the
      dispatcher still owes a notification, or a worker has been woken for it, or no
      worker sleeps at all. Pushed tasks are either queued or popped. */
  lemma NoTaskIsStranded(d: Discipline, start: State, es: seq<Event>)
    requires Start(start) && Possible(d, start, es)
    ensures var s := After(d, start, es);
            && multiset(s.pushed) == multiset(s.heap) + multiset(s.popped)
            && (SomeAsleep(s.workers) ==> |s.heap| <= Number(s.workers, Ready) + Owed(s.dispatcher))
            && (s.heap != [] && s.running && |s.workers| > 0 ==>
                  || s.dispatcher == Owing
                  || exists w :: 0 <= w < |s.workers| && (s.workers[w] == Ready || s.workers[w] == Busy))
  {
    assert Inv(start);
    RunKeepsInv(d, start, es);
    var s := After(d, start, es);
    NumberPositive(s.workers, Ready);
    if s.heap != [] && s.running && |s.workers| > 0 && s.dispatcher != Owing {
      assert s.workers[0] != Asleep || SomeAsleep(s.workers);
      assert LockFree(s.workers);
      assert !Holds(s.workers[0]);
    }
  }

  /** A woken worker facing a non-empty heap can always take the mutex and pop. */
  lemma WokenWorkerCanPop(s: State, w: nat) returns (i: nat)
    requires Inv(s) && At(s, w, Ready) && s.heap != []
    ensures Enabled(s, Lock(w, i)) && Earliest(s.heap, i)
  {
    i := EarliestExists(s.heap);
  }

  lemma {:induction false} EarliestExists(heap: seq<Task>) returns (i: nat)
    requires heap != []
    ensures Earliest(heap, i)
  {
    var n := |heap| - 1;
    i := n;
    if n == 0 {
    } else {
      var j := EarliestExists(heap[..n]);
      assert forall k :: 0 <= k < n ==> heap[..n][k] == heap[k];
      i := if heap[n].key < heap[j].key then n else j;
    }
  }

  // ------------------------------------------------------------------
  // Shutdown
  // ------------------------------------------------------------------

  /** Worker w can end up asleep in some continuation. */
  ghost predicate CanSleep(d: Discipline, s: State, w: nat) {
    exists es :: Possible(d, s, es) && At(After(d, s, es), w, Asleep)
  }

  lemma {:induction false} StaysAwake(d: Discipline, s: State, es: seq<Event>, w: nat)
    requires !s.running && s.dispatcher == Finished && w < |s.workers|
    requires s.workers[w] != Committed && s.workers[w] != Asleep
    requires Possible(d, s, es)
    ensures !At(After(d, s, es), w, Asleep)
    decreases |es|
  {
    if es == [] {
    } else {
      StaysAwake(d, Next(d, s, es[0]), es[1..], w);
    }
  }

  /** The final notify_all is sent without the mutex. Right after it, a worker can still
      go to sleep for good exactly when it had already seen the running flag set and
      was about to wait. */
  lemma ShutdownMissesExactlyCommittedWorkers(d: Discipline, s: State, w: nat)
    requires Inv(s) && Enabled(s, NotifyAll) && w < |s.workers|
    ensures CanSleep(d, Next(d, s, NotifyAll), w) <==> s.workers[w] == Committed
  {
    var t := Next(d, s, NotifyAll);
    if s.workers[w] == Committed {
      assert Possible(d, t, [Wait(w)]) by {
        assert Enabled(t, Wait(w));
        assert [Wait(w)][1..] == [];
      }
      assert [Wait(w)][1..] == [] && [Wait(w)][0] == Wait(w);
      assert After(d, t, [Wait(w)]) == Next(d, t, Wait(w));
      assert At(After(d, t, [Wait(w)]), w, Asleep);
    } else {
      forall es | Possible(d, t, es) ensures !At(After(d, t, es), w, Asleep) {
        StaysAwake(d, t, es, w);
      }
    }
  }

  /** No later step wakes such a worker, spurious wakeups aside, and at most one worker
      is affected. */
  lemma MissedWorkerIsAloneAndSleepsOn(d: Discipline, s: State, e: Event, w: nat)
    requires Inv(s) && s.dispatcher == Finished && w < |s.workers| && Enabled(s, e)
    ensures s.workers[w] == Asleep && e != SpuriousWakeup(w) ==> At(Next(d, s, e), w, Asleep)
    ensures s.workers[w] == Committed ==> forall v :: 0 <= v < |s.workers| && v != w ==> s.workers[v] != Committed
  {
    assert Holds(Committed);
  }

  ghost predicate LosesWorker(d: Discipline, start: State, es: seq<Event>, w: nat) {
    && Start(start) && Possible(d, start, es)
    && After(d, start, es).dispatcher == Finished && At(After(d, start, es), w, Asleep)
  }

  /** The lost wake-up does occur: a lone worker that looks just before the shutdown. */
  lemma LostWakeup(d: Discipline)
    ensures exists start, es :: LosesWorker(d, start, es, 0)
  {
    var start := State(0, Uniform([]), [], [], [Busy], Receiving, true, [], []);
    var late := [CheckRunning(0)] + [Shutdown, Leave, NotifyAll, Wait(0)];
    ShutdownOverFound(d, start.(workers := [Found]));
    LooksAtEmptyHeap(d, start, late);
    var es := [Call(0)] + ([Lock(0, 0)] + late);
    assert Start(start) && Possible(d, start, es);
    assert After(d, start, es) == start.(running := false, dispatcher := Finished, workers := [Asleep]);
    assert LosesWorker(d, start, es, 0);
  }

  lemma ShutdownOverFound(d: Discipline, s: State)
    requires s.heap == [] && s.workers == [Found] && s.dispatcher == Receiving && s.running
    ensures var es := [CheckRunning(0)] + [Shutdown, Leave, NotifyAll, Wait(0)];
            && Possible(d, s, es)
            && After(d, s, es) == s.(running := false, dispatcher := Finished, workers := [Asleep])
  {
    assert Next(d, s, CheckRunning(0)) == s.(workers := [Committed]);
    ShutdownOverCommitted(d, s.(workers := [Committed]));
    Prepend(d, s, CheckRunning(0), [Shutdown, Leave, NotifyAll, Wait(0)]);
  }

  lemma LooksAtEmptyHeap(d: Discipline, s: State, es: seq<Event>)
    requires s.heap == [] && s.workers == [Busy]
    requires var found := s.(workers := [Found]); Possible(d, found, es)
    ensures var look := [Call(0)] + ([Lock(0, 0)] + es);
            Possible(d, s, look) && After(d, s, look) == After(d, s.(workers := [Found]), es)
  {
    var ready, found := s.(workers := [Ready]), s.(workers := [Found]);
    assert [Busy][0 := Ready] == [Ready] && [Ready][0 := Found] == [Found];
    assert Next(d, ready, Lock(0, 0)) == found && Next(d, s, Call(0)) == ready;
    Prepend(d, ready, Lock(0, 0), es);
    Prepend(d, s, Call(0), [Lock(0, 0)] + es);
  }

  lemma ShutdownOverCommitted(d: Discipline, s: State)
    requires s.heap == [] && s.workers == [Committed] && s.dispatcher == Receiving && s.running
    ensures var es := [Shutdown, Leave, NotifyAll, Wait(0)];
            && Possible(d, s, es)
            && After(d, s, es) == s.(running := false, dispatcher := Finished, workers := [Asleep])
  {
    var s1 := s.(running := false);
    var s2 := s1.(dispatcher := Leaving);
    var s3 := s2.(dispatcher := Finished);
    assert Woken(s.workers) == s.workers;
    Prepend(d, s3, Wait(0), []);
    Prepend(d, s2, NotifyAll, [Wait(0)]);
    Prepend(d, s1, Leave, [NotifyAll, Wait(0)]);
    Prepend(d, s, Shutdown, [Leave, NotifyAll, Wait(0)]);
    assert [Wait(0)] + [] == [Wait(0)] && [NotifyAll] + [Wait(0)] == [NotifyAll, Wait(0)];
    assert [Leave] + [NotifyAll, Wait(0)] == [Leave, NotifyAll, Wait(0)];
    assert [Shutdown] + [Leave, NotifyAll, Wait(0)] == [Shutdown, Leave, NotifyAll, Wait(0)];
  }

  lemma Prepend(d: Discipline, s: State, e: Event, es: seq<Event>)
    requires Enabled(s, e) && Possible(d, Next(d, s, e), es)
    ensures Possible(d, s, [e] + es) && After(d, s, [e] + es) == After(d, Next(d, s, e), es)
  {
    assert ([e] + es)[1..] == es;
  }

  // ------------------------------------------------------------------
  // Bounded overtaking
  // ------------------------------------------------------------------

  /** Task x stays in the heap before every step of the run. */
  ghost predicate Waits(d: Discipline, s: State, es: seq<Event>, x: Task)
    requires Possible(d, s, es)
    decreases |es|
  {
    x in s.heap && (es == [] || Waits(d, Next(d, s, es[0]), es[1..], x))
  }

  function IsEarly(x: Packet, t: nat): nat {
    if x.timestamp <= t then 1 else 0
  }

  /** How many of the packets were stamped by time t. */
  function Early(packets: seq<Packet>, t: nat): nat {
    if packets == [] then 0 else Early(packets[..|packets| - 1], t) + IsEarly(packets[|packets| - 1], t)
  }

  function EarlyTasks(tasks: seq<Task>, t: nat): nat {
    if tasks == [] then 0 else EarlyTasks(tasks[..|tasks| - 1], t) + IsEarly(tasks[|tasks| - 1].packet, t)
  }

  function EarlyInputs(inputs: Table<seq<Packet>>, t: nat): nat {
    Early(inputs.high, t) + Early(inputs.medium, t) + Early(inputs.low, t) + Early(inputs.bestEffort, t)
  }

  /** Packets stamped by time t that no worker has popped yet: waiting in an input channel,
      in the dispatcher's hands, or in the heap. */
  function Unpopped(s: State, t: nat): nat {
    EarlyInputs(s.inputs, t) + EarlyTasks(s.heap, t)
    + if s.dispatcher.Carrying? then IsEarly(s.dispatcher.task.packet, t) else 0
  }

  lemma EarlyAppend(packets: seq<Packet>, x: Packet, t: nat)
    ensures Early(packets + [x], t) == Early(packets, t) + IsEarly(x, t)
  {
    assert (packets + [x])[..|packets|] == packets;
  }

  lemma {:induction false} EarlyTail(packets: seq<Packet>, t: nat)
    requires packets != []
    ensures Early(packets, t) == IsEarly(packets[0], t) + Early(packets[1..], t)
  {
    var n := |packets| - 1;
    if n == 0 {
    } else {
      EarlyTail(packets[..n], t);
      assert packets[1..][..n - 1] == packets[..n][1..];
    }
  }

  lemma EarlyTasksAppend(tasks: seq<Task>, x: Task, t: nat)
    ensures EarlyTasks(tasks + [x], t) == EarlyTasks(tasks, t) + IsEarly(x.packet, t)
  {
    assert (tasks + [x])[..|tasks|] == tasks;
  }

  lemma {:induction false} EarlyTasksWithout(tasks: seq<Task>, i: nat, t: nat)
    requires i < |tasks|
    ensures EarlyTasks(tasks, t) == EarlyTasks(Without(tasks, i), t) + IsEarly(tasks[i].packet, t)
  {
    var n := |tasks| - 1;
    if i == n {
      assert Without(tasks, i) == tasks[..n];
    } else {
      EarlyTasksWithout(tasks[..n], i, t);
      assert Without(tasks, i)[..n - 1] == Without(tasks[..n], i);
    }
  }

  lemma EarlyInputsSet(inputs: Table<seq<Packet>>, p: Priority, queue: seq<Packet>, t: nat)
    ensures EarlyInputs(inputs.Set(p, queue), t) + Early(inputs.Get(p), t) == EarlyInputs(inputs, t) + Early(queue, t)
  {
  }

  /** Every received task carries the key its packet calls for. */
  ghost predicate Keyed(d: Discipline, s: State) {
    && (forall x :: x in s.heap ==> RightKey(d, x.packet, x.key))
    && (s.dispatcher.Carrying? ==> RightKey(d, s.dispatcher.task.packet, s.dispatcher.task.key))
  }

  lemma StepKeepsKeyed(d: Discipline, s: State, e: Event)
    requires Keyed(d, s) && Enabled(s, e)
    ensures Keyed(d, Next(d, s, e))
  {
    if e.Lock? && s.heap != [] {
      WithoutItems(s.heap, e.index);
      forall x | x in Without(s.heap, e.index) ensures x in s.heap {
        assert x in multiset(s.heap);
      }
    } else if e.Receive? {
      var x := s.inputs.Get(e.from)[0];
      TasksCarryTheirKey(d, x, TaskOf(d, x).key);
    }
  }

  lemma {:induction false} RunKeepsKeyed(d: Discipline, s: State, es: seq<Event>)
    requires Keyed(d, s) && Possible(d, s, es)
    ensures Keyed(d, After(d, s, es))
    decreases |es|
  {
    if es == [] {
    } else {
      StepKeepsKeyed(d, s, es[0]);
      RunKeepsKeyed(d, Next(d, s, es[0]), es[1..]);
    }
  }

  /** While x waits everything popped was due and stamped no later than x's key, and pops
      and unpopped packets stamped by then balance against the arrivals. */
  ghost predicate Overtaken(s: State, t: State, x: Task) {
    && s.popped <= t.popped && s.arrived <= t.arrived && s.now <= t.now
    && (forall i :: |s.popped| <= i < |t.popped| ==>
          t.popped[i].key <= x.key && t.popped[i].packet.timestamp <= x.key)
    && |t.popped| - |s.popped| + Unpopped(t, x.key) + Early(s.arrived, x.key)
       == Unpopped(s, x.key) + Early(t.arrived, x.key)
  }

  lemma {:induction false} OvertakingIsBounded(d: Discipline, s: State, es: seq<Event>, x: Task)
    requires Possible(d, s, es) && Waits(d, s, es, x) && Keyed(d, s)
    ensures Overtaken(s, After(d, s, es), x)
    decreases |es|
  {
    if es == [] {
    } else {
      OvertakingStep(d, s, es[0], x);
      StepKeepsKeyed(d, s, es[0]);
      OvertakingIsBounded(d, Next(d, s, es[0]), es[1..], x);
    }
  }

  lemma OvertakingStep(d: Discipline, s: State, e: Event, x: Task)
    requires Enabled(s, e) && x in s.heap && Keyed(d, s)
    ensures Overtaken(s, Next(d, s, e), x)
  {
    if e.Arrive? {
      var packet := Packet(e.id, e.priority, s.now, e.budget, e.size);
      EarlyInputsSet(s.inputs, e.priority, s.inputs.Get(e.priority) + [packet], x.key);
      EarlyAppend(s.inputs.Get(e.priority), packet, x.key);
      EarlyAppend(s.arrived, packet, x.key);
    } else if e.Receive? {
      EarlyInputsSet(s.inputs, e.from, s.inputs.Get(e.from)[1..], x.key);
      EarlyTail(s.inputs.Get(e.from), x.key);
    } else if e.Push? {
      EarlyTasksAppend(s.heap, s.dispatcher.task, x.key);
    } else if e.Lock? {
      var first := s.heap[e.index];
      EarlyTasksWithout(s.heap, e.index, x.key);
      assert first in s.heap;
      KeyWithinBudget(d, first.packet, first.key);
    }
  }

  /** Once the clock has passed t, nothing that arrives is stamped by t. */
  lemma {:induction false} LateArrivalsDoNotCount(d: Discipline, s: State, es: seq<Event>, t: nat)
    requires Possible(d, s, es) && s.now > t
    ensures Early(After(d, s, es).arrived, t) == Early(s.arrived, t)
    decreases |es|
  {
    if es == [] {
    } else {
      if es[0].Arrive? {
        EarlyAppend(s.arrived, Packet(es[0].id, es[0].priority, s.now, es[0].budget, es[0].size), t);
      }
      LateArrivalsDoNotCount(d, Next(d, s, es[0]), es[1..], t);
    }
  }

  /** No class starves. Once the clock has passed x's key, which happens within x's latency
      budget, every pop that overtakes x uses up one of the packets stamped by then, and
      no arrival adds another: from that moment on fewer packets overtake x than were
      unpopped at that moment, whatever arrives later. */
  lemma NoClassStarves(d: Discipline, start: State, es: seq<Event>, more: seq<Event>, x: Task)
    requires Start(start) && Possible(d, start, es)
    requires var s := After(d, start, es); Possible(d, s, more) && Waits(d, s, more, x) && s.now > x.key
    ensures var s := After(d, start, es);
            var t := After(d, s, more);
            && |t.popped| - |s.popped| == Unpopped(s, x.key) - Unpopped(t, x.key) < Unpopped(s, x.key)
            && RightKey(d, x.packet, x.key) && x.key <= Deadline(x.packet)
  {
    var s := After(d, start, es);
    RunKeepsKeyed(d, start, es);
    OvertakingIsBounded(d, s, more, x);
    LateArrivalsDoNotCount(d, s, more, x.key);
    StillThere(d, s, more, x);
    RunKeepsKeyed(d, s, more);
    var t := After(d, s, more);
    KeyWithinBudget(d, x.packet, x.key);
    var i :| 0 <= i < |t.heap| && t.heap[i] == x;
    EarlyTasksWithout(t.heap, i, x.key);
  }

  /** Before that moment the overtaking packets are those stamped by x's key as well, so
      they number at most the unpopped ones at the start and the arrivals until then. */
  lemma OvertakingBeforeTheKey(d: Discipline, start: State, es: seq<Event>, more: seq<Event>, x: Task)
    requires Start(start) && Possible(d, start, es)
    requires var s := After(d, start, es); Possible(d, s, more) && Waits(d, s, more, x)
    ensures var s := After(d, start, es);
            var t := After(d, s, more);
            |t.popped| - |s.popped| < Unpopped(s, x.key) + |t.arrived| - |s.arrived|
  {
    var s := After(d, start, es);
    RunKeepsKeyed(d, start, es);
    OvertakingIsBounded(d, s, more, x);
    StillThere(d, s, more, x);
    RunKeepsKeyed(d, s, more);
    var t := After(d, s, more);
    KeyWithinBudget(d, x.packet, x.key);
    var i :| 0 <= i < |t.heap| && t.heap[i] == x;
    EarlyTasksWithout(t.heap, i, x.key);
    EarlyGrowth(s.arrived, t.arrived, x.key);
  }

  lemma {:induction false} EarlyGrowth(before: seq<Packet>, after: seq<Packet>, t: nat)
    requires before <= after
    ensures Early(after, t) - Early(before, t) <= |after| - |before|
  {
    if before != after {
      var n := |after| - 1;
      assert before <= after[..n];
      EarlyGrowth(before, after[..n], t);
    }
  }

  lemma {:induction false} StillThere(d: Discipline, s: State, es: seq<Event>, x: Task)
    requires Possible(d, s, es) && Waits(d, s, es, x)
    ensures x in After(d, s, es).heap
    decreases |es|
  {
    if es == [] {
    } else {
      StillThere(d, Next(d, s, es[0]), es[1..], x);
    }
  }

  // ------------------------------------------------------------------
  // Channels are emptied in order
  // ------------------------------------------------------------------

  function OfClass(packets: seq<Packet>, p: Priority): seq<Packet> {
    if packets == [] then []
    else
      var x := packets[|packets| - 1];
      OfClass(packets[..|packets| - 1], p) + if x.priority == p then [x] else []
  }

  function Packets(tasks: seq<Task>): seq<Packet> {
    seq(|tasks|, i requires 0 <= i < |tasks| => tasks[i].packet)
  }

  /** Received packets: those pushed and the one in the dispatcher's hands. */
  function Received(s: State): seq<Packet> {
    Packets(s.pushed) + if s.dispatcher.Carrying? then [s.dispatcher.task.packet] else []
  }

  ghost predicate InLine(arrived: seq<Packet>, received: seq<Packet>, waiting: seq<Packet>, p: Priority) {
    && OfClass(arrived, p) == OfClass(received, p) + waiting
    && forall x :: x in waiting ==> x.priority == p
  }

  ghost predicate AllInLine(s: State) {
    forall p :: InLine(s.arrived, Received(s), s.inputs.Get(p), p)
  }

  lemma OfClassAppend(packets: seq<Packet>, x: Packet, p: Priority)
    ensures OfClass(packets + [x], p) == OfClass(packets, p) + if x.priority == p then [x] else []
  {
    assert (packets + [x])[..|packets|] == packets;
  }

  lemma ArrivalInLine(arrived: seq<Packet>, received: seq<Packet>, waiting: seq<Packet>, x: Packet, p: Priority)
    requires InLine(arrived, received, waiting, p)
    ensures InLine(arrived + [x], received, if x.priority == p then waiting + [x] else waiting, p)
  {
    OfClassAppend(arrived, x, p);
    AppendAssociative(OfClass(received, p), waiting, [x]);
  }

  lemma ReceivedInLine(arrived: seq<Packet>, received: seq<Packet>, waiting: seq<Packet>, x: Packet, p: Priority)
    requires InLine(arrived, received, waiting, p) && (x.priority == p ==> waiting != [] && x == waiting[0])
    ensures InLine(arrived, received + [x], if x.priority == p then waiting[1..] else waiting, p)
  {
    OfClassAppend(received, x, p);
    if x.priority == p {
      AppendAssociative(OfClass(received, p), [x], waiting[1..]);
      assert waiting == [x] + waiting[1..];
    }
  }

  /** What one packet entering its channel changes. */
  lemma ArriveEffect(d: Discipline, s: State, e: Event, p: Priority) returns (x: Packet)
    requires Enabled(s, e) && e.Arrive?
    ensures var t := Next(d, s, e);
            && t.arrived == s.arrived + [x] && Received(t) == Received(s)
            && t.inputs.Get(p) == if x.priority == p then s.inputs.Get(p) + [x] else s.inputs.Get(p)
  {
    x := Packet(e.id, e.priority, s.now, e.budget, e.size);
    assert Packets(Next(d, s, e).pushed) == Packets(s.pushed);
  }

  lemma ReceiveEffect(d: Discipline, s: State, e: Event, p: Priority) returns (x: Packet)
    requires Enabled(s, e) && e.Receive? && InLine(s.arrived, Received(s), s.inputs.Get(e.from), e.from)
    ensures var t := Next(d, s, e);
            && t.arrived == s.arrived && Received(t) == Received(s) + [x]
            && (x.priority == p ==> s.inputs.Get(p) != [] && x == s.inputs.Get(p)[0])
            && t.inputs.Get(p) == if x.priority == p then s.inputs.Get(p)[1..] else s.inputs.Get(p)
  {
    x := s.inputs.Get(e.from)[0];
    assert x in s.inputs.Get(e.from);
    assert Received(Next(d, s, e)) == Received(s) + [x];
  }

  lemma PushKeepsReceived(d: Discipline, s: State)
    requires Enabled(s, Push)
    ensures Received(Next(d, s, Push)) == Received(s)
  {
  }

  lemma StepKeepsLine(d: Discipline, s: State, e: Event, p: Priority)
    requires AllInLine(s) && Enabled(s, e)
    ensures var t := Next(d, s, e); InLine(t.arrived, Received(t), t.inputs.Get(p), p)
  {
    assert InLine(s.arrived, Received(s), s.inputs.Get(p), p);
    if e.Arrive? {
      var x := ArriveEffect(d, s, e, p);
      ArrivalInLine(s.arrived, Received(s), s.inputs.Get(p), x, p);
    } else if e.Receive? {
      var x := ReceiveEffect(d, s, e, p);
      ReceivedInLine(s.arrived, Received(s), s.inputs.Get(p), x, p);
    } else {
      if e.Push? {
        PushKeepsReceived(d, s);
      }
      assert Received(Next(d, s, e)) == Received(s);
    }
  }

  /** In every reachable state the packets of a class have been received in the order they
      arrived, each exactly once, and the rest still wait in their channel; with the
      conservation of pushed tasks every arrival is in its channel, with the dispatcher,
      in the heap or popped. */
  lemma EveryArrivalIsReceivedInOrder(d: Discipline, start: State, es: seq<Event>, p: Priority)
    requires Start(start) && Possible(d, start, es)
    ensures var s := After(d, start, es);
            && OfClass(s.arrived, p) == OfClass(Received(s), p) + s.inputs.Get(p)
            && multiset(s.pushed) == multiset(s.heap) + multiset(s.popped)
  {
    assert Received(start) == [];
    forall q ensures InLine(start.arrived, Received(start), start.inputs.Get(q), q) {
    }
    RunKeepsLines(d, start, es);
    assert Inv(start);
    RunKeepsInv(d, start, es);
  }

  lemma {:induction false} RunKeepsLines(d: Discipline, s: State, es: seq<Event>)
    requires AllInLine(s) && Possible(d, s, es)
    ensures AllInLine(After(d, s, es))
    decreases |es|
  {
    if es == [] {
    } else {
      forall q { StepKeepsLine(d, s, es[0], q); }
      RunKeepsLines(d, Next(d, s, es[0]), es[1..]);
    }
  }

  // ------------------------------------------------------------------
  // The code under the mutex
  // ------------------------------------------------------------------

  class SharedQueue {
    var heap: seq<Task>

    constructor ()
      ensures heap == []
    {
      heap := [];
    }

    method Push(task: Task)
      modifies this
      ensures heap == old(heap) + [task]
    {
      heap := heap + [task];
    }

    /** One turn of the wait loop: pop an earliest task, or report an empty heap. */
    method TryPop() returns (r: Option<Task>)
      modifies this
      ensures r.None? <==> old(heap) == []
      ensures r.None? ==> heap == old(heap)
      ensures r.Some? ==> exists i :: 0 <= i < |old(heap)| && Earliest(old(heap), i)
                                      && r.value == old(heap)[i] && heap == Without(old(heap), i)
    {
      if heap == [] {
        return None;
      }
      var first := 0;
      for i := 1 to |heap|
        invariant first < i && forall j :: 0 <= j < i ==> heap[first].key <= heap[j].key
      {
        if heap[i].key < heap[first].key {
          first := i;
        }
      }
      r := Some(heap[first]);
      assert Earliest(heap, first);
      heap := heap[..first] + heap[first + 1..];
    }
  }

  /** Receive at most one packet of a class and push it. */
  method DispatchClass(d: Discipline, queue: SharedQueue, input: seq<Packet>) returns (rest: seq<Packet>, sent: bool)
    modifies queue
    ensures queue.heap == old(queue.heap) + Head(d, input)
    ensures rest == (if input == [] then [] else input[1..]) && (sent <==> input != [])
  {
    if input == [] {
      return input, false;
    }
    queue.Push(TaskOf(d, input[0]));
    return input[1..], true;
  }

  /** The turn of class number i in a pass. */
  method DispatchTurn(d: Discipline, queue: SharedQueue, inputs: Table<seq<Packet>>, i: nat, ghost before: seq<Task>)
      returns (left: seq<Packet>, sent: bool)
    requires i < |ALL| && queue.heap == before + Dispatched(d, inputs, i)
    modifies queue
    ensures queue.heap == before + Dispatched(d, inputs, i + 1)
    ensures left == (if inputs.Get(ALL[i]) == [] then [] else inputs.Get(ALL[i])[1..])
    ensures Dispatched(d, inputs, i + 1) != [] <==> Dispatched(d, inputs, i) != [] || sent
  {
    DispatchedNext(d, inputs, i, before);
    left, sent := DispatchClass(d, queue, inputs.Get(ALL[i]));
  }

  ghost predicate IsTaskOf(d: Discipline, x: Packet, task: Task) {
    task.packet == x && RightKey(d, x, task.key)
  }

  function OneIfAny(input: seq<Packet>): nat {
    if input == [] then 0 else 1
  }

  /** The first packet of every nonempty class, highest class first, each with its key. */
  ghost predicate FirstOfEachClass(d: Discipline, inputs: Table<seq<Packet>>, tasks: seq<Task>) {
    var high, medium, low := OneIfAny(inputs.high), OneIfAny(inputs.medium), OneIfAny(inputs.low);
    && |tasks| == high + medium + low + OneIfAny(inputs.bestEffort)
    && (inputs.high != [] ==> IsTaskOf(d, inputs.high[0], tasks[0]))
    && (inputs.medium != [] ==> IsTaskOf(d, inputs.medium[0], tasks[high]))
    && (inputs.low != [] ==> IsTaskOf(d, inputs.low[0], tasks[high + medium]))
    && (inputs.bestEffort != [] ==> IsTaskOf(d, inputs.bestEffort[0], tasks[high + medium + low]))
  }

  lemma HeadIsTask(d: Discipline, input: seq<Packet>)
    ensures |Head(d, input)| == OneIfAny(input) && (input != [] ==> IsTaskOf(d, input[0], Head(d, input)[0]))
  {
    if input == [] {
    } else {
      TasksCarryTheirKey(d, input[0], TaskOf(d, input[0]).key);
    }
  }

  lemma DispatchedIsFirstOfEach(d: Discipline, inputs: Table<seq<Packet>>)
    ensures FirstOfEachClass(d, inputs, Dispatched(d, inputs, |ALL|))
  {
    forall p { HeadIsTask(d, inputs.Get(p)); }
    assert ALL[0] == High && ALL[1] == Medium && ALL[2] == Low && ALL[3] == BestEffort;
    assert Dispatched(d, inputs, 1) == Head(d, inputs.high);
    assert Dispatched(d, inputs, 2) == Dispatched(d, inputs, 1) + Head(d, inputs.medium);
    assert Dispatched(d, inputs, 3) == Dispatched(d, inputs, 2) + Head(d, inputs.low);
    assert Dispatched(d, inputs, 4) == Dispatched(d, inputs, 3) + Head(d, inputs.bestEffort);
  }

  /** One pass of the dispatcher: at most one packet per class, highest class first. */
  method DispatchPass(d: Discipline, queue: SharedQueue, inputs: Table<seq<Packet>>)
      returns (rest: Table<seq<Packet>>, dispatched: bool, ghost tasks: seq<Task>)
    modifies queue
    ensures queue.heap == old(queue.heap) + tasks && FirstOfEachClass(d, inputs, tasks)
    ensures forall p :: rest.Get(p) == if inputs.Get(p) == [] then [] else inputs.Get(p)[1..]
    ensures dispatched <==> exists p :: inputs.Get(p) != []
  {
    rest, dispatched := inputs, false;
    ghost var before := queue.heap;
    for i := 0 to |ALL|
      invariant queue.heap == before + Dispatched(d, inputs, i)
      invariant rest == Rest(inputs, i)
      invariant dispatched <==> Dispatched(d, inputs, i) != []
    {
      var left, sent := DispatchTurn(d, queue, inputs, i, before);
      rest := rest.Set(ALL[i], left);
      dispatched := dispatched || sent;
    }
    HeadsGone(inputs);
    tasks := Dispatched(d, inputs, |ALL|);
    DispatchedIsFirstOfEach(d, inputs);
    SomeWaiting(inputs);
  }

  lemma SomeWaiting(inputs: Table<seq<Packet>>)
    ensures (exists p :: inputs.Get(p) != [])
       <==> OneIfAny(inputs.high) + OneIfAny(inputs.medium) + OneIfAny(inputs.low) + OneIfAny(inputs.bestEffort) > 0
  {
    assert inputs.Get(High) == inputs.high && inputs.Get(Medium) == inputs.medium && inputs.Get(Low) == inputs.low
           && inputs.Get(BestEffort) == inputs.bestEffort;
  }

  lemma HeadsGone(inputs: Table<seq<Packet>>)
    ensures forall p :: Rest(inputs, |ALL|).Get(p) == if inputs.Get(p) == [] then [] else inputs.Get(p)[1..]
  {
    RestAt(inputs, |ALL|);
    assert forall p :: Index(p) < |ALL|;
  }

  lemma DispatchedNext(d: Discipline, inputs: Table<seq<Packet>>, i: nat, before: seq<Task>)
    requires i < |ALL|
    ensures before + Dispatched(d, inputs, i + 1) == (before + Dispatched(d, inputs, i)) + Head(d, inputs.Get(ALL[i]))
    ensures Dispatched(d, inputs, i + 1) != [] <==> Dispatched(d, inputs, i) != [] || inputs.Get(ALL[i]) != []
  {
    AppendAssociative(before, Dispatched(d, inputs, i), Head(d, inputs.Get(ALL[i])));
  }

  function Rest(inputs: Table<seq<Packet>>, n: nat): Table<seq<Packet>>
    requires n <= |ALL|
  {
    if n == 0 then inputs
    else Rest(inputs, n - 1).Set(ALL[n - 1], if inputs.Get(ALL[n - 1]) == [] then [] else inputs.Get(ALL[n - 1])[1..])
  }

  lemma {:induction false} RestAt(inputs: Table<seq<Packet>>, n: nat)
    requires n <= |ALL|
    ensures forall p :: Rest(inputs, n).Get(p)
              == if Index(p) < n && inputs.Get(p) != [] then inputs.Get(p)[1..] else inputs.Get(p)
  {
    if n == 0 {
    } else {
      RestAt(inputs, n - 1);
    }
  }

  function Head(d: Discipline, input: seq<Packet>): seq<Task> {
    if input == [] then [] else [TaskOf(d, input[0])]
  }

  function Dispatched(d: Discipline, inputs: Table<seq<Packet>>, n: nat): seq<Task>
    requires n <= |ALL|
  {
    if n == 0 then [] else Dispatched(d, inputs, n - 1) + Head(d, inputs.Get(ALL[n - 1]))
  }
}
