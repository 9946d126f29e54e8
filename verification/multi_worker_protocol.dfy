/** Three EDF workers sharing input channels and sequence trackers, as a transition
    system: one event per lock, atomic operation or channel operation, so a sequence
    of events is one interleaving of all threads. */
module MultiWorkerProtocol {
  import opened Pipeline
  import opened Heaps
  import opened SequenceTracking

  /** Classes served by each worker; every worker serves High. */
  const ASSIGNMENTS: seq<seq<Priority>> := [[High], [High, Medium], ALL]

  function Classes(id: nat): seq<Priority> {
    if id < |ASSIGNMENTS| then ASSIGNMENTS[id] else []
  }

  // ------------------------------------------------------------------
  // One worker
  // ------------------------------------------------------------------

  /** Where a worker stands in its loop. `Fetched` phases lie between receiving a
      packet and numbering it. */
  datatype Phase =
    | Top
    | Drain(turn: nat)
    | DrainFetched(turn: nat, packet: Packet)
    | Poll(slot: WorkItem)
    | PollFetched(slot: WorkItem, packet: Packet)
    | Guard(slot: WorkItem)
    | GuardFetched(slot: WorkItem, packet: Packet)
    | Busy(slot: WorkItem)

  /** `quota` and `limit` are the values read at the loop top; `atTop` remembers the
      counts at that moment. */
  datatype Worker = Worker(
    heap: seq<WorkItem>,
    counts: Table<nat>,
    total: nat,
    quota: Table<nat>,
    limit: nat,
    atTop: Table<nat>,
    phase: Phase)

  predicate Room(w: Worker, p: Priority) {
    w.counts.Get(p) < w.quota.Get(p) && w.total < w.limit
  }

  /** `push_with_capacity`. */
  function Admit(w: Worker, item: WorkItem): Option<Worker> {
    var p := item.priority;
    if w.quota.Get(p) == 0 then None
    else if w.total >= w.limit || w.counts.Get(p) >= w.quota.Get(p) then None
    else Some(w.(heap := w.heap + [item], counts := w.counts.Set(p, w.counts.Get(p) + 1), total := w.total + 1))
  }

  /** A worker after placing an item, and the items that no longer have a place. */
  datatype Placed = Placed(worker: Worker, dropped: seq<WorkItem>)

  function PlaceDrained(w: Worker, turn: nat, item: WorkItem): Placed {
    match Admit(w, item)
    case Some(v) => Placed(v.(phase := Drain(turn)), [])
    case None => Placed(w.(phase := Drain(turn + 1)), [item])
  }

  /** Put `slot` back and continue with `next` in its place. */
  function Preempt(w: Worker, slot: WorkItem, next: Phase): Placed {
    match Admit(w, slot)
    case Some(v) => Placed(v.(phase := next), [])
    case None => Placed(w.(phase := next), [slot])
  }

  function PlacePolled(w: Worker, slot: WorkItem, item: WorkItem): Placed {
    if Deadline(item.packet) < Deadline(slot.packet) then Preempt(w, slot, Poll(item))
    else
      match Admit(w, item)
      case Some(v) => Placed(v.(phase := Poll(slot)), [])
      case None => Placed(w.(phase := Guard(slot)), [item])
  }

  function Popped(w: Worker, i: nat): Worker {
    if w.heap == [] then w.(phase := Top)
    else if Earliest(w.heap, i) then
      var item := w.heap[i];
      var v := w.(heap := Without(w.heap, i),
                  counts := w.counts.Set(item.priority, Monus(w.counts.Get(item.priority), 1)),
                  total := Monus(w.total, 1));
      v.(phase := if item.priority == Medium && v.counts.high > 0 then Guard(item) else Poll(item))
    else w
  }

  // ------------------------------------------------------------------
  // The whole system
  // ------------------------------------------------------------------

  /** `numbered[p]` is the history of packets numbered in class p, so its length is the
      class's sequence counter; `lost` collects items that a failed requeue discards. */
  datatype State = State(
    inputs: Table<seq<Packet>>,
    workers: seq<Worker>,
    numbered: Table<seq<Packet>>,
    trackers: Table<Tracker>,
    lost: seq<WorkItem>)

  datatype Event =
    | Arrive(priority: Priority, packet: Packet)
    | ReadQuotas(id: nat, quota: Table<nat>, limit: nat)
    | DrainStep(id: nat)
    | DrainPlace(id: nat)
    | Pop(id: nat, index: nat)
    | PollStep(id: nat)
    | PollPlace(id: nat)
    | GuardStep(id: nat, closed: bool)
    | GuardPlace(id: nat)
    | Finish(id: nat)

  const IDLE := Worker([], Uniform(0), 0, Uniform(0), 0, Uniform(0), Top)

  function Initial(): State {
    State(Uniform([]), [IDLE, IDLE, IDLE], Uniform([]), Uniform(EMPTY), [])
  }

  function WithWorker(s: State, id: nat, w: Worker): State
    requires id < |s.workers|
  {
    s.(workers := s.workers[id := w])
  }

  /** Receive the head packet of a non-empty channel into phase `next`. */
  function Fetch(s: State, id: nat, p: Priority, next: Phase): State
    requires id < |s.workers| && s.inputs.Get(p) != []
  {
    WithWorker(s, id, s.workers[id].(phase := next)).(inputs := s.inputs.Set(p, s.inputs.Get(p)[1..]))
  }

  /** Take the next number of class p for `packet`, then place the items locally. */
  function NextItem(s: State, p: Priority, packet: Packet): WorkItem {
    WorkItem(p, |s.numbered.Get(p)|, packet)
  }

  function Place(s: State, id: nat, p: Priority, packet: Packet, placed: Placed): State
    requires id < |s.workers|
  {
    WithWorker(s, id, placed.worker)
    .(numbered := s.numbered.Set(p, s.numbered.Get(p) + [packet]), lost := s.lost + placed.dropped)
  }

  /** An event that its worker's phase does not allow leaves the state as it is. */
  function Step(s: State, e: Event): State {
    if e.Arrive? then s.(inputs := s.inputs.Set(e.priority, s.inputs.Get(e.priority) + [e.packet]))
    else if e.id >= |s.workers| then s
    else WorkerStep(s, e, s.workers[e.id])
  }

  function WorkerStep(s: State, e: Event, w: Worker): State
    requires !e.Arrive? && e.id < |s.workers| && w == s.workers[e.id]
  {
    match (e, w.phase)
    case (ReadQuotas(id, quota, limit), Top) =>
      WithWorker(s, id, w.(quota := quota, limit := limit, atTop := w.counts, phase := Drain(0)))
    case (DrainStep(id), Drain(turn)) =>
      if turn >= |Classes(id)| then s
      else
        var p := Classes(id)[turn];
        if !Room(w, p) || s.inputs.Get(p) == [] then WithWorker(s, id, w.(phase := Drain(turn + 1)))
        else Fetch(s, id, p, DrainFetched(turn, s.inputs.Get(p)[0]))
    case (DrainPlace(id), DrainFetched(turn, packet)) =>
      if turn >= |Classes(id)| then s
      else
        var p := Classes(id)[turn];
        Place(s, id, p, packet, PlaceDrained(w, turn, NextItem(s, p, packet)))
    case (Pop(id, index), Drain(turn)) =>
      if turn < |Classes(id)| then s else WithWorker(s, id, Popped(w, index))
    case (PollStep(id), Poll(slot)) =>
      if !Room(w, High) || s.inputs.high == [] then WithWorker(s, id, w.(phase := Guard(slot)))
      else Fetch(s, id, High, PollFetched(slot, s.inputs.high[0]))
    case (PollPlace(id), PollFetched(slot, packet)) =>
      Place(s, id, High, packet, PlacePolled(w, slot, NextItem(s, High, packet)))
    case (GuardStep(id, closed), Guard(slot)) =>
      if closed || (slot.priority != Medium && slot.priority != Low) then WithWorker(s, id, w.(phase := Busy(slot)))
      else if !Room(w, High) || s.inputs.high == [] then s
      else Fetch(s, id, High, GuardFetched(slot, s.inputs.high[0]))
    case (GuardPlace(id), GuardFetched(slot, packet)) =>
      var item := NextItem(s, High, packet);
      Place(s, id, High, packet, Preempt(w, slot, Busy(item)))
    case (Finish(id), Busy(slot)) =>
      var p := slot.priority;
      WithWorker(s, id, w.(phase := Top))
      .(trackers := s.trackers.Set(p, Completed(s.trackers.Get(p), slot.sequence, slot.packet)))
    case _ => s
  }

  function Run(s: State, es: seq<Event>): State {
    if es == [] then s else Step(Run(s, es[..|es| - 1]), es[|es| - 1])
  }

  // ------------------------------------------------------------------
  // Counting the copies of a sequence number
  // ------------------------------------------------------------------

  function InHand(w: Worker): seq<WorkItem> {
    match w.phase
    case Poll(slot) => [slot]
    case PollFetched(slot, _) => [slot]
    case Guard(slot) => [slot]
    case GuardFetched(slot, _) => [slot]
    case Busy(slot) => [slot]
    case _ => []
  }

  function CopiesIn(items: seq<WorkItem>, p: Priority, k: nat): nat {
    if items == [] then 0
    else CopiesIn(items[1..], p, k) + if items[0].priority == p && items[0].sequence == k then 1 else 0
  }

  function HeldBy(w: Worker, p: Priority, k: nat): nat {
    CopiesIn(w.heap, p, k) + CopiesIn(InHand(w), p, k)
  }

  function HeldByAll(ws: seq<Worker>, p: Priority, k: nat): nat {
    if ws == [] then 0 else HeldBy(ws[0], p, k) + HeldByAll(ws[1..], p, k)
  }

  /** How often number k of class p occurs: in a heap, in a worker's hands, lost,
      waiting for its turn, or already emitted. */
  function Copies(s: State, p: Priority, k: nat): nat {
    HeldByAll(s.workers, p, k)
    + CopiesIn(s.lost, p, k)
    + CopiesInTracker(s.trackers.Get(p), k)
  }

  function CopiesInTracker(t: Tracker, k: nat): nat {
    (if k in t.pending then 1 else 0) + (if k < t.nextEmit then 1 else 0)
  }

  lemma {:induction false} CopiesAppend(xs: seq<WorkItem>, ys: seq<WorkItem>, p: Priority, k: nat)
    ensures CopiesIn(xs + ys, p, k) == CopiesIn(xs, p, k) + CopiesIn(ys, p, k)
  {
    if xs == [] {
      assert xs + ys == ys;
    } else {
      CopiesAppend(xs[1..], ys, p, k);
      assert (xs + ys)[1..] == xs[1..] + ys;
    }
  }

  lemma CopiesSingle(item: WorkItem, p: Priority, k: nat)
    ensures CopiesIn([item], p, k) == if item.priority == p && item.sequence == k then 1 else 0
  {
    assert [item][1..] == [];
  }

  lemma CopiesWithout(xs: seq<WorkItem>, i: nat, p: Priority, k: nat)
    requires i < |xs|
    ensures CopiesIn(xs, p, k) == CopiesIn(Without(xs, i), p, k) + CopiesIn([xs[i]], p, k)
  {
    assert xs == xs[..i] + ([xs[i]] + xs[i + 1..]);
    CopiesAppend(xs[..i], [xs[i]] + xs[i + 1..], p, k);
    CopiesAppend([xs[i]], xs[i + 1..], p, k);
    CopiesAppend(xs[..i], xs[i + 1..], p, k);
  }

  lemma {:induction false} HeldAfterUpdate(ws: seq<Worker>, id: nat, w: Worker, p: Priority, k: nat)
    requires id < |ws|
    ensures HeldByAll(ws[id := w], p, k) + HeldBy(ws[id], p, k) == HeldByAll(ws, p, k) + HeldBy(w, p, k)
  {
    if id == 0 {
      assert ws[id := w][1..] == ws[1..];
    } else {
      HeldAfterUpdate(ws[1..], id - 1, w, p, k);
      assert ws[id := w][1..] == ws[1..][id - 1 := w];
    }
  }

  lemma {:induction false} HeldAtLeast(ws: seq<Worker>, id: nat, p: Priority, k: nat)
    requires id < |ws|
    ensures HeldByAll(ws, p, k) >= HeldBy(ws[id], p, k)
  {
    if id == 0 {
    } else {
      HeldAtLeast(ws[1..], id - 1, p, k);
    }
  }

  // ------------------------------------------------------------------
  // Invariants of one worker
  // ------------------------------------------------------------------

  /** `counts` is the per-class histogram of the heap and `total` its size. */
  ghost predicate Counted(w: Worker) {
    && w.total == |w.heap|
    && forall p :: w.counts.Get(p) == OfClass(w.heap, p)
  }

  /** Relation of the counts to the quota while the heap is being filled. */
  ghost predicate Filling(w: Worker) {
    forall p ::
      && (w.atTop.Get(p) > w.quota.Get(p) ==> w.counts.Get(p) == w.atTop.Get(p))
      && (w.atTop.Get(p) <= w.quota.Get(p) ==> w.counts.Get(p) <= w.quota.Get(p))
  }

  /** The item in hand has a place to go back to, unless the quota read at the loop
      top was already below the count at that time. */
  ghost predicate SlotCanReturn(w: Worker, slot: WorkItem) {
    slot.priority != High ==>
      (w.counts.Get(slot.priority) < w.quota.Get(slot.priority)
       <==> w.atTop.Get(slot.priority) <= w.quota.Get(slot.priority))
  }

  ghost predicate LocalInv(id: nat, w: Worker) {
    && Counted(w)
    && match w.phase
       case Top => true
       case Drain(turn) => Filling(w)
       case DrainFetched(turn, _) => Filling(w) && turn < |Classes(id)| && Room(w, Classes(id)[turn])
       case Poll(slot) => SlotCanReturn(w, slot)
       case PollFetched(slot, _) => SlotCanReturn(w, slot) && Room(w, High)
       case Guard(slot) => SlotCanReturn(w, slot)
       case GuardFetched(slot, _) => SlotCanReturn(w, slot) && Room(w, High) && slot.priority != High
       case Busy(_) => true
  }

  lemma AdmitKeeps(w: Worker, item: WorkItem)
    requires Counted(w)
    ensures Admit(w, item).Some? <==> Room(w, item.priority)
    ensures Admit(w, item).Some? ==> Counted(Admit(w, item).value)
  {
    if Admit(w, item).Some? {
      var v := Admit(w, item).value;
      assert v.heap[..|w.heap|] == w.heap;
    }
  }

  lemma PoppedKeeps(id: nat, w: Worker, i: nat, turn: nat)
    requires LocalInv(id, w) && w.phase == Drain(turn)
    ensures LocalInv(id, Popped(w, i))
  {
    if w.heap != [] && Earliest(w.heap, i) {
      OfClassWithout(w.heap, i, w.heap[i].priority);
      forall p ensures Popped(w, i).counts.Get(p) == OfClass(Without(w.heap, i), p) {
        OfClassWithout(w.heap, i, p);
      }
    }
  }

  lemma PlaceDrainedKeeps(id: nat, w: Worker, turn: nat, item: WorkItem)
    requires Counted(w) && Filling(w) && Room(w, item.priority)
    ensures PlaceDrained(w, turn, item).dropped == []
    ensures LocalInv(id, PlaceDrained(w, turn, item).worker)
  {
    AdmitKeeps(w, item);
  }

  /** The polled High packet itself always finds room. */
  lemma PlacePolledKeeps(id: nat, w: Worker, slot: WorkItem, item: WorkItem)
    requires Counted(w) && SlotCanReturn(w, slot) && Room(w, High) && item.priority == High
    ensures LocalInv(id, PlacePolled(w, slot, item).worker)
    ensures PlacePolled(w, slot, item).dropped
         == if Deadline(item.packet) < Deadline(slot.packet) && !Room(w, slot.priority) then [slot] else []
  {
    AdmitKeeps(w, slot);
    AdmitKeeps(w, item);
  }

  lemma PreemptKeeps(id: nat, w: Worker, slot: WorkItem, item: WorkItem)
    requires Counted(w)
    ensures LocalInv(id, Preempt(w, slot, Busy(item)).worker)
    ensures Preempt(w, slot, Busy(item)).dropped == if Room(w, slot.priority) then [] else [slot]
  {
    AdmitKeeps(w, slot);
  }

  lemma PlacingKeepsLocal(s: State, e: Event)
    requires e.DrainPlace? || e.PollPlace? || e.GuardPlace?
    requires e.id < |s.workers| && LocalInv(e.id, s.workers[e.id])
    ensures LocalInv(e.id, Step(s, e).workers[e.id])
  {
    var w := s.workers[e.id];
    if e.DrainPlace? && w.phase.DrainFetched? {
      PlaceDrainedKeeps(e.id, w, w.phase.turn, NextItem(s, Classes(e.id)[w.phase.turn], w.phase.packet));
    } else if e.PollPlace? && w.phase.PollFetched? {
      PlacePolledKeeps(e.id, w, w.phase.slot, NextItem(s, High, w.phase.packet));
    } else if e.GuardPlace? && w.phase.GuardFetched? {
      PreemptKeeps(e.id, w, w.phase.slot, NextItem(s, High, w.phase.packet));
    }
  }

  /** Every step keeps every worker's local invariant. */
  lemma StepKeepsLocal(s: State, e: Event, id: nat)
    requires id < |s.workers| && LocalInv(id, s.workers[id])
    ensures |Step(s, e).workers| == |s.workers|
    ensures LocalInv(id, Step(s, e).workers[id])
  {
    if !e.Arrive? && e.id == id {
      if e.DrainPlace? || e.PollPlace? || e.GuardPlace? {
        PlacingKeepsLocal(s, e);
      } else if e.Pop? && s.workers[id].phase.Drain? {
        PoppedKeeps(id, s.workers[id], e.index, s.workers[id].phase.turn);
      }
    }
  }

  // ------------------------------------------------------------------
  // The global invariant
  // ------------------------------------------------------------------

  /** Everything a tracker has received. */
  function DoneOf(t: Tracker): map<nat, Packet>
    requires |t.emitted| == t.nextEmit
  {
    t.pending + map k: nat | k < t.nextEmit :: t.emitted[k]
  }

  ghost predicate Sound(t: Tracker) {
    |t.emitted| == t.nextEmit && Represents(t, DoneOf(t))
  }

  lemma RepresentsDone(t: Tracker, done: map<nat, Packet>)
    requires Represents(t, done)
    ensures Sound(t) && DoneOf(t) == done
  {
    forall k: nat ensures k in DoneOf(t) <==> k in done {}
    assert DoneOf(t) == done;
  }

  lemma CompletedIsSound(t: Tracker, k: nat, p: Packet)
    requires Sound(t) && k !in DoneOf(t)
    ensures Sound(Completed(t, k, p))
    ensures DoneOf(Completed(t, k, p)) == DoneOf(t)[k := p]
  {
    CompleteRepresents(t, DoneOf(t), k, p);
    RepresentsDone(Completed(t, k, p), DoneOf(t)[k := p]);
  }

  /** A sound tracker holds a number in exactly one of its two places. */
  lemma DoneCopies(t: Tracker, k: nat)
    requires Sound(t)
    ensures CopiesInTracker(t, k) == if k in DoneOf(t) then 1 else 0
  {
  }

  lemma CompletedCopies(t: Tracker, k: nat, p: Packet, j: nat)
    requires Sound(t) && k !in DoneOf(t)
    ensures CopiesInTracker(Completed(t, k, p), j) == CopiesInTracker(t, j) + if j == k then 1 else 0
  {
    CompletedIsSound(t, k, p);
    DoneCopies(t, j);
    DoneCopies(Completed(t, k, p), j);
  }

  /** The item carries the packet that was given its number. */
  ghost predicate Genuine(numbered: Table<seq<Packet>>, item: WorkItem) {
    && item.sequence < |numbered.Get(item.priority)|
    && numbered.Get(item.priority)[item.sequence] == item.packet
  }

  ghost predicate OnePlace(s: State, p: Priority, k: nat) {
    Copies(s, p, k) == if k < |s.numbered.Get(p)| then 1 else 0
  }

  ghost predicate TrackerInv(t: Tracker, history: seq<Packet>) {
    && Sound(t)
    && forall k: nat :: k in DoneOf(t) ==> k < |history| && DoneOf(t)[k] == history[k]
  }

  ghost predicate WorkerInv(id: nat, w: Worker, numbered: Table<seq<Packet>>) {
    && LocalInv(id, w)
    && (forall item :: item in w.heap ==> Genuine(numbered, item))
    && (forall item :: item in InHand(w) ==> Genuine(numbered, item))
  }

  ghost predicate Inv(s: State) {
    && |s.workers| == |ASSIGNMENTS|
    && (forall id :: 0 <= id < |s.workers| ==> WorkerInv(id, s.workers[id], s.numbered))
    && (forall item :: item in s.lost ==> Genuine(s.numbered, item))
    && (forall p :: TrackerInv(s.trackers.Get(p), s.numbered.Get(p)))
    && (forall p, k: nat :: OnePlace(s, p, k))
  }

  lemma InitialInv()
    ensures Inv(Initial())
  {
    var s := Initial();
    forall p, k: nat ensures OnePlace(s, p, k) {
      assert HeldByAll(s.workers, p, k) == HeldBy(s.workers[0], p, k) + HeldByAll(s.workers[1..], p, k);
      assert HeldByAll(s.workers[1..], p, k) == HeldBy(s.workers[1], p, k) + HeldByAll(s.workers[2..], p, k);
      assert HeldByAll(s.workers[2..], p, k) == HeldBy(s.workers[2], p, k) + HeldByAll(s.workers[3..], p, k);
    }
  }

  /** The copies of every number move along with the worker that is replaced. */
  lemma CopiesMove(s: State, t: State, id: nat, p: Priority, k: nat)
    requires id < |s.workers| == |t.workers| && t.workers == s.workers[id := t.workers[id]]
    requires t.trackers == s.trackers
    ensures Copies(t, p, k) + HeldBy(s.workers[id], p, k) + CopiesIn(s.lost, p, k)
         == Copies(s, p, k) + HeldBy(t.workers[id], p, k) + CopiesIn(t.lost, p, k)
  {
    HeldAfterUpdate(s.workers, id, t.workers[id], p, k);
  }

  /** A step that only rearranges what one worker holds. */
  lemma RearrangeKeeps(s: State, t: State, id: nat)
    requires Inv(s) && id < |s.workers| == |t.workers|
    requires t.workers == s.workers[id := t.workers[id]] && t.trackers == s.trackers
    requires t.numbered == s.numbered && t.lost == s.lost
    requires LocalInv(id, t.workers[id])
    requires forall item :: item in t.workers[id].heap || item in InHand(t.workers[id]) ==>
      item in s.workers[id].heap || item in InHand(s.workers[id])
    requires forall p, k: nat :: HeldBy(t.workers[id], p, k) == HeldBy(s.workers[id], p, k)
    ensures Inv(t)
  {
    forall p, k: nat ensures OnePlace(t, p, k) {
      CopiesMove(s, t, id, p, k);
      assert OnePlace(s, p, k);
    }
  }

  lemma PlaceMovesCopies(s: State, id: nat, p: Priority, packet: Packet, placed: Placed, q: Priority, k: nat)
    requires id < |s.workers| && OnePlace(s, q, k)
    requires HeldBy(placed.worker, q, k) + CopiesIn(placed.dropped, q, k)
          == HeldBy(s.workers[id], q, k) + CopiesIn([NextItem(s, p, packet)], q, k)
    ensures OnePlace(Place(s, id, p, packet, placed), q, k)
  {
    CopiesMove(s, Place(s, id, p, packet, placed), id, q, k);
    CopiesAppend(s.lost, placed.dropped, q, k);
    CopiesSingle(NextItem(s, p, packet), q, k);
  }

  lemma GenuineGrows(numbered: Table<seq<Packet>>, p: Priority, packet: Packet, item: WorkItem)
    ensures Genuine(numbered, item) ==> Genuine(numbered.Set(p, numbered.Get(p) + [packet]), item)
    ensures Genuine(numbered.Set(p, numbered.Get(p) + [packet]), WorkItem(p, |numbered.Get(p)|, packet))
  {
  }

  /** A step that numbers one packet and places it, possibly dropping something. */
  lemma PlaceKeeps(s: State, id: nat, p: Priority, packet: Packet, placed: Placed)
    requires Inv(s) && id < |s.workers|
    requires LocalInv(id, placed.worker)
    requires forall item :: item in placed.worker.heap || item in InHand(placed.worker) || item in placed.dropped ==>
      item in s.workers[id].heap || item in InHand(s.workers[id]) || item == NextItem(s, p, packet)
    requires forall q, k: nat ::
               HeldBy(placed.worker, q, k) + CopiesIn(placed.dropped, q, k)
               == HeldBy(s.workers[id], q, k) + CopiesIn([NextItem(s, p, packet)], q, k)
    ensures Inv(Place(s, id, p, packet, placed))
  {
    var t := Place(s, id, p, packet, placed);
    forall item { GenuineGrows(s.numbered, p, packet, item); }
    forall i | 0 <= i < |t.workers| ensures WorkerInv(i, t.workers[i], t.numbered) {
      assert WorkerInv(i, s.workers[i], s.numbered) && WorkerInv(id, s.workers[id], s.numbered);
      assert i != id ==> t.workers[i] == s.workers[i];
    }
    forall q ensures TrackerInv(t.trackers.Get(q), t.numbered.Get(q)) {
      assert TrackerInv(s.trackers.Get(q), s.numbered.Get(q));
    }
    forall q, k: nat ensures OnePlace(t, q, k) {
      PlaceMovesCopies(s, id, p, packet, placed, q, k);
    }
  }

  lemma NotYetDone(s: State, id: nat, slot: WorkItem)
    requires Inv(s) && id < |s.workers| && s.workers[id].phase == Busy(slot)
    ensures Genuine(s.numbered, slot)
    ensures Sound(s.trackers.Get(slot.priority)) && slot.sequence !in DoneOf(s.trackers.Get(slot.priority))
  {
    assert slot in InHand(s.workers[id]);
    assert OnePlace(s, slot.priority, slot.sequence);
    HeldAtLeast(s.workers, id, slot.priority, slot.sequence);
    CopiesSingle(slot, slot.priority, slot.sequence);
    DoneCopies(s.trackers.Get(slot.priority), slot.sequence);
  }

  lemma HandOverMovesCopy(s: State, t: State, id: nat, slot: WorkItem, tracker: Tracker, p: Priority, k: nat)
    requires id < |s.workers| && s.workers[id].phase == Busy(slot) && OnePlace(s, p, k)
    requires t == WithWorker(s, id, s.workers[id].(phase := Top)).(trackers := s.trackers.Set(slot.priority, tracker))
    requires CopiesInTracker(tracker, k)
          == CopiesInTracker(s.trackers.Get(slot.priority), k) + if k == slot.sequence then 1 else 0
    ensures OnePlace(t, p, k)
  {
    HeldAfterUpdate(s.workers, id, t.workers[id], p, k);
    CopiesSingle(slot, p, k);
  }

  /** Handing the item in hand to a tracker that then has one more copy of its number. */
  lemma HandOverKeeps(s: State, t: State, id: nat, slot: WorkItem, tracker: Tracker)
    requires Inv(s) && id < |s.workers| && s.workers[id].phase == Busy(slot)
    requires t == WithWorker(s, id, s.workers[id].(phase := Top)).(trackers := s.trackers.Set(slot.priority, tracker))
    requires forall j: nat ::
               CopiesInTracker(tracker, j)
               == CopiesInTracker(s.trackers.Get(slot.priority), j) + if j == slot.sequence then 1 else 0
    requires TrackerInv(tracker, s.numbered.Get(slot.priority))
    ensures Inv(t)
  {
    forall i | 0 <= i < |t.workers| ensures WorkerInv(i, t.workers[i], t.numbered) {
      assert WorkerInv(i, s.workers[i], s.numbered);
      assert i != id ==> t.workers[i] == s.workers[i];
    }
    forall q ensures TrackerInv(t.trackers.Get(q), t.numbered.Get(q)) {
      assert t.trackers.Get(q) == if q == slot.priority then tracker else s.trackers.Get(q);
    }
    forall p, k: nat ensures OnePlace(t, p, k) {
      HandOverMovesCopy(s, t, id, slot, tracker, p, k);
    }
  }

  lemma FinishKeeps(s: State, id: nat, slot: WorkItem)
    requires Inv(s) && id < |s.workers| && s.workers[id].phase == Busy(slot)
    ensures Inv(Step(s, Finish(id)))
  {
    var before := s.trackers.Get(slot.priority);
    NotYetDone(s, id, slot);
    forall j: nat { CompletedCopies(before, slot.sequence, slot.packet, j); }
    CompletedIsSound(before, slot.sequence, slot.packet);
    HandOverKeeps(s, Step(s, Finish(id)), id, slot, Completed(before, slot.sequence, slot.packet));
  }

  lemma HeldAfterAdmit(w: Worker, item: WorkItem, p: Priority, k: nat)
    requires Admit(w, item).Some?
    ensures CopiesIn(Admit(w, item).value.heap, p, k) == CopiesIn(w.heap, p, k) + CopiesIn([item], p, k)
  {
    CopiesAppend(w.heap, [item], p, k);
  }

  lemma DrainPlaceKeeps(s: State, id: nat, turn: nat, packet: Packet)
    requires Inv(s) && id < |s.workers| && s.workers[id].phase == DrainFetched(turn, packet)
    ensures Inv(Step(s, DrainPlace(id)))
  {
    var w := s.workers[id];
    assert LocalInv(id, w);
    var item := NextItem(s, Classes(id)[turn], packet);
    PlaceDrainedKeeps(id, w, turn, item);
    AdmitKeeps(w, item);
    forall q, k: nat { HeldAfterAdmit(w, item, q, k); }
    PlaceKeeps(s, id, Classes(id)[turn], packet, PlaceDrained(w, turn, item));
  }

  lemma PollPlaceKeeps(s: State, id: nat, slot: WorkItem, packet: Packet)
    requires Inv(s) && id < |s.workers| && s.workers[id].phase == PollFetched(slot, packet)
    ensures Inv(Step(s, PollPlace(id)))
  {
    var w := s.workers[id];
    assert LocalInv(id, w);
    var item := NextItem(s, High, packet);
    PlacePolledKeeps(id, w, slot, item);
    var pushed := if Deadline(packet) < Deadline(slot.packet) then slot else item;
    if Admit(w, pushed).Some? {
      forall q, k: nat { HeldAfterAdmit(w, pushed, q, k); }
    }
    PlaceKeeps(s, id, High, packet, PlacePolled(w, slot, item));
  }

  lemma GuardPlaceKeeps(s: State, id: nat, slot: WorkItem, packet: Packet)
    requires Inv(s) && id < |s.workers| && s.workers[id].phase == GuardFetched(slot, packet)
    ensures Inv(Step(s, GuardPlace(id)))
  {
    var w := s.workers[id];
    assert LocalInv(id, w);
    var item := NextItem(s, High, packet);
    PreemptKeeps(id, w, slot, item);
    if Admit(w, slot).Some? {
      forall q, k: nat { HeldAfterAdmit(w, slot, q, k); }
    }
    PlaceKeeps(s, id, High, packet, Preempt(w, slot, Busy(item)));
  }

  lemma PoppedHolds(w: Worker, index: nat, turn: nat, p: Priority, k: nat)
    requires w.phase == Drain(turn)
    ensures HeldBy(Popped(w, index), p, k) == HeldBy(w, p, k)
  {
    if w.heap != [] && Earliest(w.heap, index) {
      CopiesWithout(w.heap, index, p, k);
      assert InHand(Popped(w, index)) == [w.heap[index]];
    }
  }

  lemma PopKeeps(s: State, id: nat, index: nat, turn: nat)
    requires Inv(s) && id < |s.workers| && s.workers[id].phase == Drain(turn)
    ensures Inv(Step(s, Pop(id, index)))
  {
    var w := s.workers[id];
    assert LocalInv(id, w);
    PoppedKeeps(id, w, index, turn);
    forall p, k: nat { PoppedHolds(w, index, turn, p, k); }
    forall item | item in Popped(w, index).heap || item in InHand(Popped(w, index)) ensures item in w.heap {}
    if turn >= |Classes(id)| {
      RearrangeKeeps(s, Step(s, Pop(id, index)), id);
    }
  }

  /** Steps that leave the heap, the hand and the numbers alone. */
  lemma QuietKeeps(s: State, e: Event)
    requires Inv(s) && !e.Arrive? && e.id < |s.workers|
    requires s.workers[e.id].heap == Step(s, e).workers[e.id].heap
    requires InHand(s.workers[e.id]) == InHand(Step(s, e).workers[e.id])
    requires Step(s, e).(inputs := s.inputs, workers := []) == s.(workers := [])
    ensures Inv(Step(s, e))
  {
    StepKeepsLocal(s, e, e.id);
    RearrangeKeeps(s, Step(s, e), e.id);
  }

  lemma StepKeepsInv(s: State, e: Event)
    requires Inv(s)
    ensures Inv(Step(s, e))
  {
    if e.Arrive? {
      forall p, k: nat ensures OnePlace(Step(s, e), p, k) { assert OnePlace(s, p, k); }
    } else if e.id < |s.workers| {
      match (e, s.workers[e.id].phase) {
        case (DrainPlace(id), DrainFetched(turn, packet)) => DrainPlaceKeeps(s, id, turn, packet);
        case (PollPlace(id), PollFetched(slot, packet)) => PollPlaceKeeps(s, id, slot, packet);
        case (GuardPlace(id), GuardFetched(slot, packet)) => GuardPlaceKeeps(s, id, slot, packet);
        case (Finish(id), Busy(slot)) => FinishKeeps(s, id, slot);
        case (Pop(id, index), Drain(turn)) => PopKeeps(s, id, index, turn);
        case _ => QuietKeeps(s, e);
      }
    }
  }

  lemma {:induction false} RunKeepsInv(s: State, es: seq<Event>)
    requires Inv(s)
    ensures Inv(Run(s, es))
  {
    if es == [] {
    } else {
      RunKeepsInv(s, es[..|es| - 1]);
      StepKeepsInv(Run(s, es[..|es| - 1]), es[|es| - 1]);
    }
  }

  // ------------------------------------------------------------------
  // Main results
  // ------------------------------------------------------------------

  /** In every interleaving each assigned number is in exactly one place and an
      unassigned number is nowhere. */
  lemma EveryNumberInExactlyOnePlace(es: seq<Event>, p: Priority, k: nat)
    ensures var s := Run(Initial(), es);
            Copies(s, p, k) == if k < |s.numbered.Get(p)| then 1 else 0
  {
    InitialInv();
    RunKeepsInv(Initial(), es);
    assert OnePlace(Run(Initial(), es), p, k);
  }

  /** What a class has emitted is exactly the first `nextEmit` packets in the order in
      which they were numbered; what it buffers lies strictly beyond. */
  lemma OutputFollowsAssignmentOrder(es: seq<Event>, p: Priority)
    ensures var s := Run(Initial(), es);
            var t, history := s.trackers.Get(p), s.numbered.Get(p);
            && t.nextEmit <= |history|
            && t.emitted == history[..t.nextEmit]
            && forall k: nat :: k in t.pending ==> t.nextEmit < k < |history| && t.pending[k] == history[k]
  {
    InitialInv();
    RunKeepsInv(Initial(), es);
    var s := Run(Initial(), es);
    var t := s.trackers.Get(p);
    assert TrackerInv(t, s.numbered.Get(p));
    assert t.nextEmit > 0 ==> t.nextEmit - 1 in DoneOf(t);
    assert forall k: nat :: k < t.nextEmit ==> k in DoneOf(t) && DoneOf(t)[k] == t.emitted[k];
  }

  /** `counts` and `total_count` describe the heap at every moment of every run. */
  lemma CountsDescribeTheHeap(es: seq<Event>, id: nat, p: Priority)
    requires id < |ASSIGNMENTS|
    ensures var s := Run(Initial(), es);
            && id < |s.workers|
            && s.workers[id].counts.Get(p) == OfClass(s.workers[id].heap, p)
            && s.workers[id].total == |s.workers[id].heap|
  {
    InitialInv();
    RunKeepsInv(Initial(), es);
  }

  /** The worker is done with draining and pops `item`. */
  ghost predicate PopsItem(id: nat, w: Worker, e: Event, item: WorkItem) {
    && e.Pop? && e.id == id && w.phase.Drain? && w.phase.turn >= |Classes(id)|
    && Earliest(w.heap, e.index) && w.heap[e.index] == item
  }

  /** No High packet waits, or the worker's heap has no room for one. */
  ghost predicate NothingToPoll(s: State, w: Worker) {
    s.inputs.high == [] || OfClass(w.heap, High) >= w.quota.high || |w.heap| >= w.limit
  }

  lemma StepStartsPolling(s: State, e: Event, id: nat, item: WorkItem)
    requires id < |s.workers| && LocalInv(id, s.workers[id]) && PopsItem(id, s.workers[id], e, item)
    ensures |Step(s, e).workers| == |s.workers|
    ensures Step(s, e).workers[id].phase
         == if item.priority == Medium && OfClass(s.workers[id].heap, High) > 0 then Guard(item) else Poll(item)
  {
  }

  lemma StepEndsPolling(s: State, e: Event, id: nat, slot: WorkItem)
    requires id < |s.workers| && LocalInv(id, s.workers[id]) && s.workers[id].phase != Guard(slot)
    requires |Step(s, e).workers| == |s.workers| && Step(s, e).workers[id].phase == Guard(slot)
    ensures || (e == PollStep(id) && s.workers[id].phase == Poll(slot) && NothingToPoll(s, s.workers[id]))
            || PopsItem(id, s.workers[id], e, slot)
  {
    var w := s.workers[id];
    if e == PollPlace(id) && w.phase.PollFetched? {
      PlacePolledKeeps(id, w, w.phase.slot, NextItem(s, High, w.phase.packet));
      AdmitKeeps(w, NextItem(s, High, w.phase.packet));
    }
  }

  /** In every run a worker stops polling the High channel for an item only once nothing
      is left to poll, and it skips the polling exactly for a Medium item popped while
      High items are left in its heap. */
  lemma PollingIsSkippedExactlyForMediumOverHigh(es: seq<Event>, e: Event, id: nat, slot: WorkItem)
    requires id < |ASSIGNMENTS|
    ensures var s, t := Run(Initial(), es), Run(Initial(), es + [e]);
            && |s.workers| == |t.workers| == |ASSIGNMENTS|
            && (s.workers[id].phase != Guard(slot) ==>
                  (t.workers[id].phase == Guard(slot)
                   <==> || (e == PollStep(id) && s.workers[id].phase == Poll(slot) && NothingToPoll(s, s.workers[id]))
                        || (PopsItem(id, s.workers[id], e, slot)
                            && slot.priority == Medium && OfClass(s.workers[id].heap, High) > 0)))
  {
    InitialInv();
    RunKeepsInv(Initial(), es);
    var s := Run(Initial(), es);
    assert (es + [e])[..|es|] == es;
    assert WorkerInv(id, s.workers[id], s.numbered);
    StepKeepsInv(s, e);
    if s.workers[id].phase != Guard(slot) {
      if PopsItem(id, s.workers[id], e, slot) {
        StepStartsPolling(s, e, id, slot);
      } else if Step(s, e).workers[id].phase == Guard(slot) {
        StepEndsPolling(s, e, id, slot);
      }
    }
  }

  lemma StepGuards(s: State, e: Event, id: nat, slot: WorkItem)
    requires id < |s.workers| && LocalInv(id, s.workers[id]) && s.workers[id].phase == Guard(slot)
    ensures |Step(s, e).workers| == |s.workers|
    ensures Step(s, e).workers[id].phase
         == if !e.GuardStep? || e.id != id then Guard(slot)
            else if e.closed || (slot.priority != Medium && slot.priority != Low) then Busy(slot)
            else if NothingToPoll(s, s.workers[id]) then Guard(slot)
            else GuardFetched(slot, s.inputs.high[0])
  {
  }

  /** In every run a High or best-effort item goes from polling straight to processing; a
      Medium or Low one waits until its window closes or a High packet is taken in its
      place. */
  lemma OnlyMediumAndLowAreGuarded(es: seq<Event>, e: Event, id: nat, slot: WorkItem)
    requires id < |ASSIGNMENTS|
    ensures var s, t := Run(Initial(), es), Run(Initial(), es + [e]);
            && |s.workers| == |t.workers| == |ASSIGNMENTS|
            && (s.workers[id].phase == Guard(slot) ==>
                  t.workers[id].phase
                  == if !e.GuardStep? || e.id != id then Guard(slot)
                     else if e.closed || (slot.priority != Medium && slot.priority != Low) then Busy(slot)
                     else if NothingToPoll(s, s.workers[id]) then Guard(slot)
                     else GuardFetched(slot, s.inputs.high[0]))
  {
    InitialInv();
    RunKeepsInv(Initial(), es);
    var s := Run(Initial(), es);
    assert (es + [e])[..|es|] == es;
    assert WorkerInv(id, s.workers[id], s.numbered);
    StepKeepsLocal(s, e, id);
    if s.workers[id].phase == Guard(slot) {
      StepGuards(s, e, id, slot);
    }
  }

  ghost predicate NoneOf(items: seq<WorkItem>, p: Priority) {
    forall item :: item in items ==> item.priority != p
  }

  ghost predicate IdleIn(s: State, p: Priority) {
    forall id :: 0 <= id < |s.workers| ==> NoneOf(s.workers[id].heap, p) && NoneOf(InHand(s.workers[id]), p)
  }

  lemma {:induction false} NoneMeansNoCopies(items: seq<WorkItem>, p: Priority, k: nat)
    requires NoneOf(items, p)
    ensures CopiesIn(items, p, k) == 0
  {
    if items == [] {
    } else {
      assert items[0] in items;
      NoneMeansNoCopies(items[1..], p, k);
    }
  }

  lemma {:induction false} IdleMeansNoCopies(ws: seq<Worker>, p: Priority, k: nat)
    requires forall id :: 0 <= id < |ws| ==> NoneOf(ws[id].heap, p) && NoneOf(InHand(ws[id]), p)
    ensures HeldByAll(ws, p, k) == 0
  {
    if ws == [] {
    } else {
      NoneMeansNoCopies(ws[0].heap, p, k);
      NoneMeansNoCopies(InHand(ws[0]), p, k);
      IdleMeansNoCopies(ws[1..], p, k);
    }
  }

  /** Once no worker holds a packet of class p, its output is complete, unless it has
      stopped at a number that was lost. */
  lemma IdleOutputIsComplete(es: seq<Event>, p: Priority)
    requires IdleIn(Run(Initial(), es), p)
    ensures var s := Run(Initial(), es);
            var t, history := s.trackers.Get(p), s.numbered.Get(p);
            || CopiesIn(s.lost, p, t.nextEmit) == 1
            || (t.nextEmit == |history| && t.emitted == history && t.pending == map[])
  {
    OutputFollowsAssignmentOrder(es, p);
    var s := Run(Initial(), es);
    var t := s.trackers.Get(p);
    EveryNumberInExactlyOnePlace(es, p, t.nextEmit);
    IdleMeansNoCopies(s.workers, p, t.nextEmit);
    assert t.nextEmit !in t.pending;
    if t.nextEmit == |s.numbered.Get(p)| {
      assert forall k: nat :: k !in t.pending;
    }
  }

  /** The only way to lose an item: preempting a non-High item whose class had, at the
      loop top, more items in the heap than the quota read there. */
  ghost predicate LosingStep(s: State, e: Event) {
    && (e.PollPlace? || e.GuardPlace?)
    && e.id < |s.workers|
    && var w := s.workers[e.id];
       && (e.PollPlace? ==> w.phase.PollFetched? && Deadline(w.phase.packet) < Deadline(w.phase.slot.packet))
       && (e.GuardPlace? ==> w.phase.GuardFetched?)
       && w.phase.slot.priority != High
       && w.atTop.Get(w.phase.slot.priority) > w.quota.Get(w.phase.slot.priority)
  }

  lemma LossExactlyWhenQuotaShrank(s: State, e: Event)
    requires Inv(s)
    ensures Step(s, e).lost != s.lost <==> LosingStep(s, e)
    ensures LosingStep(s, e) ==> Step(s, e).lost == s.lost + [s.workers[e.id].phase.slot]
  {
    if !e.Arrive? && e.id < |s.workers| {
      var w := s.workers[e.id];
      assert LocalInv(e.id, w);
      if e.DrainPlace? && w.phase.DrainFetched? {
        PlaceDrainedKeeps(e.id, w, w.phase.turn, NextItem(s, Classes(e.id)[w.phase.turn], w.phase.packet));
      } else if e.PollPlace? && w.phase.PollFetched? {
        PlacePolledKeeps(e.id, w, w.phase.slot, NextItem(s, High, w.phase.packet));
      } else if e.GuardPlace? && w.phase.GuardFetched? {
        PreemptKeeps(e.id, w, w.phase.slot, NextItem(s, High, w.phase.packet));
      }
    }
  }

  /** Every quota read in the run is at least the count it then applies to. */
  ghost predicate NeverShrinksBelowCounts(s: State, es: seq<Event>) {
    es != [] ==>
      var n := |es| - 1;
      && NeverShrinksBelowCounts(s, es[..n])
      && var e, t := es[n], Run(s, es[..n]);
         e.ReadQuotas? && e.id < |t.workers| && t.workers[e.id].phase.Top? ==>
           forall p :: t.workers[e.id].counts.Get(p) <= e.quota.Get(p)
  }

  ghost predicate Covered(s: State) {
    forall id :: 0 <= id < |s.workers| ==>
      s.workers[id].phase.Top? || forall p :: s.workers[id].atTop.Get(p) <= s.workers[id].quota.Get(p)
  }

  lemma StepStaysCovered(s: State, e: Event)
    requires Inv(s) && Covered(s)
    requires e.ReadQuotas? && e.id < |s.workers| && s.workers[e.id].phase.Top? ==>
               forall p :: s.workers[e.id].counts.Get(p) <= e.quota.Get(p)
    ensures Covered(Step(s, e)) && Step(s, e).lost == s.lost
  {
    LossExactlyWhenQuotaShrank(s, e);
    if !e.Arrive? && e.id < |s.workers| {
      assert Step(s, e).workers == s.workers[e.id := Step(s, e).workers[e.id]];
    }
  }

  lemma {:induction false} CoveredThroughout(es: seq<Event>)
    requires NeverShrinksBelowCounts(Initial(), es)
    ensures Covered(Run(Initial(), es)) && Run(Initial(), es).lost == []
  {
    if es == [] {
    } else {
      var n := |es| - 1;
      CoveredThroughout(es[..n]);
      InitialInv();
      RunKeepsInv(Initial(), es[..n]);
      StepStaysCovered(Run(Initial(), es[..n]), es[n]);
    }
  }

  /** With quotas that never shrink below the counts nothing is ever lost, so an idle
      class has emitted everything it was given. */
  lemma NothingLost(es: seq<Event>, p: Priority)
    requires NeverShrinksBelowCounts(Initial(), es) && IdleIn(Run(Initial(), es), p)
    ensures var s := Run(Initial(), es);
            && s.lost == []
            && s.trackers.Get(p).emitted == s.numbered.Get(p)
            && s.trackers.Get(p).pending == map[]
  {
    CoveredThroughout(es);
    IdleOutputIsComplete(es, p);
  }

  lemma {:induction false} LostStaysLost(s: State, fs: seq<Event>, p: Priority, k: nat)
    ensures CopiesIn(Run(s, fs).lost, p, k) >= CopiesIn(s.lost, p, k)
  {
    if fs == [] {
    } else {
      var t, e := Run(s, fs[..|fs| - 1]), fs[|fs| - 1];
      LostStaysLost(s, fs[..|fs| - 1], p, k);
      if t.lost <= Step(t, e).lost {
        var more := Step(t, e).lost[|t.lost|..];
        assert Step(t, e).lost == t.lost + more;
        CopiesAppend(t.lost, more, p, k);
      }
    }
  }

  /** A lost number blocks its class for good: whatever happens afterwards, the output
      never gets past it. */
  lemma LossBlocksTheClass(es: seq<Event>, fs: seq<Event>, p: Priority, k: nat)
    requires CopiesIn(Run(Initial(), es).lost, p, k) > 0
    ensures Run(Run(Initial(), es), fs).trackers.Get(p).nextEmit <= k
  {
    var s := Run(Initial(), es);
    InitialInv();
    RunKeepsInv(Initial(), es);
    RunKeepsInv(s, fs);
    LostStaysLost(s, fs, p, k);
    assert OnePlace(Run(s, fs), p, k);
  }

  // ------------------------------------------------------------------
  // Packets before they are numbered
  // ------------------------------------------------------------------

  /** How often packet x arrived on the channel of class p during a run. */
  function Arrivals(es: seq<Event>, p: Priority, x: Packet): nat {
    if es == [] then 0 else Arrivals(es[..|es| - 1], p, x) + if es[|es| - 1] == Arrive(p, x) then 1 else 0
  }

  /** The class and packet that worker `id` has received but not yet numbered. */
  function InTransfer(id: nat, w: Worker): Option<(Priority, Packet)> {
    match w.phase
    case DrainFetched(turn, packet) => if turn < |Classes(id)| then Some((Classes(id)[turn], packet)) else None
    case PollFetched(_, packet) => Some((High, packet))
    case GuardFetched(_, packet) => Some((High, packet))
    case _ => None
  }

  function Transfers(ws: seq<Worker>, p: Priority, x: Packet): nat {
    if ws == [] then 0
    else Transfers(ws[..|ws| - 1], p, x) + if InTransfer(|ws| - 1, ws[|ws| - 1]) == Some((p, x)) then 1 else 0
  }

  lemma {:induction false} TransfersAfterUpdate(ws: seq<Worker>, id: nat, w: Worker, p: Priority, x: Packet)
    requires id < |ws|
    ensures Transfers(ws[id := w], p, x) + (if InTransfer(id, ws[id]) == Some((p, x)) then 1 else 0)
         == Transfers(ws, p, x) + if InTransfer(id, w) == Some((p, x)) then 1 else 0
  {
    var n := |ws| - 1;
    if id == n {
      assert ws[id := w][..n] == ws[..n];
    } else {
      TransfersAfterUpdate(ws[..n], id, w, p, x);
      assert ws[id := w][..n] == ws[..n][id := w];
    }
  }

  function Occurrences(xs: seq<Packet>, x: Packet): nat {
    multiset(xs)[x]
  }

  lemma OccurrencesOfTail(xs: seq<Packet>, x: Packet)
    requires xs != []
    ensures Occurrences(xs, x) == Occurrences(xs[1..], x) + if xs[0] == x then 1 else 0
  {
    assert xs == [xs[0]] + xs[1..];
  }

  /** Packets x of class p in the channel, in transfer, or numbered. */
  function Stock(s: State, p: Priority, x: Packet): nat {
    Occurrences(s.inputs.Get(p), x) + Transfers(s.workers, p, x) + Occurrences(s.numbered.Get(p), x)
  }

  /** A receive moves the head of one channel into the worker's hands. */
  lemma FetchMoves(s: State, id: nat, q: Priority, next: Phase, p: Priority, x: Packet)
    requires id < |s.workers| && s.inputs.Get(q) != [] && InTransfer(id, s.workers[id]) == None
    requires InTransfer(id, s.workers[id].(phase := next)) == Some((q, s.inputs.Get(q)[0]))
    ensures Stock(Fetch(s, id, q, next), p, x) == Stock(s, p, x)
  {
    TransfersAfterUpdate(s.workers, id, s.workers[id].(phase := next), p, x);
    if p == q {
      OccurrencesOfTail(s.inputs.Get(q), x);
    }
  }

  /** Numbering takes the packet out of the worker's hands. */
  lemma PlaceMoves(s: State, id: nat, q: Priority, packet: Packet, placed: Placed, p: Priority, x: Packet)
    requires id < |s.workers| && InTransfer(id, s.workers[id]) == Some((q, packet))
    requires InTransfer(id, placed.worker) == None
    ensures Stock(Place(s, id, q, packet, placed), p, x) == Stock(s, p, x)
  {
    TransfersAfterUpdate(s.workers, id, placed.worker, p, x);
  }

  lemma QuietMoves(s: State, t: State, id: nat, p: Priority, x: Packet)
    requires id < |s.workers| == |t.workers| && t.workers == s.workers[id := t.workers[id]]
    requires InTransfer(id, s.workers[id]) == None && InTransfer(id, t.workers[id]) == None
    requires t.inputs == s.inputs && t.numbered == s.numbered
    ensures Stock(t, p, x) == Stock(s, p, x)
  {
    TransfersAfterUpdate(s.workers, id, t.workers[id], p, x);
  }

  lemma WorkerStepConserves(s: State, e: Event, p: Priority, x: Packet)
    requires !e.Arrive? && e.id < |s.workers|
    ensures Stock(Step(s, e), p, x) == Stock(s, p, x)
  {
    var w, id := s.workers[e.id], e.id;
    match (e, w.phase)
    case (DrainStep(_), Drain(turn)) =>
      if turn < |Classes(id)| {
        var q := Classes(id)[turn];
        if !Room(w, q) || s.inputs.Get(q) == [] {
          QuietMoves(s, Step(s, e), id, p, x);
        } else {
          FetchMoves(s, id, q, DrainFetched(turn, s.inputs.Get(q)[0]), p, x);
        }
      }
    case (DrainPlace(_), DrainFetched(turn, packet)) =>
      if turn < |Classes(id)| {
        var q := Classes(id)[turn];
        PlaceMoves(s, id, q, packet, PlaceDrained(w, turn, NextItem(s, q, packet)), p, x);
      }
    case (PollStep(_), Poll(slot)) =>
      if !Room(w, High) || s.inputs.high == [] {
        QuietMoves(s, Step(s, e), id, p, x);
      } else {
        FetchMoves(s, id, High, PollFetched(slot, s.inputs.high[0]), p, x);
      }
    case (PollPlace(_), PollFetched(slot, packet)) =>
      PlaceMoves(s, id, High, packet, PlacePolled(w, slot, NextItem(s, High, packet)), p, x);
    case (GuardStep(_, closed), Guard(slot)) =>
      if closed || (slot.priority != Medium && slot.priority != Low) {
        QuietMoves(s, Step(s, e), id, p, x);
      } else if Room(w, High) && s.inputs.high != [] {
        FetchMoves(s, id, High, GuardFetched(slot, s.inputs.high[0]), p, x);
      }
    case (GuardPlace(_), GuardFetched(slot, packet)) =>
      PlaceMoves(s, id, High, packet, Preempt(w, slot, Busy(NextItem(s, High, packet))), p, x);
    case (ReadQuotas(_, _, _), Top) => QuietMoves(s, Step(s, e), id, p, x);
    case (Pop(_, _), Drain(_)) => QuietMoves(s, Step(s, e), id, p, x);
    case (Finish(_), Busy(_)) => QuietMoves(s, Step(s, e), id, p, x);
    case _ =>
  }

  /** In every run each packet that arrived waits in its channel, is being transferred by
      one worker, or has been numbered: one of the three, as often as it arrived. */
  lemma {:induction false} ArrivalsAreConserved(es: seq<Event>, p: Priority, x: Packet)
    ensures Stock(Run(Initial(), es), p, x) == Arrivals(es, p, x)
  {
    if es == [] {
      InitialStock(p, x);
    } else {
      var e, s := es[|es| - 1], Run(Initial(), es[..|es| - 1]);
      ArrivalsAreConserved(es[..|es| - 1], p, x);
      if e.Arrive? {
        ArriveAdds(s, e.priority, e.packet, p, x);
      } else if e.id < |s.workers| {
        WorkerStepConserves(s, e, p, x);
      }
    }
  }

  lemma InitialStock(p: Priority, x: Packet)
    ensures Stock(Initial(), p, x) == 0
  {
    var ws := [IDLE, IDLE, IDLE];
    assert ws[..2] == [IDLE, IDLE] && [IDLE, IDLE][..1] == [IDLE] && [IDLE][..0] == [];
    assert Transfers([IDLE], p, x) == 0 && Transfers([IDLE, IDLE], p, x) == 0;
  }

  lemma ArriveAdds(s: State, q: Priority, packet: Packet, p: Priority, x: Packet)
    ensures Stock(Step(s, Arrive(q, packet)), p, x) == Stock(s, p, x) + if q == p && packet == x then 1 else 0
  {
    var t := Step(s, Arrive(q, packet));
    assert t.inputs.Get(p) == if p == q then s.inputs.Get(p) + [packet] else s.inputs.Get(p);
  }
}
