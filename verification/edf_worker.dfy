/** One worker of the multi-worker EDF scheduler: the loop body of `run_worker`. */
module WorkerLoop {
  import opened Pipeline
  import opened Heaps

  /** Deadlines of the High items in `items` never decrease. */
  ghost predicate HighInOrder(items: seq<WorkItem>) {
    forall i, j :: 0 <= i < j < |items| && items[i].priority == High && items[j].priority == High ==>
      DeadlineOf(items[i]) <= DeadlineOf(items[j])
  }

  // ------------------------------------------------------------------
  // Environment: the clock and the input channels
  // ------------------------------------------------------------------

  /** Monotone clock; `gap` bounds the time between two consecutive readings. */
  class Clock {
    const gap: nat
    var time: nat

    constructor (gap: nat)
      requires gap > 0
      ensures this.gap == gap
    {
      this.gap := gap;
      time := 0;
    }

    ghost predicate Valid() { gap > 0 }

    method Now() returns (t: nat)
      requires Valid()
      modifies this
      ensures t == time && old(time) < time <= old(time) + gap
    {
      var step: nat := *;
      time := time + if 0 < step <= gap then step else 1;
      t := time;
    }
  }

  /** A receive on the channel of a class that found it empty: after how many items
      received, when, and whether the channel was disconnected. */
  datatype Miss = Miss(priority: Priority, after: nat, time: nat, closed: bool)

  /** The input channels as one worker sees them: other threads fill and empty them, so
      a receive may return any packet that has already entered the pipeline. `log`
      records what this worker received, already numbered, `misses` what it did not. */
  class Inbox {
    const clock: Clock
    ghost var log: seq<WorkItem>
    ghost var misses: seq<Miss>

    constructor (clock: Clock)
      ensures this.clock == clock && log == [] && misses == []
    {
      this.clock := clock;
      log, misses := [], [];
    }

    method TryRecv(p: Priority) returns (r: Option<WorkItem>, closed: bool)
      requires clock.Valid()
      modifies this, clock
      ensures old(clock.time) < clock.time <= old(clock.time) + clock.gap
      ensures r.None? ==> log == old(log) && misses == old(misses) + [Miss(p, |log|, clock.time, closed)]
      ensures r.Some? ==>
                && !closed && log == old(log) + [r.value] && misses == old(misses)
                && r.value.priority == p
                && r.value.packet.timestamp <= clock.time
    {
      var now := clock.Now();
      var item: WorkItem := *;
      var empty: bool := *;
      if !empty && item.priority == p && item.packet.timestamp <= now {
        r, closed := Some(item), false;
        log := log + [item];
      } else {
        r, closed := None, *;
        misses := misses + [Miss(p, |log|, now, closed)];
      }
    }
  }

  /** After position `since` a receive on class p found the channel empty, and no item of
      the class was received later. */
  ghost predicate RanDry(log: seq<WorkItem>, misses: seq<Miss>, since: nat, p: Priority) {
    exists k :: since <= k < |misses| && misses[k].priority == p
                && forall i :: misses[k].after <= i < |log| ==> log[i].priority != p
  }

  /** The reasons to stop receiving class p: a quota, the total limit, an empty channel. */
  ghost predicate Exhausted(g: Settings, counts: Table<nat>, total: nat, log: seq<WorkItem>, misses: seq<Miss>,
                            since: nat, p: Priority) {
    counts.Get(p) >= g.quota.Get(p) || total >= g.limit || RanDry(log, misses, since, p)
  }

  /** Whether the guard window of `slot` is still open at a time, or over. */
  ghost predicate Open(g: Settings, slot: WorkItem, time: nat) {
    ThresholdOf(g, slot).Some? && time < slot.packet.timestamp + ThresholdOf(g, slot).value
  }

  ghost predicate WindowOver(g: Settings, slot: WorkItem, time: nat) {
    ThresholdOf(g, slot).None? || Monus(time, slot.packet.timestamp) >= ThresholdOf(g, slot).value
  }

  /** Since position `since` the High channel was found disconnected. */
  ghost predicate Disconnected(misses: seq<Miss>, since: nat) {
    exists k :: since <= k < |misses| && misses[k].priority == High && misses[k].closed
  }

  /** Since position `since` class p was found empty no longer than `slack` before `time`. */
  ghost predicate PolledUntil(misses: seq<Miss>, since: nat, p: Priority, time: nat, slack: nat) {
    exists k :: since <= k < |misses| && misses[k].priority == p && time <= misses[k].time + slack
  }

  lemma PolledNow(misses: seq<Miss>, since: nat, p: Priority, now: nat, gap: nat)
    requires since < |misses| && misses[|misses| - 1].priority == p && now <= misses[|misses| - 1].time + gap
    ensures PolledUntil(misses, since, p, now, gap)
  {
  }

  /** The window of `slot` is certain to see a poll if it is open for three more clock gaps
      and a gap is shorter than a slice. */
  ghost predicate MustPoll(g: Settings, slot: WorkItem, time: nat, gap: nat) {
    slot.packet.timestamp <= time && Open(g, slot, time + 3 * gap) && gap < g.sliceNs
  }

  lemma PolledStill(misses: seq<Miss>, since: nat, p: Priority, time: nat, slack: nat, earlier: nat, later: nat,
                    more: nat)
    requires PolledUntil(misses, since, p, time, slack) && earlier <= since && later + slack <= time + more
    ensures PolledUntil(misses, earlier, p, later, more)
  {
    var k :| since <= k < |misses| && misses[k].priority == p && time <= misses[k].time + slack;
    assert later <= misses[k].time + more;
  }

  /** A slice that polled to its end, or one too short to poll. */
  lemma PollsContinue(before: seq<Miss>, after: seq<Miss>, since: nat, last: nat, now: nat, again: nat, gap: nat)
    requires before <= after && since <= |before| && now <= again <= now + gap
    ensures PolledUntil(after, |before|, High, now, gap) ==>
              PolledUntil(after, since, High, again, 2 * gap) && PolledUntil(after, since, High, again, 5 * gap)
    ensures PolledUntil(before, since, High, last, 2 * gap) && again <= last + 3 * gap ==>
              PolledUntil(after, since, High, again, 5 * gap)
  {
    if PolledUntil(after, |before|, High, now, gap) {
      PolledStill(after, |before|, High, now, gap, since, again, 2 * gap);
      PolledStill(after, |before|, High, now, gap, since, again, 5 * gap);
    }
    if PolledUntil(before, since, High, last, 2 * gap) && again <= last + 3 * gap {
      var k :| since <= k < |before| && before[k].priority == High && last <= before[k].time + 2 * gap;
      assert after[k] == before[k];
    }
  }

  /** Receiving another class does not change that. */
  lemma StaysExhausted(g: Settings, counts: Table<nat>, total: nat, log: seq<WorkItem>, misses: seq<Miss>, since: nat,
                       counts': Table<nat>, total': nat, more: seq<WorkItem>, misses': seq<Miss>, p: Priority)
    requires Exhausted(g, counts, total, log, misses, since, p)
    requires counts.Get(p) <= counts'.Get(p) && total <= total' && misses <= misses'
    requires forall item :: item in more ==> item.priority != p
    ensures Exhausted(g, counts', total', log + more, misses', since, p)
  {
    if RanDry(log, misses, since, p) {
      var k :| since <= k < |misses| && misses[k].priority == p
               && forall i :: misses[k].after <= i < |log| ==> log[i].priority != p;
      assert misses'[k] == misses[k];
      forall i | misses[k].after <= i < |log + more| ensures (log + more)[i].priority != p {
        if i >= |log| {
          assert (log + more)[i] in more;
        }
      }
    }
  }

  lemma ExhaustedBefore(g: Settings, counts: Table<nat>, total: nat, log: seq<WorkItem>, misses: seq<Miss>, since: nat,
                        earlier: nat, p: Priority)
    requires Exhausted(g, counts, total, log, misses, since, p) && earlier <= since
    ensures Exhausted(g, counts, total, log, misses, earlier, p)
  {
  }

  /** Quotas and guard settings read at the loop top. */
  datatype Settings = Settings(quota: Table<nat>, limit: nat, guardNs: Table<nat>, sliceNs: nat)

  function ThresholdOf(g: Settings, slot: WorkItem): Option<nat> {
    GuardThreshold(slot.priority, g.guardNs.Get(slot.priority), slot.packet.budget)
  }

  lemma RestIsDueLater(heap: seq<WorkItem>, i: nat)
    requires Earliest(heap, i)
    ensures DueFirst(heap[i], Without(heap, i))
    ensures multiset(Without(heap, i)) + multiset{heap[i]} == multiset(heap)
  {
    WithoutItems(heap, i);
    forall item | item in Without(heap, i) ensures DeadlineOf(heap[i]) <= DeadlineOf(item) {
      assert item in heap;
    }
  }

  // ------------------------------------------------------------------
  // The worker
  // ------------------------------------------------------------------

  class EdfWorker {
    const classes: seq<Priority>
    var heap: seq<WorkItem>
    var counts: Table<nat>
    var total: nat
    var backlog: nat
    var shared: Table<int>    // per-class counters read by the controller

    constructor (classes: seq<Priority>)
      requires High in classes
      ensures Valid() && heap == [] && shared == Uniform(0) && this.classes == classes
    {
      this.classes := classes;
      heap, counts, total, backlog, shared := [], Uniform(0), 0, 0, Uniform(0);
    }

    /** `counts` is the per-class histogram of the heap and `total` its size. */
    ghost predicate Valid()
      reads this
    {
      && High in classes
      && total == |heap|
      && forall p :: counts.Get(p) == OfClass(heap, p)
    }

    /** The worker as a value. */
    ghost function Snap(): Snapshot
      reads this
    {
      Snapshot(heap, counts, shared)
    }

    method PushWithCapacity(g: Settings, item: WorkItem) returns (pushed: bool)
      requires Valid()
      modifies this`heap, this`counts, this`total
      ensures Valid()
      ensures pushed <==> old(counts).Get(item.priority) < g.quota.Get(item.priority) && old(total) < g.limit
      ensures heap == if pushed then old(heap) + [item] else old(heap)
      ensures forall q :: counts.Get(q) == old(counts).Get(q) + if pushed && q == item.priority then 1 else 0
    {
      var p := item.priority;
      if g.quota.Get(p) == 0 {
        return false;
      }
      if total >= g.limit || counts.Get(p) >= g.quota.Get(p) {
        return false;
      }
      heap := heap + [item];
      OfClassAppend(old(heap), item);
      counts := counts.Set(p, counts.Get(p) + 1);
      total := total + 1;
      pushed := true;
    }

    method AddShared(p: Priority, delta: int)
      modifies this`shared
      ensures shared == old(shared).Set(p, old(shared).Get(p) + delta)
    {
      shared := shared.Set(p, shared.Get(p) + delta);
    }

    /** Step 1 for one class: take packets until the channel is empty or a quota is met. */
    method DrainClass(g: Settings, p: Priority, inbox: Inbox) returns (ghost taken: seq<WorkItem>)
      requires Valid() && inbox.clock.Valid()
      modifies this`heap, this`counts, this`total, this`shared, inbox, inbox.clock
      ensures Valid() && heap == old(heap) + taken && inbox.log == old(inbox.log) + taken
      ensures old(inbox.misses) <= inbox.misses && forall item :: item in taken ==> item.priority == p
      ensures Exhausted(g, counts, total, inbox.log, inbox.misses, |old(inbox.misses)|, p)
      ensures forall q :: q != p ==> counts.Get(q) == old(counts).Get(q)
      ensures old(counts).Get(p) <= counts.Get(p) <= Max(old(counts).Get(p), g.quota.Get(p))
      ensures forall q :: Snap().Drift(q) == old(Snap()).Drift(q)
    {
      taken := [];
      while counts.Get(p) < g.quota.Get(p) && total < g.limit
        invariant Valid() && heap == old(heap) + taken && inbox.log == old(inbox.log) + taken
        invariant inbox.misses == old(inbox.misses) && forall item :: item in taken ==> item.priority == p
        invariant forall q :: q != p ==> counts.Get(q) == old(counts).Get(q)
        invariant old(counts).Get(p) <= counts.Get(p) <= Max(old(counts).Get(p), g.quota.Get(p))
        invariant forall q :: Snap().Drift(q) == old(Snap()).Drift(q)
        decreases g.quota.Get(p) - counts.Get(p)
      {
        var r, closed := inbox.TryRecv(p);
        if r.None? {
          assert inbox.misses[|old(inbox.misses)|] == Miss(p, |inbox.log|, inbox.clock.time, closed);
          break;
        }
        assert inbox.log == old(inbox.log) + (taken + [r.value]);
        assert heap + [r.value] == old(heap) + (taken + [r.value]);
        taken := taken + [r.value];
        var pushed := Enqueue(g, r.value);
        if !pushed {
          break;
        }
      }
    }

    /** Step 1: drain every class this worker serves, in the order of its assignment. */
    method Drain(g: Settings, inbox: Inbox) returns (ghost taken: seq<WorkItem>)
      requires Valid() && inbox.clock.Valid()
      modifies this, inbox, inbox.clock
      ensures Valid() && heap == old(heap) + taken && inbox.log == old(inbox.log) + taken
      ensures old(inbox.misses) <= inbox.misses
      ensures forall q :: q in classes ==> Exhausted(g, counts, total, inbox.log, inbox.misses, |old(inbox.misses)|, q)
      ensures forall q :: old(counts).Get(q) <= counts.Get(q) <= Max(old(counts).Get(q), g.quota.Get(q))
      ensures forall q :: Snap().Drift(q) == old(Snap()).Drift(q)
      ensures backlog == |heap|
    {
      taken := [];
      for i := 0 to |classes|
        invariant Valid() && heap == old(heap) + taken && inbox.log == old(inbox.log) + taken
        invariant old(inbox.misses) <= inbox.misses
        invariant forall k :: 0 <= k < i ==>
                    Exhausted(g, counts, total, inbox.log, inbox.misses, |old(inbox.misses)|, classes[k])
        invariant forall q :: old(counts).Get(q) <= counts.Get(q) <= Max(old(counts).Get(q), g.quota.Get(q))
        invariant forall q :: Snap().Drift(q) == old(Snap()).Drift(q)
      {
        ghost var counts0, total0, log, misses := counts, total, inbox.log, inbox.misses;
        ghost var more := DrainClass(g, classes[i], inbox);
        assert heap == old(heap) + (taken + more) && inbox.log == old(inbox.log) + (taken + more);
        forall k | 0 <= k <= i
          ensures Exhausted(g, counts, total, inbox.log, inbox.misses, |old(inbox.misses)|, classes[k])
        {
          if classes[k] == classes[i] {
            ExhaustedBefore(g, counts, total, inbox.log, inbox.misses, |misses|, |old(inbox.misses)|, classes[k]);
          } else {
            StaysExhausted(g, counts0, total0, log, misses, |old(inbox.misses)|, counts, total, more, inbox.misses,
                           classes[k]);
          }
        }
        taken := taken + more;
      }
      backlog := total;
    }

    /** Take item i out of the heap. */
    method RemoveAt(i: nat)
      requires Valid() && i < |heap|
      modifies this`heap, this`counts, this`total, this`shared
      ensures Valid() && heap == old(Without(heap, i))
      ensures forall q :: old(counts).Get(q) == counts.Get(q) + if q == old(heap[i].priority) then 1 else 0
      ensures forall q :: Snap().Drift(q) == old(Snap()).Drift(q)
    {
      var p := heap[i].priority;
      forall q { OfClassWithout(heap, i, q); }
      heap := Without(heap, i);
      counts := counts.Set(p, counts.Get(p) - 1);
      total := total - 1;
      AddShared(p, -1);
    }

    /** Step 2: take an item with the earliest deadline. */
    method PopEarliest() returns (slot: WorkItem)
      requires Valid() && heap != []
      modifies this`heap, this`counts, this`total, this`shared
      ensures Valid()
      ensures multiset(heap) + multiset{slot} == old(multiset(heap))
      ensures DueFirst(slot, heap)
      ensures forall q :: old(counts).Get(q) == counts.Get(q) + if q == slot.priority then 1 else 0
      ensures forall q :: Snap().Drift(q) == old(Snap()).Drift(q)
    {
      EarliestExists(heap);
      var i: nat :| i < |heap| && Earliest(heap, i);
      slot := heap[i];
      RestIsDueLater(heap, i);
      RemoveAt(i);
    }

    /** Put a displaced item back, crediting the class of the item popped first. */
    method Requeue(g: Settings, slot: WorkItem, first: Priority) returns (requeued: bool)
      requires Valid()
      modifies this`heap, this`counts, this`total, this`shared
      ensures Valid()
      ensures requeued <==> old(counts).Get(slot.priority) < g.quota.Get(slot.priority) && old(total) < g.limit
      ensures heap == if requeued then old(heap) + [slot] else old(heap)
      ensures forall q :: counts.Get(q) == old(counts).Get(q) + if requeued && q == slot.priority then 1 else 0
      ensures forall q :: Snap().Drift(q) == old(Snap()).Drift(q) + Shift(first, slot.priority, requeued, q)
    {
      requeued := PushWithCapacity(g, slot);
      AddShared(first, 1);
    }

    /** Queue an item that does not displace anything. */
    method Enqueue(g: Settings, item: WorkItem) returns (pushed: bool)
      requires Valid()
      modifies this`heap, this`counts, this`total, this`shared
      ensures Valid()
      ensures pushed <==> old(counts).Get(item.priority) < g.quota.Get(item.priority) && old(total) < g.limit
      ensures heap == if pushed then old(heap) + [item] else old(heap)
      ensures forall q :: counts.Get(q) == old(counts).Get(q) + if pushed && q == item.priority then 1 else 0
      ensures forall q :: Snap().Drift(q) == old(Snap()).Drift(q)
    {
      pushed := PushWithCapacity(g, item);
      if pushed {
        AddShared(item.priority, 1);
      }
    }

    /** One polled High packet: it displaces the item in hand if it is due earlier. */
    method Offer(g: Settings, slot: WorkItem, first: Priority, high: WorkItem)
        returns (next: WorkItem, ghost lost: seq<WorkItem>)
      requires Valid() && DueFirst(slot, heap)
      requires high.priority == High && counts.high < g.quota.high && total < g.limit
      modifies this`heap, this`counts, this`total, this`shared
      ensures Valid() && Offered(g, first, old(Snap()), Snap(), slot, next, high, lost)
      ensures if next == slot || slot.priority == High then counts.high == old(counts).high + 1
              else next.priority == High
    {
      next, lost := slot, [];
      if DeadlineOf(high) < DeadlineOf(slot) {
        var requeued := Requeue(g, slot, first);
        if !requeued {
          lost := [slot];
        }
        next := high;
      } else {
        var pushed := Enqueue(g, high);
      }
    }

    /** Step 3: High packets that just arrived displace a later deadline at once.
        `preemptions` counts displacements, `dropped` is what a failed requeue discards
        and `arrived` what was received. */
    method PollHigh(g: Settings, popped: WorkItem, inbox: Inbox)
        returns (slot: WorkItem, ghost preemptions: nat, ghost dropped: seq<WorkItem>, ghost arrived: seq<WorkItem>)
      requires Valid() && inbox.clock.Valid() && DueFirst(popped, heap)
      modifies this`heap, this`counts, this`total, this`shared, inbox, inbox.clock
      ensures Valid() && inbox.log == old(inbox.log) + arrived && old(inbox.misses) <= inbox.misses
      ensures Polled(g, popped, old(Snap()), Snap(), slot, preemptions, dropped, arrived)
      ensures Exhausted(g, counts, total, inbox.log, inbox.misses, |old(inbox.misses)|, High)
    {
      slot, preemptions, dropped, arrived := popped, 0, [], [];
      ghost var start := Snap();
      PolledStart(g, popped, start);
      while counts.high < g.quota.high && total < g.limit
        invariant Valid() && inbox.log == old(inbox.log) + arrived && inbox.misses == old(inbox.misses)
        invariant Polled(g, popped, start, Snap(), slot, preemptions, dropped, arrived)
        decreases if slot.priority == High then 0 else 1, g.quota.high - counts.high
      {
        var r, closed := inbox.TryRecv(High);
        if r.None? {
          assert inbox.misses[|old(inbox.misses)|] == Miss(High, |inbox.log|, inbox.clock.time, closed);
          break;
        }
        AppendAssociative(old(inbox.log), arrived, [r.value]);
        ghost var lost: seq<WorkItem>;
        ghost var before, previous := Snap(), slot;
        slot, lost := Offer(g, slot, popped.priority, r.value);
        PolledStep(g, popped, start, before, Snap(), previous, slot, preemptions, dropped, arrived, r.value, lost);
        arrived, dropped := arrived + [r.value], dropped + lost;
        preemptions := if slot == previous then preemptions else preemptions + 1;
      }
    }

    /** One slice of the guard window: poll High until the clock reaches `closes`, or the
        channel turns out to be disconnected. */
    method GuardSlice(g: Settings, slot: WorkItem, first: Priority, inbox: Inbox, closes: nat)
        returns (stop: bool, next: WorkItem, ghost lost: seq<WorkItem>, ghost arrived: seq<WorkItem>)
      requires Valid() && inbox.clock.Valid() && slot.priority != High
      modifies this`heap, this`counts, this`total, this`shared, inbox, inbox.clock
      ensures Valid() && inbox.log == old(inbox.log) + arrived && old(inbox.misses) <= inbox.misses
      ensures inbox.clock.time > old(inbox.clock.time)
      ensures stop <==> arrived != [] || Disconnected(inbox.misses, |old(inbox.misses)|)
      ensures stop && arrived == [] ==>
                PolledUntil(inbox.misses, |old(inbox.misses)|, High, inbox.clock.time, inbox.clock.gap)
      ensures arrived == [] ==> next == slot && lost == [] && Snap() == old(Snap())
      ensures arrived == [] && counts.high < g.quota.high && total < g.limit ==>
                && (stop || inbox.clock.time >= closes)
                && (inbox.clock.time <= old(inbox.clock.time) + inbox.clock.gap
                    || PolledUntil(inbox.misses, |old(inbox.misses)|, High, inbox.clock.time, inbox.clock.gap))
      ensures arrived != [] ==> arrived == [next] && GuardPreempted(g, first, old(Snap()), Snap(), slot, next, lost)
      ensures arrived != [] ==> next.packet.timestamp < closes + inbox.clock.gap
      ensures arrived != [] ==> old(counts).high < g.quota.high && old(total) < g.limit
    {
      stop, next, lost, arrived := false, slot, [], [];
      var now := inbox.clock.Now();
      while now < closes
        invariant Valid() && Snap() == old(Snap()) && inbox.log == old(inbox.log) && old(inbox.misses) <= inbox.misses
        invariant !Disconnected(inbox.misses, |old(inbox.misses)|)
        invariant now == inbox.clock.time > old(inbox.clock.time)
        invariant now <= old(inbox.clock.time) + inbox.clock.gap
                  || PolledUntil(inbox.misses, |old(inbox.misses)|, High, now, inbox.clock.gap)
        decreases Monus(closes, now)
      {
        if counts.high >= g.quota.high || total >= g.limit {
          break;
        }
        var r, closed := inbox.TryRecv(High);
        if r.Some? {
          var requeued := Requeue(g, slot, first);
          lost := if requeued then [] else [slot];
          stop, next, arrived := true, r.value, [r.value];
          return;
        }
        if closed {
          assert inbox.misses[|inbox.misses| - 1].closed;
          PolledNow(inbox.misses, |old(inbox.misses)|, High, inbox.clock.time, inbox.clock.gap);
          stop := true;
          return;
        }
        now := inbox.clock.Now();
        PolledNow(inbox.misses, |old(inbox.misses)|, High, now, inbox.clock.gap);
      }
    }

    /** Step 4: a Medium or Low item early in its budget waits briefly for High packets.
        The deadlines of the two items are never compared here. Without an arrival the
        window stays open until the threshold is reached or the channel is disconnected, and
        as long as there is room and clock readings are closer together than a slice, High
        is polled to the end. */
    method GuardWindow(g: Settings, slot: WorkItem, first: Priority, inbox: Inbox)
        returns (next: WorkItem, ghost lost: seq<WorkItem>, ghost arrived: seq<WorkItem>)
      requires Valid() && inbox.clock.Valid()
      modifies this`heap, this`counts, this`total, this`shared, inbox, inbox.clock
      ensures Valid() && inbox.log == old(inbox.log) + arrived && old(inbox.misses) <= inbox.misses
      ensures arrived == [] ==> next == slot && lost == [] && Snap() == old(Snap())
      ensures arrived == [] ==> WindowOver(g, slot, inbox.clock.time) || Disconnected(inbox.misses, |old(inbox.misses)|)
      ensures arrived == [] && MustPoll(g, slot, old(inbox.clock.time), inbox.clock.gap)
              && counts.high < g.quota.high && total < g.limit ==>
                PolledUntil(inbox.misses, |old(inbox.misses)|, High, inbox.clock.time, 5 * inbox.clock.gap)
      ensures arrived != [] ==> arrived == [next] && GuardPreempted(g, first, old(Snap()), Snap(), slot, next, lost)
      ensures arrived != [] ==> InTime(g, inbox.clock.gap, slot, next)
      ensures arrived != [] ==> old(counts).high < g.quota.high && old(total) < g.limit
    {
      next, lost, arrived := slot, [], [];
      var ingress := slot.packet.timestamp;
      var read := inbox.clock.Now();
      var threshold := ThresholdOf(g, slot);
      if threshold.None? {
        return;
      }
      var elapsed := Monus(read, ingress);
      ghost var last, since, gap := read, |old(inbox.misses)|, inbox.clock.gap;
      ghost var polling :=
        MustPoll(g, slot, old(inbox.clock.time), gap) && counts.high < g.quota.high && total < g.limit;
      while elapsed < threshold.value
        invariant Valid() && Snap() == old(Snap()) && inbox.log == old(inbox.log) && old(inbox.misses) <= inbox.misses
        invariant next == slot && lost == [] && arrived == []
        invariant last == inbox.clock.time && elapsed == Monus(last, ingress) && last >= read
        invariant polling && last != read ==>
                    PolledUntil(inbox.misses, since, High, last, if elapsed < threshold.value then 2 * gap else 5 * gap)
        decreases Monus(ingress + threshold.value, last)
      {
        var window := Min(threshold.value - elapsed, Max(g.sliceNs, 1));
        var opens := inbox.clock.Now();
        ghost var misses := inbox.misses;
        var stop;
        stop, next, lost, arrived := GuardSlice(g, slot, first, inbox, opens + window);
        if stop {
          PollsContinue(misses, inbox.misses, since, last, inbox.clock.time, inbox.clock.time, gap);
          return;
        }
        ghost var now := inbox.clock.time;
        var again := inbox.clock.Now();
        if polling {
          assert last == read ==> window > gap;
          PollsContinue(misses, inbox.misses, since, last, now, again, gap);
        }
        last := again;
        elapsed := Monus(again, ingress);
      }
    }

    /** Steps 1 to 3: drain, pop, and let arriving High packets displace the popped item. */
    method Choose(g: Settings, inbox: Inbox) returns (chosen: Option<WorkItem>, first: Priority, ghost trace: Trace)
      requires Valid() && inbox.clock.Valid()
      modifies this, inbox, inbox.clock
      ensures Valid() && inbox.log == old(inbox.log) + trace.Received()
      ensures chosen.None? ==> heap == [] && old(heap) == [] && trace.Received() == []
      ensures old(inbox.misses) <= inbox.misses
      ensures forall q :: q in classes ==>
                Drained(g, old(Snap()), old(inbox.log), trace.drained, inbox.misses, |old(inbox.misses)|, q)
      ensures chosen.Some? ==>
                PolledOut(g, old(Snap()), trace, counts, total, old(inbox.log), inbox.misses, |old(inbox.misses)|)
      ensures chosen.Some? ==> Chosen(g, inbox.clock.gap, old(Snap()), Snap(), chosen.value, trace)
      ensures first == trace.popped.priority
    {
      ghost var taken := Drain(g, inbox);
      ghost var before, drained := old(Snap()), Snap();
      forall q | q in classes
        ensures Drained(g, before, old(inbox.log), taken, inbox.misses, |old(inbox.misses)|, q)
      {
        OfClassConcat(before.heap, taken, q);
      }
      ghost var misses := inbox.misses;
      if heap == [] {
        trace := Trace(WorkItem(High, 0, Packet(0, High, 0, 0, 0)), [], [], [], []);
        return None, High, trace;
      }
      var popped := PopEarliest();
      ghost var afterPop := Snap();
      OfClassConcat(before.heap, taken, High);
      var slot := popped;
      ghost var preemptions: nat, dropped: seq<WorkItem>, polled: seq<WorkItem> := 0, [], [];
      if High in classes && !(slot.priority == Medium && counts.high > 0) {
        slot, preemptions, dropped, polled := PollHigh(g, popped, inbox);
        AppendAssociative(old(inbox.log), taken, polled);
        ExhaustedBefore(g, counts, total, inbox.log, inbox.misses, |misses|, |old(inbox.misses)|, High);
        StillDrained(g, before, old(inbox.log), taken, misses, inbox.misses, |old(inbox.misses)|);
      } else {
        PolledStart(g, popped, afterPop);
        assert taken + polled == taken;
      }
      ComposePoll(g, inbox.clock.gap, before, drained, afterPop, Snap(), popped, slot, preemptions, dropped, taken,
                  polled);
      trace := Trace(popped, taken, polled, [], dropped);
      assert trace.Received() == taken + polled;
      chosen, first := Some(slot), popped.priority;
    }

    /** Step 4 in its place: `item` has been chosen in the pass described by `trace`. */
    method Settle(g: Settings, inbox: Inbox, item: WorkItem, first: Priority, ghost before: Snapshot,
                  ghost trace: Trace)
        returns (done: WorkItem, ghost after: Trace)
      requires Valid() && inbox.clock.Valid() && first == trace.popped.priority
      requires Chosen(g, inbox.clock.gap, before, Snap(), item, trace)
      modifies this`heap, this`counts, this`total, this`shared, inbox, inbox.clock
      ensures Valid() && old(inbox.misses) <= inbox.misses
      ensures inbox.log == old(inbox.log) + after.guarded
      ensures after == trace.(guarded := after.guarded, dropped := after.dropped)
      ensures Iterated(g, inbox.clock.gap, before, Snap(), done, after)
      ensures after.guarded == [] ==>
                && Snap() == old(Snap()) && total == old(total)
                && (WindowOver(g, done, inbox.clock.time) || Disconnected(inbox.misses, |old(inbox.misses)|))
                && (MustPoll(g, done, old(inbox.clock.time), inbox.clock.gap) && counts.high < g.quota.high
                    && total < g.limit ==>
                      PolledUntil(inbox.misses, |old(inbox.misses)|, High, inbox.clock.time, 5 * inbox.clock.gap))
      ensures after.guarded != [] ==> old(counts).high < g.quota.high && old(total) < g.limit
    {
      ghost var chosen := Snap();
      ghost var lost: seq<WorkItem>, guarded: seq<WorkItem>;
      done, lost, guarded := GuardWindow(g, item, first, inbox);
      after := trace;
      if guarded != [] {
        ComposeGuard(g, inbox.clock.gap, before, chosen, Snap(), trace, item, done, lost);
        after := trace.(guarded := [done], dropped := lost);
      }
    }

    /** One pass of the worker loop up to the completion of `done`. Draining ends for every
        class at a quota, the limit or an empty channel, and so does the poll for High,
        unless it is skipped; the guard window ends with an arrival or its threshold. */
    method Iterate(g: Settings, inbox: Inbox) returns (done: Option<WorkItem>, ghost trace: Trace)
      requires Valid() && inbox.clock.Valid()
      modifies this, inbox, inbox.clock
      ensures Valid() && inbox.log == old(inbox.log) + trace.Received()
      ensures done.None? ==> heap == [] && old(heap) == [] && trace.Received() == []
      ensures old(inbox.misses) <= inbox.misses
      ensures forall q :: q in classes ==>
                Drained(g, old(Snap()), old(inbox.log), trace.drained, inbox.misses, |old(inbox.misses)|, q)
      ensures done.Some? ==>
                PolledOut(g, old(Snap()), trace, counts, total, old(inbox.log), inbox.misses, |old(inbox.misses)|)
      ensures done.Some? && trace.guarded == [] ==>
                WindowOver(g, done.value, inbox.clock.time) || Disconnected(inbox.misses, |old(inbox.misses)|)
      ensures done.Some? ==> Iterated(g, inbox.clock.gap, old(Snap()), Snap(), done.value, trace)
    {
      var first;
      done, first, trace := Choose(g, inbox);
      if done.None? {
        return;
      }
      ghost var misses, chosen, counts0, total0 := inbox.misses, trace, counts, total;
      var item;
      item, trace := Settle(g, inbox, done.value, first, old(Snap()), trace);
      GuardedAfter(old(inbox.log), chosen, trace);
      StillDrained(g, old(Snap()), old(inbox.log), chosen.drained, misses, inbox.misses, |old(inbox.misses)|);
      StillPolledOut(g, old(Snap()), chosen, trace, counts0, total0, counts, total, old(inbox.log), misses,
                     inbox.misses, |old(inbox.misses)|);
      done := Some(item);
    }
  }

  lemma GuardedAfter(log: seq<WorkItem>, chosen: Trace, after: Trace)
    requires chosen.guarded == [] && after == chosen.(guarded := after.guarded, dropped := after.dropped)
    ensures log + after.Received() == (log + chosen.Received()) + after.guarded
  {
    assert chosen.Received() == chosen.drained + chosen.polled;
    AppendAssociative(log, chosen.Received(), after.guarded);
  }

  lemma StillPolledOut(g: Settings, before: Snapshot, chosen: Trace, after: Trace, counts: Table<nat>, total: nat,
                       counts': Table<nat>, total': nat, log: seq<WorkItem>, misses: seq<Miss>, more: seq<Miss>,
                       since: nat)
    requires PolledOut(g, before, chosen, counts, total, log, misses, since) && misses <= more
    requires chosen.guarded == [] && after == chosen.(guarded := after.guarded, dropped := after.dropped)
    requires if after.guarded == [] then counts' == counts && total' == total
             else counts.high < g.quota.high && total < g.limit
    ensures PolledOut(g, before, after, counts', total', log, more, since)
  {
    MoreMisses(log + (chosen.drained + chosen.polled), misses, more, since, High);
  }

  lemma StillDrained(g: Settings, before: Snapshot, log: seq<WorkItem>, drained: seq<WorkItem>, misses: seq<Miss>,
                     more: seq<Miss>, since: nat)
    requires misses <= more
    ensures forall q :: Drained(g, before, log, drained, misses, since, q) ==>
                          Drained(g, before, log, drained, more, since, q)
  {
    forall q | Drained(g, before, log, drained, misses, since, q)
      ensures Drained(g, before, log, drained, more, since, q)
    {
      MoreMisses(log + drained, misses, more, since, q);
    }
  }

  lemma MoreMisses(log: seq<WorkItem>, misses: seq<Miss>, more: seq<Miss>, since: nat, p: Priority)
    requires misses <= more
    ensures RanDry(log, misses, since, p) ==> RanDry(log, more, since, p)
  {
    if RanDry(log, misses, since, p) {
      var k :| since <= k < |misses| && misses[k].priority == p
               && forall i :: misses[k].after <= i < |log| ==> log[i].priority != p;
      assert more[k] == misses[k];
    }
  }

  /** The draining ended for class p because of a quota, the total limit or an empty channel. */
  ghost predicate Drained(g: Settings, before: Snapshot, log: seq<WorkItem>, drained: seq<WorkItem>, misses: seq<Miss>,
                          since: nat, p: Priority) {
    || before.counts.Get(p) + OfClass(drained, p) >= g.quota.Get(p)
    || |before.heap| + |drained| >= g.limit
    || RanDry(log + drained, misses, since, p)
  }

  /** The poll is skipped for a Medium item if High items are waiting in the heap, and for
      no other item. */
  ghost predicate PollSkipped(before: Snapshot, trace: Trace) {
    trace.popped.priority == Medium && before.counts.high + OfClass(trace.drained, High) > 0
  }

  /** A poll that is not skipped ends because of a quota, the limit or an empty channel; if
      the guard window then receives a packet, only the last is possible. */
  ghost predicate PolledOut(g: Settings, before: Snapshot, trace: Trace, counts: Table<nat>, total: nat,
                            log: seq<WorkItem>, misses: seq<Miss>, since: nat) {
    if PollSkipped(before, trace) then trace.polled == []
    else
      var dry := RanDry(log + (trace.drained + trace.polled), misses, since, High);
      dry || (trace.guarded == [] && (counts.high >= g.quota.high || total >= g.limit))
  }

  /** What one iteration met: the item popped, the items received while draining, while
      polling and in the guard window, and the items discarded. */
  datatype Trace = Trace(popped: WorkItem, drained: seq<WorkItem>, polled: seq<WorkItem>, guarded: seq<WorkItem>,
                         dropped: seq<WorkItem>) {
    ghost function Received(): seq<WorkItem> {
      drained + polled + guarded
    }

    /** How often the item in hand is displaced. */
    ghost function Displacements(): nat {
      RecordLows(DeadlineOf(popped), polled) + |guarded|
    }
  }

  /** The earliest deadline among `limit` and those of the items. */
  ghost function LowestDue(limit: nat, items: seq<WorkItem>): nat {
    if items == [] then limit
    else Min(LowestDue(limit, items[..|items| - 1]), DeadlineOf(items[|items| - 1]))
  }

  /** How many items are due before `limit` and before all items in front of them. */
  ghost function RecordLows(limit: nat, items: seq<WorkItem>): nat {
    if items == [] then 0
    else
      var init, last := items[..|items| - 1], items[|items| - 1];
      RecordLows(limit, init) + if DeadlineOf(last) < LowestDue(limit, init) then 1 else 0
  }

  lemma RecordAppend(limit: nat, items: seq<WorkItem>, item: WorkItem)
    ensures LowestDue(limit, items + [item]) == Min(LowestDue(limit, items), DeadlineOf(item))
    ensures RecordLows(limit, items + [item])
         == RecordLows(limit, items) + if DeadlineOf(item) < LowestDue(limit, items) then 1 else 0
  {
    assert (items + [item])[..|items|] == items;
  }

  ghost predicate GuardPreempted(g: Settings, first: Priority, before: Snapshot, after: Snapshot,
                                 slot: WorkItem, next: WorkItem, lost: seq<WorkItem>) {
    && next.priority == High && slot.priority != High
    && lost == (if Overfull(before.counts, g, slot.priority) then [slot] else [])
    && after.heap == (if lost == [] then before.heap + [slot] else before.heap)
    && forall q :: after.Drift(q) == before.Drift(q) + Shift(first, slot.priority, lost == [], q)
  }

  /** `high` entered the pipeline before the guard window of `slot` was over. */
  ghost predicate InTime(g: Settings, gap: nat, slot: WorkItem, high: WorkItem) {
    && ThresholdOf(g, slot).Some?
    && high.packet.timestamp < slot.packet.timestamp + ThresholdOf(g, slot).value + 2 * gap
  }

  /** Every Medium or Low budget exceeds every High budget by the guard threshold plus
      two clock gaps. */
  ghost predicate RoomyBudgets(g: Settings, gap: nat, items: multiset<WorkItem>) {
    forall slot, high :: slot in items && high in items && ThresholdOf(g, slot).Some? && high.priority == High ==>
      slot.packet.budget >= high.packet.budget + ThresholdOf(g, slot).value + 2 * gap
  }

  /** What one iteration that completes `done` guarantees. */
  ghost predicate Iterated(g: Settings, gap: nat, before: Snapshot, after: Snapshot, done: WorkItem, trace: Trace) {
    var inflow := multiset(before.heap) + multiset(trace.Received());
    // nothing is duplicated, and nothing disappears except what is dropped
    && multiset(after.heap) + multiset{done} + multiset(trace.dropped) == inflow
    // exactly the popped item of an overfull class that gets displaced is dropped
    && trace.dropped == (if trace.Displacements() > 0 && trace.popped.priority != High
                            && before.counts.Get(trace.popped.priority) > g.quota.Get(trace.popped.priority)
                         then [trace.popped] else [])
    // the shared counters keep up with the local ones, except for the double credit
    && (forall q :: after.Drift(q)
           == before.Drift(q) + DriftGain(trace.popped.priority, trace.Displacements(), |trace.dropped|, q))
    // what is completed: the guard window's High item, or an item with the earliest deadline met
    && (if trace.guarded != [] then trace.guarded == [done] && RecordLows(DeadlineOf(trace.popped), trace.polled) == 0
        else DeadlineOf(done) == LowestDue(DeadlineOf(trace.popped), trace.polled))
    // it is due first; in the guard window this rests on the deadlines
    && (trace.guarded == [] ==> DueFirst(done, after.heap))
    && (trace.guarded != [] && trace.dropped == [] ==>
          (DueFirst(done, after.heap) <==> DeadlineOf(done) <= DeadlineOf(trace.popped)))
    && (RoomyBudgets(g, gap, inflow) ==> DueFirst(done, after.heap))
    // High packets that arrive in deadline order displace at most once
    && (HighInOrder(trace.Received()) ==> trace.Displacements() <= 1)
  }

  /** The same for an iteration that has not yet reached the guard window. */
  ghost predicate Chosen(g: Settings, gap: nat, before: Snapshot, after: Snapshot, slot: WorkItem, trace: Trace) {
    && Iterated(g, gap, before, after, slot, trace)
    && trace.guarded == []
    && (if trace.Displacements() == 0 then slot == trace.popped && CanReturn(g, before, after, slot.priority)
        else slot.priority == High)
  }

  lemma ComposeItems(before: seq<WorkItem>, drained: seq<WorkItem>, afterPop: seq<WorkItem>, afterPoll: seq<WorkItem>,
                     popped: WorkItem, slot: WorkItem, dropped: seq<WorkItem>, taken: seq<WorkItem>,
                         polled: seq<WorkItem>)
    requires drained == before + taken
    requires multiset(afterPop) + multiset{popped} == multiset(drained)
    requires multiset(afterPoll) + multiset{slot} + multiset(dropped)
          == multiset(afterPop) + multiset{popped} + multiset(polled)
    ensures multiset(afterPoll) + multiset{slot} + multiset(dropped) == multiset(before) + multiset(taken + polled)
  {
    assert multiset(taken + polled) == multiset(taken) + multiset(polled);
  }

  /** `CanReturn`: whether the popped item could go back is settled by the counts at the loop top. */
  ghost predicate CanReturn(g: Settings, before: Snapshot, after: Snapshot, p: Priority) {
    Overfull(after.counts, g, p) <==> p != High && before.counts.Get(p) > g.quota.Get(p)
  }

  /** Draining, popping and polling in a row. */
  lemma ComposePoll(g: Settings, gap: nat, before: Snapshot, drained: Snapshot, afterPop: Snapshot, after: Snapshot,
                    popped: WorkItem, slot: WorkItem, n: nat, dropped: seq<WorkItem>,
                    taken: seq<WorkItem>, polled: seq<WorkItem>)
    requires drained.heap == before.heap + taken
    requires forall q :: before.counts.Get(q) <= drained.counts.Get(q) <= Max(before.counts.Get(q), g.quota.Get(q))
    requires forall q :: drained.Drift(q) == before.Drift(q)
    requires forall q :: afterPop.Drift(q) == drained.Drift(q)
    requires multiset(afterPop.heap) + multiset{popped} == multiset(drained.heap)
    requires forall q :: drained.counts.Get(q) == afterPop.counts.Get(q) + if q == popped.priority then 1 else 0
    requires Polled(g, popped, afterPop, after, slot, n, dropped, polled)
    ensures Chosen(g, gap, before, after, slot, Trace(popped, taken, polled, [], dropped))
  {
    var trace := Trace(popped, taken, polled, [], dropped);
    assert trace.Received() == taken + polled && trace.Displacements() == n;
    ComposeItems(before.heap, drained.heap, afterPop.heap, after.heap, popped, slot, dropped, taken, polled);
    assert CanReturn(g, before, afterPop, popped.priority);
    if HighInOrder(taken + polled) {
      assert forall i :: 0 <= i < |polled| ==> polled[i] == (taken + polled)[|taken| + i];
    }
    assert forall q :: after.Drift(q) == afterPop.Drift(q) + DriftGain(popped.priority, n, |dropped|, q);
  }

  /** The guard window then swaps in one High item. */
  lemma ComposeGuard(g: Settings, gap: nat, before: Snapshot, polled: Snapshot, after: Snapshot, trace: Trace,
                     slot: WorkItem, high: WorkItem, lost: seq<WorkItem>)
    requires Chosen(g, gap, before, polled, slot, trace)
    requires GuardPreempted(g, trace.popped.priority, polled, after, slot, high, lost) && InTime(g, gap, slot, high)
    ensures Iterated(g, gap, before, after, high, trace.(guarded := [high], dropped := lost))
  {
    NotDisplacedYet(g, gap, before, polled, slot, trace);
    GuardItems(before.heap, polled.heap, after.heap, trace, high, lost);
    GuardOrder(g, gap, polled.heap, after.heap, multiset(before.heap) + multiset(trace.Received()), slot, high, lost);
    GuardDrift(before, polled, after, slot.priority, lost);
    GuardIterates(g, gap, before, after, trace, high, lost);
  }

  lemma GuardIterates(g: Settings, gap: nat, before: Snapshot, after: Snapshot, trace: Trace, high: WorkItem,
                      lost: seq<WorkItem>)
    requires RecordLows(DeadlineOf(trace.popped), trace.polled) == 0 && trace.guarded == []
             && trace.popped.priority != High
    requires lost == if before.counts.Get(trace.popped.priority) > g.quota.Get(trace.popped.priority)
                     then [trace.popped] else []
    requires multiset(after.heap) + multiset{high} + multiset(lost) == multiset(before.heap)
             + multiset(trace.Received() + [high])
    requires lost == [] ==> (DueFirst(high, after.heap) <==> DeadlineOf(high) <= DeadlineOf(trace.popped))
    requires RoomyBudgets(g, gap, multiset(before.heap) + multiset(trace.Received()) + multiset{high})
             ==> DueFirst(high, after.heap)
    requires forall q :: after.Drift(q) == before.Drift(q) + DriftGain(trace.popped.priority, 1, |lost|, q)
    ensures Iterated(g, gap, before, after, high, trace.(guarded := [high], dropped := lost))
  {
    var all := trace.(guarded := [high], dropped := lost);
    assert all.Received() == trace.Received() + [high];
    assert all.Displacements() == 1;
    assert multiset(before.heap) + multiset(all.Received())
        == multiset(before.heap) + multiset(trace.Received()) + multiset{high};
  }

  /** The guard window opens only for an item that nothing has displaced. */
  lemma NotDisplacedYet(g: Settings, gap: nat, before: Snapshot, polled: Snapshot, slot: WorkItem, trace: Trace)
    requires Chosen(g, gap, before, polled, slot, trace) && slot.priority != High
    ensures slot == trace.popped && trace.dropped == [] && trace.Displacements() == 0
    ensures RecordLows(DeadlineOf(slot), trace.polled) == 0 && CanReturn(g, before, polled, slot.priority)
    ensures forall q :: polled.Drift(q) == before.Drift(q) + DriftGain(slot.priority, 0, 0, q)
    ensures multiset(polled.heap) + multiset{slot} == multiset(before.heap) + multiset(trace.Received())
    ensures slot in multiset(before.heap) + multiset(trace.Received())
  {
    assert multiset(trace.dropped) == multiset{};
    assert slot in multiset(polled.heap) + multiset{slot};
  }

  lemma GuardDrift(before: Snapshot, polled: Snapshot, after: Snapshot, first: Priority, lost: seq<WorkItem>)
    requires first != High && |lost| <= 1
    requires forall q :: polled.Drift(q) == before.Drift(q) + DriftGain(first, 0, 0, q)
    requires forall q :: after.Drift(q) == polled.Drift(q) + Shift(first, first, lost == [], q)
    ensures forall q :: after.Drift(q) == before.Drift(q) + DriftGain(first, 1, |lost|, q)
  {
    forall q ensures after.Drift(q) == before.Drift(q) + DriftGain(first, 1, |lost|, q) {
      DriftGainStep(first, first, 0, 0, |lost|, q);
    }
  }

  lemma GuardItems(before: seq<WorkItem>, polled: seq<WorkItem>, after: seq<WorkItem>, trace: Trace, high: WorkItem,
                   lost: seq<WorkItem>)
    requires trace.dropped == [] && (lost == [] || lost == [trace.popped])
    requires multiset(polled) + multiset{trace.popped} + multiset(trace.dropped) == multiset(before)
             + multiset(trace.Received())
    requires after == if lost == [] then polled + [trace.popped] else polled
    ensures multiset(after) + multiset{high} + multiset(lost) == multiset(before) + multiset(trace.Received() + [high])
  {
    assert multiset(trace.dropped) == multiset{};
    assert multiset(trace.Received() + [high]) == multiset(trace.Received()) + multiset{high};
    assert multiset(after) + multiset(lost) == multiset(polled) + multiset{trace.popped};
    var has, had := multiset(after) + multiset(lost), multiset(before) + multiset(trace.Received());
    assert multiset(after) + multiset{high} + multiset(lost) == has + multiset{high};
    assert multiset(before) + multiset(trace.Received() + [high]) == had + multiset{high};
  }

  lemma GuardOrder(g: Settings, gap: nat, polled: seq<WorkItem>, after: seq<WorkItem>, inflow: multiset<WorkItem>,
                   slot: WorkItem, high: WorkItem, lost: seq<WorkItem>)
    requires DueFirst(slot, polled) && slot in inflow && high.priority == High && InTime(g, gap, slot, high)
    requires after == if lost == [] then polled + [slot] else polled
    ensures lost == [] ==> (DueFirst(high, after) <==> DeadlineOf(high) <= DeadlineOf(slot))
    ensures RoomyBudgets(g, gap, inflow + multiset{high}) ==> DueFirst(high, after)
  {
    if lost == [] {
      assert after[|polled|] == slot;
    }
    if RoomyBudgets(g, gap, inflow + multiset{high}) {
      assert slot in inflow + multiset{high} && high in inflow + multiset{high};
    }
  }

  /** A worker as a value. */
  datatype Snapshot = Snapshot(heap: seq<WorkItem>, counts: Table<nat>, shared: Table<int>) {
    /** How far the shared counter of class p is ahead of the local count. */
    ghost function Drift(p: Priority): int {
      shared.Get(p) - counts.Get(p)
    }
  }

  /** One High packet has been offered to the worker holding `slot`. */
  ghost predicate Offered(g: Settings, first: Priority, before: Snapshot, after: Snapshot,
                          slot: WorkItem, next: WorkItem, high: WorkItem, lost: seq<WorkItem>) {
    && next == (if DeadlineOf(high) < DeadlineOf(slot) then high else slot)
    && lost == (if next != slot && Overfull(before.counts, g, slot.priority) then [slot] else [])
    && OfferedItems(before.heap, after.heap, slot, next, high, lost)
    && Bumped(before.counts, after.counts, if next == slot then High else slot.priority, lost == [])
    && OfferedDrift(before, after, first, slot, next, lost)
  }

  ghost predicate OfferedItems(before: seq<WorkItem>, after: seq<WorkItem>, slot: WorkItem, next: WorkItem,
                               high: WorkItem, lost: seq<WorkItem>) {
    && DueFirst(next, after)
    && multiset(after) + multiset{next} + multiset(lost) == multiset(before) + multiset{slot} + multiset{high}
  }

  ghost predicate Bumped(before: Table<nat>, after: Table<nat>, p: Priority, bumped: bool) {
    forall q :: after.Get(q) == before.Get(q) + if bumped && q == p then 1 else 0
  }

  ghost predicate OfferedDrift(before: Snapshot, after: Snapshot, first: Priority, slot: WorkItem, next: WorkItem,
                               lost: seq<WorkItem>) {
    forall q :: after.Drift(q)
        == before.Drift(q) + if next == slot then 0 else Shift(first, slot.priority, lost == [], q)
  }

  /** What polling for High packets amounts to: nothing but an overfull class can be
      dropped, the item in hand stays due first, and the counters drift only if the
      popped item is not High and more than one preemption (or a drop) happens. */
  ghost predicate Polled(g: Settings, popped: WorkItem, before: Snapshot, after: Snapshot, slot: WorkItem,
                         preemptions: nat, dropped: seq<WorkItem>, arrived: seq<WorkItem>) {
    && OrderInv(popped, slot, arrived, preemptions)
    && PolledItems(popped, before.heap, after.heap, slot, dropped, arrived)
    && PolledLoss(g, popped, before.counts, after.counts, preemptions, dropped)
    && PolledDrift(before, after, popped.priority, preemptions, |dropped|)
  }

  ghost predicate PolledItems(popped: WorkItem, before: seq<WorkItem>, after: seq<WorkItem>, slot: WorkItem,
                              dropped: seq<WorkItem>, arrived: seq<WorkItem>) {
    && DueFirst(slot, after)
    && DeadlineOf(slot) <= DeadlineOf(popped)
    && multiset(after) + multiset{slot} + multiset(dropped) == multiset(before) + multiset{popped} + multiset(arrived)
  }

  ghost predicate PolledLoss(g: Settings, popped: WorkItem, before: Table<nat>, after: Table<nat>,
                             preemptions: nat, dropped: seq<WorkItem>) {
    && dropped == (if preemptions > 0 && Overfull(before, g, popped.priority) then [popped] else [])
    && (preemptions == 0 ==> forall q :: q != High ==> after.Get(q) == before.Get(q))
  }

  ghost predicate PolledDrift(before: Snapshot, after: Snapshot, first: Priority, preemptions: nat, dropped: nat) {
    forall q :: after.Drift(q) == before.Drift(q) + DriftGain(first, preemptions, dropped, q)
  }

  lemma DriftStep(start: Snapshot, before: Snapshot, after: Snapshot, first: Priority, slot: WorkItem, next: WorkItem,
                  n: nat, dropped: seq<WorkItem>, lost: seq<WorkItem>)
    requires PolledDrift(start, before, first, n, |dropped|) && OfferedDrift(before, after, first, slot, next, lost)
    requires slot.priority == (if n == 0 then first else High) && |lost| <= 1
    requires n == 0 ==> dropped == []
    requires lost != [] ==> next != slot && slot.priority != High
    ensures PolledDrift(start, after, first, if next == slot then n else n + 1, |dropped + lost|)
  {
    forall q { DriftGainStep(first, slot.priority, n, |dropped|, |lost|, q); }
  }

  lemma LossStep(g: Settings, popped: WorkItem, start: Table<nat>, before: Table<nat>, after: Table<nat>,
                 slot: WorkItem, next: WorkItem, n: nat, dropped: seq<WorkItem>, lost: seq<WorkItem>)
    requires PolledLoss(g, popped, start, before, n, dropped)
    requires if n == 0 then slot == popped else slot.priority == High
    requires lost == (if next != slot && Overfull(before, g, slot.priority) then [slot] else [])
    requires Bumped(before, after, if next == slot then High else slot.priority, lost == [])
    ensures PolledLoss(g, popped, start, after, if next == slot then n else n + 1, dropped + lost)
  {
  }

  lemma PolledStart(g: Settings, popped: WorkItem, start: Snapshot)
    requires DueFirst(popped, start.heap)
    ensures Polled(g, popped, start, start, popped, 0, [], [])
  {
  }

  lemma PolledStep(g: Settings, popped: WorkItem, start: Snapshot, before: Snapshot, after: Snapshot,
                   slot: WorkItem, next: WorkItem, n: nat, dropped: seq<WorkItem>, arrived: seq<WorkItem>,
                   high: WorkItem, lost: seq<WorkItem>)
    requires Polled(g, popped, start, before, slot, n, dropped, arrived)
    requires Offered(g, popped.priority, before, after, slot, next, high, lost) && high.priority == High
    ensures Polled(g, popped, start, after, next, if next == slot then n else n + 1, dropped + lost, arrived + [high])
  {
    OrderStep(popped, slot, arrived, n, high);
    DriftStep(start, before, after, popped.priority, slot, next, n, dropped, lost);
    LossStep(g, popped, start.counts, before.counts, after.counts, slot, next, n, dropped, lost);
    Balance(multiset(after.heap) + multiset{next}, multiset(before.heap) + multiset{slot}, dropped, lost,
            multiset(start.heap) + multiset{popped}, arrived, high);
  }

  /** An item of class p (other than High) cannot return to a heap with these counts. */
  ghost predicate Overfull(counts: Table<nat>, g: Settings, p: Priority) {
    p != High && counts.Get(p) >= g.quota.Get(p)
  }

  lemma Balance(has: multiset<WorkItem>, had: multiset<WorkItem>, dropped: seq<WorkItem>, lost: seq<WorkItem>,
                base: multiset<WorkItem>, arrived: seq<WorkItem>, high: WorkItem)
    requires has + multiset(lost) == had + multiset{high}
    requires had + multiset(dropped) == base + multiset(arrived)
    ensures has + multiset(dropped + lost) == base + multiset(arrived + [high])
  {
    assert multiset(dropped + lost) == multiset(dropped) + multiset(lost);
    assert multiset(arrived + [high]) == multiset(arrived) + multiset{high};
    assert has + multiset(dropped + lost) == (has + multiset(lost)) + multiset(dropped);
    assert base + multiset(arrived + [high]) == (base + multiset(arrived)) + multiset{high};
  }

  /** The item in hand after `n` displacements by the High items `arrived`. */
  ghost predicate OrderInv(popped: WorkItem, slot: WorkItem, arrived: seq<WorkItem>, n: nat) {
    && (forall item :: item in arrived ==> item.priority == High)
    && (if n == 0 then slot == popped else slot in arrived && DeadlineOf(slot) < DeadlineOf(popped))
    && DeadlineOf(slot) == LowestDue(DeadlineOf(popped), arrived) && n == RecordLows(DeadlineOf(popped), arrived)
    && (HighInOrder(arrived) ==> n <= 1)
  }

  lemma OrderStep(popped: WorkItem, slot: WorkItem, arrived: seq<WorkItem>, n: nat, high: WorkItem)
    requires OrderInv(popped, slot, arrived, n) && high.priority == High
    ensures DeadlineOf(high) < DeadlineOf(slot) ==> OrderInv(popped, high, arrived + [high], n + 1)
    ensures DeadlineOf(high) >= DeadlineOf(slot) ==> OrderInv(popped, slot, arrived + [high], n)
  {
    var all := arrived + [high];
    RecordAppend(DeadlineOf(popped), arrived, high);
    if HighInOrder(all) {
      forall i, j | 0 <= i < j < |arrived| ensures DeadlineOf(arrived[i]) <= DeadlineOf(arrived[j]) {
        assert all[i] == arrived[i] && all[j] == arrived[j];
      }
      forall i | 0 <= i < |arrived| ensures DeadlineOf(arrived[i]) <= DeadlineOf(high) {
        assert all[i] == arrived[i] && all[|arrived|] == high;
      }
    }
  }

  /** Net effect of one iteration's preemptions on `shared - counts`: every preemption
      credits the class of the item popped first, although from the second one on it is
      a High item that goes back into the heap. */
  ghost function DriftGain(first: Priority, preemptions: nat, dropped: nat, p: Priority): int {
    if first == High || preemptions == 0 then 0
    else if p == first then preemptions - 1 + dropped
    else if p == High then 1 - preemptions
    else 0
  }

  /** Effect of a single preemption that tries to put an item of class `back` back. */
  ghost function Shift(first: Priority, back: Priority, requeued: bool, p: Priority): int {
    (if p == first then 1 else 0) - if requeued && p == back then 1 else 0
  }

  lemma DriftGainStep(first: Priority, back: Priority, n: nat, dropped: nat, lost: nat, p: Priority)
    requires back == if n == 0 then first else High
    requires n == 0 ==> dropped == 0
    requires lost <= 1 && (lost == 1 ==> back != High)
    ensures DriftGain(first, n + 1, dropped + lost, p)
         == DriftGain(first, n, dropped, p) + Shift(first, back, lost == 0, p)
  {
  }

  // ------------------------------------------------------------------
  // Main results about an iteration
  // ------------------------------------------------------------------

  /** If no quota is below the count at the loop top, every requeue succeeds. */
  lemma NothingDroppedWithinQuota(g: Settings, gap: nat, before: Snapshot, after: Snapshot, done: WorkItem,
                                  trace: Trace)
    requires Iterated(g, gap, before, after, done, trace)
    requires forall p :: before.counts.Get(p) <= g.quota.Get(p)
    ensures multiset(after.heap) + multiset{done} == multiset(before.heap) + multiset(trace.Received())
  {
    assert trace.dropped == [];
    assert multiset(trace.dropped) == multiset{};
  }

  /** The counters read by the controller stay in step with the heap exactly when the
      popped item is High, or nothing displaces it, or one High packet does and the item
      can go back: no polled packet is due before an earlier one that displaced it, and
      its class was within quota at the loop top. */
  lemma CountersStayInStepExactlyWhen(g: Settings, gap: nat, before: Snapshot, after: Snapshot, done: WorkItem,
                                      trace: Trace)
    requires Iterated(g, gap, before, after, done, trace)
    ensures var p, n := trace.popped.priority, trace.Displacements();
            (forall q :: after.Drift(q) == before.Drift(q))
            <==> p == High || n == 0 || (n == 1 && before.counts.Get(p) <= g.quota.Get(p))
    ensures HighInOrder(trace.Received()) && (forall p :: before.counts.Get(p) <= g.quota.Get(p)) ==>
              forall p :: after.Drift(p) == before.Drift(p)
  {
    var first := trace.popped.priority;
    if first != High && trace.Displacements() > 0 {
      assert after.Drift(first) == before.Drift(first) + trace.Displacements() - 1 + |trace.dropped|;
    }
  }

  /** Item i is the first one due before `limit`. */
  ghost predicate FirstBefore(limit: nat, items: seq<WorkItem>, i: int) {
    0 <= i < |items| && DeadlineOf(items[i]) < limit && forall k :: 0 <= k < i ==> DeadlineOf(items[k]) >= limit
  }

  /** Nothing displaces an item due at `limit` exactly if no packet is due before it; at
      most one does exactly if the first packet due before it is due first of all. */
  lemma DisplacementsMeaning(limit: nat, items: seq<WorkItem>)
    ensures RecordLows(limit, items) == 0 <==> forall j :: 0 <= j < |items| ==> DeadlineOf(items[j]) >= limit
    ensures RecordLows(limit, items) <= 1 <==>
              forall i, j :: 0 <= j < |items| && FirstBefore(limit, items, i)
                  ==> DeadlineOf(items[i]) <= DeadlineOf(items[j])
  {
    LowestIsLeast(limit, items);
    forall i | FirstBefore(limit, items, i)
      ensures RecordLows(limit, items) == 1 <==> LowestDue(limit, items) == DeadlineOf(items[i])
    {
      FirstIsARecord(limit, items, i);
    }
    if RecordLows(limit, items) > 1 {
      var i := SomeFirst(limit, items);
      assert FirstBefore(limit, items, i) && LowestDue(limit, items) < DeadlineOf(items[i]);
    }
  }

  lemma {:induction false} LowestIsLeast(limit: nat, items: seq<WorkItem>)
    ensures forall j :: 0 <= j < |items| ==> LowestDue(limit, items) <= DeadlineOf(items[j])
    ensures LowestDue(limit, items) == limit ||
            exists j :: 0 <= j < |items| && DeadlineOf(items[j]) == LowestDue(limit, items)
    ensures LowestDue(limit, items) <= limit && (RecordLows(limit, items) == 0 <==> LowestDue(limit, items) == limit)
  {
    if items == [] {
    } else {
      var n := |items| - 1;
      LowestIsLeast(limit, items[..n]);
      assert forall j :: 0 <= j < n ==> items[..n][j] == items[j];
      if LowestDue(limit, items) != limit && LowestDue(limit, items) != DeadlineOf(items[n]) {
        var j :| 0 <= j < n && DeadlineOf(items[..n][j]) == LowestDue(limit, items[..n]);
        assert DeadlineOf(items[j]) == LowestDue(limit, items);
      }
    }
  }

  lemma {:induction false} FirstIsARecord(limit: nat, items: seq<WorkItem>, i: int)
    requires FirstBefore(limit, items, i)
    ensures RecordLows(limit, items) >= 1
    ensures RecordLows(limit, items) == 1 <==> LowestDue(limit, items) == DeadlineOf(items[i])
  {
    var n := |items| - 1;
    LowestIsLeast(limit, items[..n]);
    if i == n {
      assert LowestDue(limit, items[..n]) == limit;
    } else {
      FirstIsARecord(limit, items[..n], i);
      assert items[..n][i] == items[i];
    }
  }

  lemma {:induction false} SomeFirst(limit: nat, items: seq<WorkItem>) returns (i: int)
    requires RecordLows(limit, items) > 0
    ensures FirstBefore(limit, items, i)
  {
    var n := |items| - 1;
    LowestIsLeast(limit, items[..n]);
    assert forall j :: 0 <= j < n ==> items[..n][j] == items[j];
    if RecordLows(limit, items[..n]) > 0 {
      i := SomeFirst(limit, items[..n]);
    } else {
      i := n;
    }
  }

  /** However often items are displaced, the counters are wrong by at most what was
      dropped when summed over the classes. */
  lemma TotalDriftIsTheLoss(g: Settings, gap: nat, before: Snapshot, after: Snapshot, done: WorkItem, trace: Trace)
    requires Iterated(g, gap, before, after, done, trace)
    ensures TotalDrift(after) == TotalDrift(before)
              + if trace.popped.priority == High || trace.Displacements() == 0 then 0 else |trace.dropped|
  {
    GainsAddUp(before, after, trace.popped.priority, trace.Displacements(), |trace.dropped|);
  }

  lemma GainsAddUp(before: Snapshot, after: Snapshot, first: Priority, n: nat, dropped: nat)
    requires PolledDrift(before, after, first, n, dropped)
    ensures TotalDrift(after) == TotalDrift(before) + if first == High || n == 0 then 0 else dropped
  {
    var gain := (p: Priority) => DriftGain(first, n, dropped, p);
    assert forall p :: after.Drift(p) == before.Drift(p) + gain(p);
  }

  /** A pass of the loop that completed an item. */
  datatype Pass = Pass(g: Settings, gap: nat, before: Snapshot, after: Snapshot, done: WorkItem, trace: Trace)

  ghost predicate Completes(pass: Pass) {
    Iterated(pass.g, pass.gap, pass.before, pass.after, pass.done, pass.trace)
  }

  /** Consecutive passes of one worker; between two loop tops only the settings change. */
  ghost predicate Passes(ps: seq<Pass>, start: Snapshot) {
    ps == [] ||
    var n := |ps| - 1;
    Passes(ps[..n], start) && Completes(ps[n]) && ps[n].before == LoopTop(ps[..n], start)
  }

  /** The worker at the loop top after these passes. */
  ghost function LoopTop(ps: seq<Pass>, start: Snapshot): Snapshot {
    if ps == [] then start else ps[|ps| - 1].after
  }

  ghost predicate InStep(s: Snapshot) {
    forall p :: s.shared.Get(p) == s.counts.Get(p)
  }

  /** High packets arrive in deadline order and no quota is below its count. */
  ghost predicate Orderly(pass: Pass) {
    HighInOrder(pass.trace.Received()) && forall p :: pass.before.counts.Get(p) <= pass.g.quota.Get(p)
  }

  lemma PassKeepsStep(pass: Pass)
    requires Completes(pass) && InStep(pass.before) && Orderly(pass)
    ensures InStep(pass.after)
  {
    CountersStayInStepExactlyWhen(pass.g, pass.gap, pass.before, pass.after, pass.done, pass.trace);
    forall p ensures pass.after.shared.Get(p) == pass.after.counts.Get(p) {
      assert pass.after.Drift(p) == pass.before.Drift(p);
      assert pass.before.shared.Get(p) == pass.before.counts.Get(p);
    }
  }

  /** The shared counters equal the local counts at every loop top as long as High packets
      arrive in deadline order and no quota is read below its count. */
  lemma {:induction false} CountersEqualAtEveryLoopTop(ps: seq<Pass>, start: Snapshot)
    requires Passes(ps, start) && InStep(start)
    requires forall k :: 0 <= k < |ps| ==> Orderly(ps[k])
    ensures InStep(LoopTop(ps, start))
  {
    if ps == [] {
    } else {
      CountersEqualAtEveryLoopTop(ps[..|ps| - 1], start);
      PassKeepsStep(ps[|ps| - 1]);
    }
  }

  lemma PassError(pass: Pass)
    requires Completes(pass)
    ensures TotalDrift(pass.before) <= TotalDrift(pass.after) <= TotalDrift(pass.before) + |pass.trace.dropped|
  {
    TotalDriftIsTheLoss(pass.g, pass.gap, pass.before, pass.after, pass.done, pass.trace);
  }

  lemma InStepHasNoError(s: Snapshot)
    requires InStep(s)
    ensures TotalDrift(s) == 0
  {
    assert forall p :: s.Drift(p) == 0;
  }

  /** Over any passes, in step or not, the counters' total error is at most the number of
      items ever dropped. */
  lemma {:induction false} TotalErrorIsBounded(ps: seq<Pass>, start: Snapshot)
    requires Passes(ps, start) && InStep(start)
    ensures 0 <= TotalDrift(LoopTop(ps, start)) <= DroppedBy(ps)
  {
    if ps == [] {
      InStepHasNoError(start);
    } else {
      TotalErrorIsBounded(ps[..|ps| - 1], start);
      PassError(ps[|ps| - 1]);
    }
  }

  ghost function DroppedBy(ps: seq<Pass>): nat {
    if ps == [] then 0 else DroppedBy(ps[..|ps| - 1]) + |ps[|ps| - 1].trace.dropped|
  }

  ghost function TotalDrift(s: Snapshot): int {
    s.Drift(High) + s.Drift(Medium) + s.Drift(Low) + s.Drift(BestEffort)
  }

  /** With the default budgets (1, 10 and 100 ms), guard thresholds of at most 80 us and
      clock readings at most 4.46 ms apart, every completed item is due first. */
  lemma DefaultBudgetsKeepDeadlineOrder(g: Settings, gap: nat, before: Snapshot, after: Snapshot, done: WorkItem,
                                        trace: Trace)
    requires Iterated(g, gap, before, after, done, trace)
    requires gap <= 4_460_000 && forall p :: g.guardNs.Get(p) <= 80_000
    requires forall item :: item in multiset(before.heap) + multiset(trace.Received()) ==>
      item.packet.budget == Table(1_000_000, 10_000_000, 100_000_000, 200_000_000).Get(item.priority)
    ensures DueFirst(done, after.heap)
  {
    DefaultBudgetsAreRoomy(g, gap, multiset(before.heap) + multiset(trace.Received()));
  }

  lemma DefaultBudgetsAreRoomy(g: Settings, gap: nat, items: multiset<WorkItem>)
    requires gap <= 4_460_000 && forall p :: g.guardNs.Get(p) <= 80_000
    requires forall item :: item in items ==>
      item.packet.budget == Table(1_000_000, 10_000_000, 100_000_000, 200_000_000).Get(item.priority)
    ensures RoomyBudgets(g, gap, items)
  {
  }
}
