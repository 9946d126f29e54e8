/** The protocol together with the controller that sets its quotas: which classes can
    lose packets to a shrinking quota. */
module QuotaLoss {
  import opened Pipeline
  import opened Heaps
  import opened SequenceTracking
  import opened MultiWorkerProtocol
  import A = Adaptive

  // ------------------------------------------------------------------
  // A class whose quota never shrinks
  // ------------------------------------------------------------------

  /** The count of class p fits the quota, and so did the count at the loop top. */
  ghost predicate WithinQuota(w: Worker, p: Priority) {
    && w.counts.Get(p) <= w.quota.Get(p)
    && (w.phase.Top? || w.atTop.Get(p) <= w.quota.Get(p))
  }

  /** The event has some worker read a quota of class p below the one it used before. */
  ghost predicate Lowers(s: State, e: Event, p: Priority) {
    && e.ReadQuotas? && e.id < |s.workers| && s.workers[e.id].phase.Top?
    && e.quota.Get(p) < s.workers[e.id].quota.Get(p)
  }

  lemma AdmitStaysWithin(w: Worker, item: WorkItem, p: Priority)
    requires w.counts.Get(p) <= w.quota.Get(p) && Admit(w, item).Some?
    ensures Admit(w, item).value.counts.Get(p) <= w.quota.Get(p)
    ensures Admit(w, item).value.(heap := w.heap, counts := w.counts, total := w.total) == w
  {
  }

  lemma PlacingStaysWithin(s: State, e: Event, p: Priority)
    requires e.DrainPlace? || e.PollPlace? || e.GuardPlace?
    requires e.id < |s.workers| && WithinQuota(s.workers[e.id], p)
    ensures WithinQuota(Step(s, e).workers[e.id], p)
  {
    var w := s.workers[e.id];
    match (e, w.phase)
    case (DrainPlace(id), DrainFetched(turn, packet)) =>
      if turn < |Classes(id)| && Admit(w, NextItem(s, Classes(id)[turn], packet)).Some? {
        AdmitStaysWithin(w, NextItem(s, Classes(id)[turn], packet), p);
      }
    case (PollPlace(_), PollFetched(slot, packet)) =>
      var item := if Deadline(packet) < Deadline(slot.packet) then slot else NextItem(s, High, packet);
      if Admit(w, item).Some? {
        AdmitStaysWithin(w, item, p);
      }
    case (GuardPlace(_), GuardFetched(slot, packet)) =>
      if Admit(w, slot).Some? {
        AdmitStaysWithin(w, slot, p);
      }
    case _ =>
  }

  /** Nothing but a lower quota takes a worker out of its quota. */
  lemma StepStaysWithin(s: State, e: Event, id: nat, p: Priority)
    requires id < |s.workers| && WithinQuota(s.workers[id], p) && !Lowers(s, e, p)
    ensures |Step(s, e).workers| == |s.workers| && WithinQuota(Step(s, e).workers[id], p)
  {
    if !e.Arrive? && e.id == id && (e.DrainPlace? || e.PollPlace? || e.GuardPlace?) {
      PlacingStaysWithin(s, e, p);
    }
  }

  /** No worker ever reads a lower quota for class p than before. */
  ghost predicate NeverLowered(es: seq<Event>, p: Priority) {
    es != [] ==>
      var n := |es| - 1;
      NeverLowered(es[..n], p) && !Lowers(Run(Initial(), es[..n]), es[n], p)
  }

  ghost predicate NoneLost(s: State, p: Priority) {
    forall item :: item in s.lost ==> item.priority != p
  }

  /** A step takes items of class p only from a worker that is out of its quota. */
  lemma StepLosesNone(s: State, e: Event, p: Priority)
    requires Inv(s) && NoneLost(s, p)
    requires p == High || forall id :: 0 <= id < |s.workers| ==> WithinQuota(s.workers[id], p)
    ensures NoneLost(Step(s, e), p)
  {
    LossExactlyWhenQuotaShrank(s, e);
  }

  lemma {:induction false} NeverLoweredStaysWithin(es: seq<Event>, p: Priority)
    requires NeverLowered(es, p)
    ensures var s := Run(Initial(), es);
            && Inv(s) && NoneLost(s, p)
            && forall id :: 0 <= id < |s.workers| ==> WithinQuota(s.workers[id], p)
  {
    InitialInv();
    RunKeepsInv(Initial(), es);
    if es == [] {
    } else {
      var n := |es| - 1;
      var s := Run(Initial(), es[..n]);
      NeverLoweredStaysWithin(es[..n], p);
      StepLosesNone(s, es[n], p);
      forall id | 0 <= id < |Step(s, es[n]).workers| ensures WithinQuota(Step(s, es[n]).workers[id], p) {
        StepKeepsLocal(s, es[n], 0);
        StepStaysWithin(s, es[n], id, p);
      }
    }
  }

  /** A class whose quotas never go down loses nothing, whatever happens to the others. */
  lemma NeverLoweredNeverLost(es: seq<Event>, p: Priority)
    requires NeverLowered(es, p)
    ensures NoneLost(Run(Initial(), es), p)
  {
    NeverLoweredStaysWithin(es, p);
  }

  /** Quotas that never go down also never fall below the counts. */
  lemma {:induction false} NeverLoweredCoversCounts(es: seq<Event>)
    requires forall p :: NeverLowered(es, p)
    ensures NeverShrinksBelowCounts(Initial(), es)
  {
    if es == [] {
    } else {
      var n := |es| - 1;
      forall p ensures NeverLowered(es[..n], p) && !Lowers(Run(Initial(), es[..n]), es[n], p) {
        assert NeverLowered(es, p);
      }
      NeverLoweredCoversCounts(es[..n]);
      var e, s := es[n], Run(Initial(), es[..n]);
      if e.ReadQuotas? && e.id < |s.workers| && s.workers[e.id].phase.Top? {
        forall p ensures s.workers[e.id].counts.Get(p) <= e.quota.Get(p) {
          NeverLoweredStaysWithin(es[..n], p);
          assert WithinQuota(s.workers[e.id], p);
          assert !Lowers(s, e, p);
        }
      }
    }
  }

  // ------------------------------------------------------------------
  // Protocol and controller
  // ------------------------------------------------------------------

  /** `published` lists what the controller has stored so far; `seen[id]` says which
      version of each class's quota worker id has read last. */
  datatype System = System(
    state: State,
    controller: A.Controller,
    published: seq<A.Controller>,
    seen: seq<Table<nat>>)

  /** `Read` takes the quota of class p from version `at[p]` and the limit from version
      `limitAt`: every value is an atomic of its own, loaded without ordering. */
  datatype Action =
    | Act(event: Event)
    | Read(id: nat, at: Table<nat>, limitAt: nat)
    | Rebalance(depths: Table<nat>)

  const BEGIN := System(Initial(), A.START, [A.START], [Uniform(0), Uniform(0), Uniform(0)])

  function Limit(c: A.Controller, id: nat): Table<nat> {
    if id < |c.limits| then c.limits[id] else Uniform(0)
  }

  function Total(c: A.Controller, id: nat): nat {
    if id < |c.totals| then c.totals[id] else 0
  }

  /** A worker at its loop top never goes back to an older version of an atomic. */
  predicate Readable(s: System, id: nat, at: Table<nat>, limitAt: nat) {
    && id < |s.state.workers| && id < |s.seen|
    && s.state.workers[id].phase.Top?
    && limitAt < |s.published|
    && s.seen[id].high <= at.high < |s.published|
    && s.seen[id].medium <= at.medium < |s.published|
    && s.seen[id].low <= at.low < |s.published|
    && s.seen[id].bestEffort <= at.bestEffort < |s.published|
  }

  function QuotaAt(s: System, id: nat, at: Table<nat>, p: Priority): nat
    requires at.Get(p) < |s.published|
  {
    Limit(s.published[at.Get(p)], id).Get(p)
  }

  function Loaded(s: System, id: nat, at: Table<nat>, limitAt: nat): Event
    requires Readable(s, id, at, limitAt)
  {
    ReadQuotas(id,
               Table(QuotaAt(s, id, at, High), QuotaAt(s, id, at, Medium), QuotaAt(s, id, at, Low),
                     QuotaAt(s, id, at, BestEffort)),
               Total(s.published[limitAt], id))
  }

  /** A worker that finishes an item reports its processing time. */
  function Reported(s: System, e: Event): A.Controller {
    if e.Finish? && e.id < |s.state.workers| && s.state.workers[e.id].phase.Busy? then
      var slot := s.state.workers[e.id].phase.slot;
      A.Observed(s.controller, slot.priority, ProcessingNs(slot.packet.size))
    else s.controller
  }

  function Next(s: System, a: Action): System {
    match a
    case Act(e) =>
      if e.ReadQuotas? then s else s.(state := Step(s.state, e), controller := Reported(s, e))
    case Read(id, at, limitAt) =>
      if Readable(s, id, at, limitAt)
      then s.(state := Step(s.state, Loaded(s, id, at, limitAt)), seen := s.seen[id := at])
      else s
    case Rebalance(depths) =>
      var c := A.Rebalanced(s.controller, A.DEFAULT_BUDGETS, depths);
      s.(controller := c, published := s.published + [c])
  }

  function RunAll(actions: seq<Action>): System {
    if actions == [] then BEGIN else Next(RunAll(actions[..|actions| - 1]), actions[|actions| - 1])
  }

  // ------------------------------------------------------------------
  // Only Medium can be lost
  // ------------------------------------------------------------------

  /** Low and best-effort quotas after any rebalancing. */
  ghost predicate Settled(c: A.Controller) {
    && |c.limits| == 3
    && c.limits[0].low == c.limits[1].low == 0 && c.limits[2].low == A.LOW_MAX
    && c.limits[0].bestEffort == c.limits[1].bestEffort == 0 && c.limits[2].bestEffort == A.BEST_EFFORT_MAX
  }

  ghost predicate PublishedInv(published: seq<A.Controller>) {
    && published != [] && published[0] == A.START
    && forall k :: 0 < k < |published| ==> Settled(published[k])
  }

  lemma RebalancedIsSettled(c: A.Controller, depths: Table<nat>)
    requires A.EmaBounds(c)
    ensures A.EmaBounds(A.Rebalanced(c, A.DEFAULT_BUDGETS, depths))
            && Settled(A.Rebalanced(c, A.DEFAULT_BUDGETS, depths))
  {
    A.RebalancedBounds(c, depths);
    A.QuotasFollowAssignments(A.DemandOf(c, A.DEFAULT_BUDGETS, depths), 0);
  }

  lemma LaterVersionsAreNoLower(published: seq<A.Controller>, j: nat, k: nat, id: nat, p: Priority)
    requires PublishedInv(published) && j <= k < |published| && id < 3 && (p == Low || p == BestEffort)
    ensures Limit(published[j], id).Get(p) <= Limit(published[k], id).Get(p)
  {
  }

  ghost predicate KeepsUp(s: System, id: nat, p: Priority)
    requires id < |s.state.workers| && id < |s.seen|
  {
    && s.seen[id].Get(p) < |s.published|
    && s.state.workers[id].quota.Get(p) <= QuotaAt(s, id, s.seen[id], p)
    && WithinQuota(s.state.workers[id], p)
  }

  ghost predicate SystemInv(s: System) {
    && Inv(s.state) && |s.state.workers| == |s.seen| == 3
    && A.EmaBounds(s.controller) && PublishedInv(s.published)
    && (forall id :: 0 <= id < 3 ==> KeepsUp(s, id, Low) && KeepsUp(s, id, BestEffort))
    && (forall p :: p != Medium ==> NoneLost(s.state, p))
  }

  lemma QuotaUnlessRead(s: State, e: Event, id: nat)
    requires id < |s.workers| && !(e.ReadQuotas? && e.id == id)
    ensures |Step(s, e).workers| == |s.workers| && Step(s, e).workers[id].quota == s.workers[id].quota
  {
  }

  lemma StepKeepsUp(s: System, e: Event, id: nat, p: Priority)
    requires id < |s.state.workers| && id < |s.seen| && KeepsUp(s, id, p) && !e.ReadQuotas?
    ensures |Step(s.state, e).workers| == |s.state.workers| && KeepsUp(s.(state := Step(s.state, e)), id, p)
  {
    StepStaysWithin(s.state, e, id, p);
    QuotaUnlessRead(s.state, e, id);
  }

  lemma ReadKeepsUp(s: System, reader: nat, at: Table<nat>, limitAt: nat, id: nat, p: Priority)
    requires PublishedInv(s.published) && |s.state.workers| == |s.seen| == 3 && id < 3 && (p == Low || p == BestEffort)
    requires Readable(s, reader, at, limitAt) && KeepsUp(s, reader, p) && KeepsUp(s, id, p)
    ensures |Next(s, Read(reader, at, limitAt)).state.workers| == 3
    ensures KeepsUp(Next(s, Read(reader, at, limitAt)), id, p)
  {
    var e := Loaded(s, reader, at, limitAt);
    LaterVersionsAreNoLower(s.published, s.seen[reader].Get(p), at.Get(p), reader, p);
    assert e.quota.Get(p) == QuotaAt(s, reader, at, p);
    StepStaysWithin(s.state, e, id, p);
    if id != reader {
      QuotaUnlessRead(s.state, e, id);
    }
  }

  lemma StepLosesOnlyMedium(s: System, e: Event)
    requires SystemInv(s)
    ensures forall p :: p != Medium ==> NoneLost(Step(s.state, e), p)
  {
    forall p | p != Medium ensures NoneLost(Step(s.state, e), p) {
      forall id | 0 <= id < 3 && p != High ensures WithinQuota(s.state.workers[id], p) {
        assert KeepsUp(s, id, Low) && KeepsUp(s, id, BestEffort);
      }
      StepLosesNone(s.state, e, p);
    }
  }

  lemma ReportedBounds(s: System, e: Event)
    requires A.EmaBounds(s.controller)
    ensures A.EmaBounds(Reported(s, e))
  {
    if Reported(s, e) != s.controller {
      var slot := s.state.workers[e.id].phase.slot;
      A.ObservedBounds(s.controller, slot.priority, slot.packet.size);
    }
  }

  lemma NextKeepsInv(s: System, a: Action)
    requires SystemInv(s)
    ensures SystemInv(Next(s, a))
  {
    match a
    case Act(e) =>
      if !e.ReadQuotas? {
        StepKeepsInv(s.state, e);
        StepLosesOnlyMedium(s, e);
        ReportedBounds(s, e);
        forall id | 0 <= id < 3
          ensures |Next(s, a).state.workers| == 3
          ensures KeepsUp(Next(s, a), id, Low) && KeepsUp(Next(s, a), id, BestEffort)
        {
          assert KeepsUp(s, id, Low) && KeepsUp(s, id, BestEffort);
          StepKeepsUp(s, e, id, Low);
          StepKeepsUp(s, e, id, BestEffort);
        }
      }
    case Read(reader, at, limitAt) =>
      if Readable(s, reader, at, limitAt) {
        StepKeepsInv(s.state, Loaded(s, reader, at, limitAt));
        StepLosesOnlyMedium(s, Loaded(s, reader, at, limitAt));
        forall id | 0 <= id < 3
          ensures |Next(s, a).state.workers| == 3
          ensures KeepsUp(Next(s, a), id, Low) && KeepsUp(Next(s, a), id, BestEffort)
        {
          assert KeepsUp(s, id, Low) && KeepsUp(s, id, BestEffort);
          assert KeepsUp(s, reader, Low) && KeepsUp(s, reader, BestEffort);
          ReadKeepsUp(s, reader, at, limitAt, id, Low);
          ReadKeepsUp(s, reader, at, limitAt, id, BestEffort);
        }
      }
    case Rebalance(depths) =>
      RebalancedIsSettled(s.controller, depths);
      forall id | 0 <= id < 3 ensures KeepsUp(Next(s, a), id, Low) && KeepsUp(Next(s, a), id, BestEffort) {
        assert KeepsUp(s, id, Low) && KeepsUp(s, id, BestEffort);
      }
  }

  lemma {:induction false} RunAllKeepsInv(actions: seq<Action>)
    ensures SystemInv(RunAll(actions))
  {
    InitialInv();
    if actions == [] {
    } else {
      RunAllKeepsInv(actions[..|actions| - 1]);
      NextKeepsInv(RunAll(actions[..|actions| - 1]), actions[|actions| - 1]);
    }
  }

  /** In every run under the controller only Medium packets are ever lost. */
  lemma OnlyMediumIsLost(actions: seq<Action>, item: WorkItem)
    requires item in RunAll(actions).state.lost
    ensures item.priority == Medium
  {
    RunAllKeepsInv(actions);
    assert item.priority != Medium ==> NoneLost(RunAll(actions).state, item.priority);
  }

  // ------------------------------------------------------------------
  // Medium can be lost
  // ------------------------------------------------------------------

  ghost predicate Reachable(s: System) {
    exists actions :: RunAll(actions) == s
  }

  lemma NextIsReachable(s: System, a: Action)
    requires Reachable(s)
    ensures Reachable(Next(s, a))
  {
    var actions :| RunAll(actions) == s;
    assert (actions + [a])[..|actions|] == actions;
    assert RunAll(actions + [a]) == Next(s, a);
  }

  /** `sys` with the protocol in state `t`. */
  ghost predicate Reaches(sys: System, t: State) {
    Reachable(sys.(state := t))
  }

  lemma Moves(sys: System, t: State, e: Event)
    requires Reaches(sys, t) && !e.ReadQuotas? && !e.Finish?
    ensures Reaches(sys, Step(t, e))
  {
    NextIsReachable(sys.(state := t), Act(e));
  }

  /** Only Medium packets are about, and only worker 2 has done anything. */
  ghost function Two(queue: seq<Packet>, w: Worker, numbered: seq<Packet>, done: Tracker): State {
    State(Table([], queue, [], []), [IDLE, IDLE, w], Table([], numbered, [], []), Table(EMPTY, done, EMPTY, EMPTY), [])
  }

  ghost function Holding(heap: seq<WorkItem>, quota: Table<nat>, limit: nat, atTop: nat, phase: Phase): Worker {
    Worker(heap, Table(0, |heap|, 0, 0), |heap|, quota, limit, Table(0, atTop, 0, 0), phase)
  }

  lemma Arrives(sys: System, queue: seq<Packet>, w: Worker, m: Packet)
    requires Reaches(sys, Two(queue, w, [], EMPTY))
    ensures Reaches(sys, Two(queue + [m], w, [], EMPTY))
  {
    Moves(sys, Two(queue, w, [], EMPTY), Arrive(Medium, m));
    assert Step(Two(queue, w, [], EMPTY), Arrive(Medium, m)) == Two(queue + [m], w, [], EMPTY);
  }

  lemma SkipsTurn(sys: System, queue: seq<Packet>, w: Worker, numbered: seq<Packet>, done: Tracker, turn: nat)
    requires w.phase == Drain(turn) && turn < 4 && (turn != 1 || queue == [])
    requires Reaches(sys, Two(queue, w, numbered, done))
    ensures Reaches(sys, Two(queue, w.(phase := Drain(turn + 1)), numbered, done))
  {
    var t := Two(queue, w, numbered, done);
    assert Classes(2) == ALL && t.inputs.Get(ALL[turn]) == [];
    Moves(sys, t, DrainStep(2));
    assert Step(t, DrainStep(2)).workers == [IDLE, IDLE, w.(phase := Drain(turn + 1))];
  }

  /** Finding the channels from Medium on empty ends the draining. */
  lemma EndsDraining(sys: System, w: Worker, numbered: seq<Packet>, done: Tracker)
    requires w.phase == Drain(1) && Reaches(sys, Two([], w, numbered, done))
    ensures Reaches(sys, Two([], w.(phase := Drain(4)), numbered, done))
  {
    SkipsTurn(sys, [], w, numbered, done, 1);
    SkipsTurn(sys, [], w.(phase := Drain(2)), numbered, done, 2);
    SkipsTurn(sys, [], w.(phase := Drain(3)), numbered, done, 3);
  }

  lemma DrainsOne(sys: System, queue: seq<Packet>, heap: seq<WorkItem>, quota: Table<nat>, limit: nat,
                  numbered: seq<Packet>)
    requires queue != [] && |heap| < quota.medium && |heap| < limit
    requires Reaches(sys, Two(queue, Holding(heap, quota, limit, 0, Drain(1)), numbered, EMPTY))
    ensures Reaches(sys, Two(queue[1..], Holding(heap + [WorkItem(Medium, |numbered|, queue[0])], quota, limit, 0,
            Drain(1)),
                             numbered + [queue[0]], EMPTY))
  {
    assert Classes(2) == ALL && ALL[1] == Medium;
    var t := Two(queue, Holding(heap, quota, limit, 0, Drain(1)), numbered, EMPTY);
    var u := Two(queue[1..], Holding(heap, quota, limit, 0, DrainFetched(1, queue[0])), numbered, EMPTY);
    Moves(sys, t, DrainStep(2));
    assert Step(t, DrainStep(2)).workers == u.workers;
    Moves(sys, u, DrainPlace(2));
    assert Step(u, DrainPlace(2)).workers
        == [IDLE, IDLE, Holding(heap + [WorkItem(Medium, |numbered|, queue[0])], quota, limit, 0, Drain(1))];
  }

  lemma PopsFirst(sys: System, heap: seq<WorkItem>, quota: Table<nat>, limit: nat, atTop: nat, numbered: seq<Packet>,
                  done: Tracker)
    requires heap != [] && heap[0].priority == Medium && Earliest(heap, 0)
    requires Reaches(sys, Two([], Holding(heap, quota, limit, atTop, Drain(4)), numbered, done))
    ensures Reaches(sys, Two([], Holding(heap[1..], quota, limit, atTop, Poll(heap[0])), numbered, done))
  {
    var t := Two([], Holding(heap, quota, limit, atTop, Drain(4)), numbered, done);
    Moves(sys, t, Pop(2, 0));
    assert |Classes(2)| == 4 && Without(heap, 0) == heap[1..];
    assert Step(t, Pop(2, 0)).workers == [IDLE, IDLE, Holding(heap[1..], quota, limit, atTop, Poll(heap[0]))];
  }

  /** Without High packets the popped item goes on to be processed. */
  lemma GetsBusy(sys: System, w: Worker, slot: WorkItem, numbered: seq<Packet>, done: Tracker)
    requires w.phase == Poll(slot) && Reaches(sys, Two([], w, numbered, done))
    ensures Reaches(sys, Two([], w.(phase := Busy(slot)), numbered, done))
  {
    var t := Two([], w, numbered, done);
    var u := Two([], w.(phase := Guard(slot)), numbered, done);
    Moves(sys, t, PollStep(2));
    assert Step(t, PollStep(2)).workers == u.workers;
    Moves(sys, u, GuardStep(2, true));
    assert Step(u, GuardStep(2, true)).workers == [IDLE, IDLE, w.(phase := Busy(slot))];
  }

  lemma Finishes(sys: System, w: Worker, slot: WorkItem, numbered: seq<Packet>)
    requires slot.priority == Medium && w.phase == Busy(slot) && Reaches(sys, Two([], w, numbered, EMPTY))
    ensures var done := Completed(EMPTY, slot.sequence, slot.packet);
            var c := A.Observed(sys.controller, Medium, ProcessingNs(slot.packet.size));
            Reaches(sys.(controller := c), Two([], w.(phase := Top), numbered, done))
  {
    var t := Two([], w, numbered, EMPTY);
    var u := Two([], w.(phase := Top), numbered, Completed(EMPTY, slot.sequence, slot.packet));
    NextIsReachable(sys.(state := t), Act(Finish(2)));
    assert Step(t, Finish(2)).workers == u.workers;
  }

  /** An earlier High packet displaces an item that has no room to go back to. */
  lemma HighDisplaces(sys: System, w: Worker, slot: WorkItem, h: Packet, numbered: seq<Packet>, done: Tracker)
    requires w.phase == Poll(slot) && Reaches(sys, Two([], w, numbered, done))
    requires Room(w, High) && !Room(w, slot.priority) && Deadline(h) < Deadline(slot.packet)
    ensures exists actions :: RunAll(actions).state.lost == [slot]
  {
    var t := Two([], w, numbered, done);
    Moves(sys, t, Arrive(High, h));
    var u := Step(t, Arrive(High, h));
    assert u.inputs.high == [h] && u.workers == t.workers;
    Moves(sys, u, PollStep(2));
    var v := Step(u, PollStep(2));
    assert v.workers[2] == w.(phase := PollFetched(slot, h)) && v.lost == [];
    Moves(sys, v, PollPlace(2));
    assert Step(v, PollPlace(2)).lost == [] + [slot];
    var actions :| RunAll(actions) == sys.(state := Step(v, PollPlace(2)));
    assert RunAll(actions).state.lost == [slot];
  }

  /** Whatever the queue depths, the first rebalancing leaves worker 2 one Medium slot. */
  lemma FirstRebalancing(depths: Table<nat>)
    ensures var c := A.Rebalanced(A.START, A.DEFAULT_BUDGETS, depths);
            Limit(c, 2) == Table(1, 1, 192, 128) && Total(c, 2) == 322
  {
    assert A.Capacity(1_000_000, 100_000) == 9;
    assert A.Capacity(10_000_000, 120_000) == 75;
    assert A.Capacity(100_000_000, 200_000) == 450;
  }

  /** Worker 2 takes in three Medium packets under its initial quotas and processes the
      first. */
  lemma TakesThree(a: WorkItem, b: WorkItem, c: WorkItem)
    requires a.priority == b.priority == c.priority == Medium
    requires a.sequence == 0 && b.sequence == 1 && c.sequence == 2
    requires DeadlineOf(a) <= DeadlineOf(b) && DeadlineOf(a) <= DeadlineOf(c)
    ensures Reaches(BEGIN, Two([], Holding([b, c], A.START.limits[2], 256, 0, Busy(a)), [a.packet, b.packet, c.packet],
                               EMPTY))
  {
    var quota := A.START.limits[2];
    ThreeArrive(a.packet, b.packet, c.packet);
    SkipsTurn(BEGIN, [a.packet, b.packet, c.packet], Holding([], quota, 256, 0, Drain(0)), [], EMPTY, 0);
    DrainsOne(BEGIN, [a.packet, b.packet, c.packet], [], quota, 256, []);
    assert [a.packet, b.packet, c.packet][1..] == [b.packet, c.packet] && [b.packet, c.packet][1..] == [c.packet];
    assert [] + [a] == [a] && [] + [a.packet] == [a.packet] && [c.packet][1..] == [];
    DrainsOne(BEGIN, [b.packet, c.packet], [a], quota, 256, [a.packet]);
    assert [a] + [b] == [a, b] && [a.packet] + [b.packet] == [a.packet, b.packet];
    DrainsOne(BEGIN, [c.packet], [a, b], quota, 256, [a.packet, b.packet]);
    assert [a, b] + [c] == [a, b, c] && [a.packet, b.packet] + [c.packet] == [a.packet, b.packet, c.packet];
    EndsDraining(BEGIN, Holding([a, b, c], quota, 256, 0, Drain(1)), [a.packet, b.packet, c.packet], EMPTY);
    PopsFirst(BEGIN, [a, b, c], quota, 256, 0, [a.packet, b.packet, c.packet], EMPTY);
    assert [a, b, c][1..] == [b, c];
    GetsBusy(BEGIN, Holding([b, c], quota, 256, 0, Poll(a)), a, [a.packet, b.packet, c.packet], EMPTY);
  }

  lemma ThreeArrive(a: Packet, b: Packet, c: Packet)
    ensures Reaches(BEGIN, Two([a, b, c], Holding([], A.START.limits[2], 256, 0, Drain(0)), [], EMPTY))
  {
    assert RunAll([]) == BEGIN && BEGIN.(state := Two([], IDLE, [], EMPTY)) == BEGIN;
    Arrives(BEGIN, [], IDLE, a);
    Arrives(BEGIN, [] + [a], IDLE, b);
    Arrives(BEGIN, [] + [a] + [b], IDLE, c);
    assert [] + [a] + [b] + [c] == [a, b, c];
    var s := BEGIN.(state := Two([a, b, c], IDLE, [], EMPTY));
    NextIsReachable(s, Read(2, Uniform(0), 0));
    assert Loaded(s, 2, Uniform(0), 0) == ReadQuotas(2, A.START.limits[2], 256);
    assert Next(s, Read(2, Uniform(0), 0)).state.workers
        == [IDLE, IDLE, Holding([], A.START.limits[2], 256, 0, Drain(0))];
    assert Next(s, Read(2, Uniform(0), 0)).seen == BEGIN.seen;
  }

  /** The first rebalancing comes while worker 2 processes the first packet. */
  lemma FinishesAfterRebalancing(busy: Worker, a: WorkItem, numbered: seq<Packet>,
                                 depths: Table<nat>) returns (sys: System)
    requires a.priority == Medium && busy.phase == Busy(a) && Reaches(BEGIN, Two([], busy, numbered, EMPTY))
    ensures sys.published == [A.START, A.Rebalanced(A.START, A.DEFAULT_BUDGETS, depths)] && sys.seen == BEGIN.seen
    ensures Reaches(sys, Two([], busy.(phase := Top), numbered, Completed(EMPTY, a.sequence, a.packet)))
  {
    NextIsReachable(BEGIN.(state := Two([], busy, numbered, EMPTY)), Rebalance(depths));
    var next := A.Rebalanced(A.START, A.DEFAULT_BUDGETS, depths);
    sys := BEGIN.(controller := next, published := [A.START, next]);
    assert [A.START] + [next] == [A.START, next];
    Finishes(sys, busy, a, numbered);
    sys := sys.(controller := A.Observed(next, Medium, ProcessingNs(a.packet.size)));
  }

  /** After that worker 2 reads the new quotas and pops the second packet. */
  lemma PopsUnderNewQuota(a: WorkItem, b: WorkItem, c: WorkItem, depths: Table<nat>) returns (sys: System,
                          done: Tracker)
    requires a.priority == b.priority == c.priority == Medium && DeadlineOf(b) <= DeadlineOf(c)
    requires Reaches(BEGIN, Two([], Holding([b, c], A.START.limits[2], 256, 0, Busy(a)), [a.packet, b.packet, c.packet],
                               EMPTY))
    ensures Reaches(sys, Two([], Holding([c], Table(1, 1, 192, 128), 322, 2, Poll(b)), [a.packet, b.packet, c.packet],
            done))
  {
    var numbered := [a.packet, b.packet, c.packet];
    var busy := Holding([b, c], A.START.limits[2], 256, 0, Busy(a));
    sys := FinishesAfterRebalancing(busy, a, numbered, depths);
    done := Completed(EMPTY, a.sequence, a.packet);
    sys := ReadsNewQuota(sys, depths, busy.(phase := Top), numbered, done);
    var w := Holding([b, c], Table(1, 1, 192, 128), 322, 2, Drain(0));
    SkipsTurn(sys, [], w, numbered, done, 0);
    EndsDraining(sys, w.(phase := Drain(1)), numbered, done);
    PopsFirst(sys, [b, c], Table(1, 1, 192, 128), 322, 2, numbered, done);
    assert [b, c][1..] == [c];
  }

  lemma ReadsNewQuota(sys: System, depths: Table<nat>, w: Worker, numbered: seq<Packet>, done: Tracker)
      returns (after: System)
    requires sys.published == [A.START, A.Rebalanced(A.START, A.DEFAULT_BUDGETS, depths)] && sys.seen == BEGIN.seen
    requires w.phase == Top
    requires Reaches(sys, Two([], w, numbered, done))
    ensures Reaches(after, Two([], w.(quota := Table(1, 1, 192, 128), limit := 322, atTop := w.counts,
                                      phase := Drain(0)), numbered, done))
  {
    FirstRebalancing(depths);
    var s := sys.(state := Two([], w, numbered, done));
    NextIsReachable(s, Read(2, Uniform(1), 1));
    assert Loaded(s, 2, Uniform(1), 1) == ReadQuotas(2, Table(1, 1, 192, 128), 322);
    after := sys.(seen := sys.seen[2 := Uniform(1)]);
    assert Next(s, Read(2, Uniform(1), 1)).state.workers
        == [IDLE, IDLE, w.(quota := Table(1, 1, 192, 128), limit := 322, atTop := w.counts, phase := Drain(0))];
  }

  /** Whatever depths the first rebalancing sees, the second of three waiting Medium
      packets is lost when an earlier High packet displaces it. */
  lemma RebalancingLosesAPacket(a: Packet, b: Packet, c: Packet, h: Packet, depths: Table<nat>)
    requires Deadline(a) <= Deadline(b) <= Deadline(c) && Deadline(h) < Deadline(b)
    ensures exists actions :: RunAll(actions).state.lost == [WorkItem(Medium, 1, b)]
  {
    var first, second, third := WorkItem(Medium, 0, a), WorkItem(Medium, 1, b), WorkItem(Medium, 2, c);
    TakesThree(first, second, third);
    var sys, done := PopsUnderNewQuota(first, second, third, depths);
    HighDisplaces(sys, Holding([third], Table(1, 1, 192, 128), 322, 2, Poll(second)), second, h, [a, b, c], done);
  }

  ghost predicate CanBeLost(p: Priority) {
    exists actions, item :: item in RunAll(actions).state.lost && item.priority == p
  }

  /** Under the controller with its default budgets exactly Medium packets can be lost. */
  lemma ExactlyMediumCanBeLost(p: Priority)
    ensures CanBeLost(p) <==> p == Medium
  {
    if p == Medium {
      var m := Packet(0, Medium, 100_000_000, 10_000_000, 200);
      var h := Packet(3, High, 100_200_000, 1_000_000, 200);
      RebalancingLosesAPacket(m, m.(id := 1), m.(id := 2), h, Uniform(0));
      var actions :| RunAll(actions).state.lost == [WorkItem(Medium, 1, m.(id := 1))];
      assert WorkItem(Medium, 1, m.(id := 1)) in RunAll(actions).state.lost;
    }
    if CanBeLost(p) {
      var actions, item :| item in RunAll(actions).state.lost && item.priority == p;
      OnlyMediumIsLost(actions, item);
    }
  }

  // ------------------------------------------------------------------
  // What the controller averages
  // ------------------------------------------------------------------

  /** The processing time of the packet of class p that the action finishes, if any. */
  ghost function NewlyFinished(s: State, a: Action, p: Priority): seq<nat> {
    if a.Act? && a.event.Finish? && a.event.id < |s.workers| && s.workers[a.event.id].phase.Busy?
       && s.workers[a.event.id].phase.slot.priority == p
    then [ProcessingNs(s.workers[a.event.id].phase.slot.packet.size)]
    else []
  }

  ghost function FinishedNs(actions: seq<Action>, p: Priority): seq<nat> {
    if actions == [] then []
    else
      var n := |actions| - 1;
      FinishedNs(actions[..n], p) + NewlyFinished(RunAll(actions[..n]).state, actions[n], p)
  }

  lemma NextAverage(s: System, a: Action, p: Priority)
    ensures var done := NewlyFinished(s.state, a, p);
            Next(s, a).controller.ema.Get(p)
            == if done == [] then s.controller.ema.Get(p) else A.Ema(s.controller.ema.Get(p), done[0])
  {
  }

  /** In every run the average of a class is the moving average over the packets of that
      class the workers have finished, in the order they finished them; popping,
      preempting and rebalancing leave it alone. */
  lemma {:induction false} AveragesFollowFinishes(actions: seq<Action>, p: Priority)
    ensures RunAll(actions).controller.ema.Get(p) == A.EmaRun(A.START.ema.Get(p), FinishedNs(actions, p))
  {
    if actions == [] {
    } else {
      var n := |actions| - 1;
      AveragesFollowFinishes(actions[..n], p);
      NextAverage(RunAll(actions[..n]), actions[n], p);
      var before, done := FinishedNs(actions[..n], p), NewlyFinished(RunAll(actions[..n]).state, actions[n], p);
      if done == [] {
        assert before + done == before;
      } else {
        EmaAppend(A.START.ema.Get(p), before, done[0]);
        assert before + done == before + [done[0]];
      }
    }
  }

  lemma EmaAppend(start: nat, observed: seq<nat>, ns: nat)
    ensures A.EmaRun(start, observed + [ns]) == A.Ema(A.EmaRun(start, observed), ns)
  {
    assert (observed + [ns])[..|observed|] == observed;
  }

  // ------------------------------------------------------------------
  // Quotas of different versions
  // ------------------------------------------------------------------

  /** A worker can work with quotas that were never published together: the loads of its
      pass straddle a rebalancing. */
  lemma QuotasCanBeTorn(depths: Table<nat>)
    ensures exists actions :: var s := RunAll(actions);
              && |s.state.workers| == 3
              && forall k :: 0 <= k < |s.published| ==> s.state.workers[2].quota != Limit(s.published[k], 2)
  {
    var next := A.Rebalanced(A.START, A.DEFAULT_BUDGETS, depths);
    assert RunAll([]) == BEGIN;
    NextIsReachable(BEGIN, Rebalance(depths));
    var s := Next(BEGIN, Rebalance(depths));
    assert s.published == [A.START, next];
    NextIsReachable(s, Read(2, Table(0, 1, 1, 1), 1));
    FirstRebalancing(depths);
    var t := Next(s, Read(2, Table(0, 1, 1, 1), 1));
    assert t.state.workers[2].quota == Table(4, 1, 192, 128);
    var actions :| RunAll(actions) == t;
    assert |RunAll(actions).state.workers| == 3;
  }
}
