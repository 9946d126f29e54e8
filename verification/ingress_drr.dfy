/** Deficit round robin over the ingress sockets. */
module IngressDrr {
  import opened Pipeline
  import Edf

  /** Datagrams waiting at the sockets of a flow. */
  function Waiting(queues: seq<seq<nat>>): nat {
    if queues == [] then 0 else Waiting(queues[..|queues| - 1]) + |queues[|queues| - 1]|
  }

  lemma {:induction false} WaitingUpdate(queues: seq<seq<nat>>, i: nat, queue: seq<nat>)
    requires i < |queues|
    ensures Waiting(queues[i := queue]) == Waiting(queues) - |queues[i]| + |queue|
  {
    var n := |queues| - 1;
    if i == n {
      assert queues[i := queue][..n] == queues[..n];
    } else {
      WaitingUpdate(queues[..n], i, queue);
      assert queues[i := queue][..n] == queues[..n][i := queue];
    }
  }

  lemma WaitingAppendEmpty(queues: seq<seq<nat>>)
    ensures Waiting(queues + [[]]) == Waiting(queues)
  {
    assert (queues + [[]])[..|queues|] == queues;
  }

  lemma {:induction false} NothingWaiting(queues: seq<seq<nat>>)
    requires forall i :: 0 <= i < |queues| ==> queues[i] == []
    ensures Waiting(queues) == 0
  {
    if queues == [] {
    } else {
      NothingWaiting(queues[..|queues| - 1]);
    }
  }

  /** Credit handed out over a number of visits. */
  function Granted(visits: nat, quantum: nat): nat {
    if visits == 0 then 0 else Granted(visits - 1, quantum) + quantum
  }

  lemma {:induction false} GrantedIsProduct(visits: nat, quantum: nat)
    ensures Granted(visits, quantum) == visits * quantum
  {
    if visits == 0 {
    } else {
      GrantedIsProduct(visits - 1, quantum);
      assert visits * quantum == (visits - 1) * quantum + quantum;
    }
  }

  lemma StampedAppend(sent: seq<Packet>, x: Packet)
    requires Edf.Stamped(sent, x.budget) && forall y :: y in sent ==> y.timestamp <= x.timestamp
    ensures Edf.Stamped(sent + [x], x.budget)
  {
    forall i | 0 <= i < |sent| ensures sent[i].timestamp <= x.timestamp {
      assert sent[i] in sent;
    }
  }

  /** What one look at a socket led to. */
  datatype Outcome = Nothing | Blank | Forwarded | Refused

  /** The running flag as this stage has read it: other threads may clear it any time. */
  class RunningFlag {
    var cleared: bool

    constructor ()
      ensures !cleared
    {
      cleared := false;
    }

    method Load() returns (running: bool)
      modifies this
      ensures running <==> !cleared
      ensures old(cleared) ==> cleared
    {
      var clears: bool := *;
      cleared := cleared || clears;
      running := !cleared;
    }
  }

  class Flow {
    const priority: Priority
    const quantum: nat
    const budget: nat
    const capacity: nat          // of the priority channel
    var deficit: nat
    var queues: seq<seq<nat>>    // sizes of the datagrams waiting at each socket
    var inChannel: nat           // packets in the priority channel
    var drops: nat
    var clock: nat               // last clock reading seen by this flow
    ghost var sent: seq<Packet>  // everything that entered the priority channel
    ghost var visits: nat
    ghost var consumed: nat
    ghost var blanks: nat        // empty datagrams consumed
    ghost var arrived: nat       // datagrams that ever reached the sockets
    ghost var available: seq<nat>  // datagrams there to be read, visit by visit
    ghost var clean: bool          // no visit was interrupted or met an empty datagram

    constructor (priority: Priority, quantum: nat, budget: nat, capacity: nat)
      ensures Valid() && visits == 0 && deficit == 0 && queues == [] && sent == [] && available == [] && clean
      ensures this.priority == priority && this.quantum == quantum && this.budget == budget
      ensures this.capacity == capacity
    {
      this.priority, this.quantum, this.budget, this.capacity := priority, quantum, budget, capacity;
      deficit, queues, inChannel, drops, clock := 0, [], 0, 0, 0;
      sent, visits, consumed, blanks, arrived := [], 0, 0, 0, 0;
      available, clean := [], true;
    }

    /** Exact accounting: every credit granted has been read against or is still held,
        every packet read was forwarded or dropped, and every datagram is accounted for.
        The channel has one budget and monotone timestamps. */
    ghost predicate Accounts(credit: nat)
      reads this
    {
      && Granted(visits, quantum) == consumed + credit
      && consumed == |sent| + drops
      && arrived == consumed + blanks + Waiting(queues)
      && inChannel <= capacity
      && Edf.Stamped(sent, budget)
      && forall x :: x in sent ==> x.priority == priority && x.timestamp <= clock
    }

    /** Clean visits follow the recursion over what was available. */
    ghost predicate History()
      reads this
    {
      && |available| == visits
      && (clean ==> consumed == Consumed(quantum, available) && deficit == Deficit(quantum, available))
    }

    ghost predicate Valid()
      reads this
    {
      Accounts(deficit) && History()
    }

    method AddSocket()
      requires Valid()
      modifies this`queues
      ensures Valid() && queues == old(queues) + [[]]
    {
      WaitingAppendEmpty(queues);
      queues := queues + [[]];
    }

    /** A receive sees whatever has arrived at the socket by then. */
    method TryRecv(i: nat) returns (r: Option<nat>, ghost queue: seq<nat>)
      requires i < |queues|
      modifies this`queues, this`arrived
      ensures old(queues)[i] <= queue && arrived == old(arrived) + |queue| - |old(queues)[i]|
      ensures r == if queue == [] then None else Some(queue[0])
      ensures queues == old(queues)[i := if queue == [] then [] else queue[1..]]
    {
      var more: seq<nat> := *;
      var waiting := queues[i] + more;
      queue := waiting;
      arrived := arrived + |more|;
      if waiting == [] {
        queues, r := queues[i := []], None;
      } else {
        queues, r := queues[i := waiting[1..]], Some(waiting[0]);
      }
    }

    /** The next stage may have emptied part of the channel by the time of the send. */
    method TrySend(packet: Packet) returns (sentOff: bool)
      requires inChannel <= capacity
      modifies this`inChannel, this`sent
      ensures inChannel <= capacity
      ensures sent == if sentOff then old(sent) + [packet] else old(sent)
      ensures !sentOff ==> inChannel == capacity
    {
      var left: nat :| left <= inChannel;
      inChannel := left;
      sentOff := inChannel < capacity;
      if sentOff {
        inChannel := inChannel + 1;
        sent := sent + [packet];
      }
    }

    /** One socket of a pass, `queue` being what waits there at the receive. The head is
        consumed; an empty datagram costs no credit, any other becomes a packet of its
        size, stamped with the clock, that enters the channel or, if that is full, is
        dropped. */
    method ReadFrom(i: nat, ghost credit: nat) returns (outcome: Outcome, ghost queue: seq<nat>)
      requires i < |queues| && credit > 0 && Accounts(credit)
      modifies this`queues, this`arrived, this`blanks, this`consumed, this`sent, this`inChannel, this`drops, this`clock
      ensures Accounts(if outcome.Forwarded? || outcome.Refused? then credit - 1 else credit)
      ensures old(queues)[i] <= queue && arrived == old(arrived) + |queue| - |old(queues)[i]|
      ensures queues == old(queues)[i := if queue == [] then [] else queue[1..]]
      ensures outcome.Nothing? <==> queue == []
      ensures outcome.Blank? <==> queue != [] && queue[0] == 0
      ensures blanks == old(blanks) + (if outcome.Blank? then 1 else 0)
      ensures drops == old(drops) + (if outcome.Refused? then 1 else 0)
      ensures outcome.Forwarded? ==>
                && |sent| == |old(sent)| + 1 && sent[..|old(sent)|] == old(sent)
                && sent[|old(sent)|] == Packet(sent[|old(sent)|].id, priority, clock, budget, queue[0])
      ensures !outcome.Forwarded? ==> sent == old(sent)
      ensures outcome.Refused? ==> inChannel == capacity
      ensures clock >= old(clock)
    {
      var r;
      r, queue := TryRecv(i);
      WaitingUpdate(old(queues), i, queues[i]);
      if r.None? {
        return Nothing, queue;
      }
      if r.value == 0 {
        blanks := blanks + 1;
        return Blank, queue;
      }
      consumed := consumed + 1;
      var time: nat := *;
      clock := Max(clock, time);
      var id: nat := *;
      var packet := Packet(id, priority, clock, budget, r.value);
      StampedAppend(sent, packet);
      var sentOff := TrySend(packet);
      if sentOff {
        outcome := Forwarded;
      } else {
        drops := drops + 1;
        outcome := Refused;
      }
    }

    /** One pass over the sockets, with at most one datagram from each. A refused packet
        ends the pass, not the visit, so a pass drops at most one.
        `interrupted` is set when the flag was read as cleared. */
    method Pass(credit: nat, flag: RunningFlag)
        returns (left: nat, readAny: bool, interrupted: bool, ghost skipped: set<nat>)
      requires credit > 0 && Accounts(credit)
      modifies this`queues, this`arrived, this`blanks, this`consumed, this`sent, this`inChannel, this`drops, this`clock
      modifies flag
      ensures Accounts(left) && left <= credit && (readAny <==> left < credit)
      ensures if interrupted then flag.cleared else flag.cleared == old(flag.cleared)
      ensures |queues| == |old(queues)| && blanks >= old(blanks) && arrived >= old(arrived)
      ensures !readAny && !interrupted ==> forall k :: 0 <= k < |queues| ==> queues[k] == [] || k in skipped
      ensures blanks == old(blanks) ==> skipped == {}
      ensures old(drops) <= drops <= old(drops) + 1
      ensures forall k :: 0 <= k < |queues| ==> |queues[k]| + 1 >= |old(queues)[k]|
    {
      left, readAny, interrupted, skipped := credit, false, false, {};
      for i := 0 to |queues|
        invariant Accounts(left) && left <= credit && (readAny <==> left < credit)
        invariant flag.cleared == old(flag.cleared)
        invariant |queues| == |old(queues)| && blanks >= old(blanks) && arrived >= old(arrived) && !interrupted
        invariant !readAny ==> forall k :: 0 <= k < i ==> queues[k] == [] || k in skipped
        invariant blanks == old(blanks) ==> skipped == {}
        invariant drops == old(drops)
        invariant forall k :: 0 <= k < |queues| ==> |queues[k]| + (if k < i then 1 else 0) >= |old(queues)[k]|
      {
        if left == 0 {
          break;
        }
        var running := flag.Load();
        if !running {
          interrupted := true;
          break;
        }
        var outcome;
        ghost var queue;
        outcome, queue := ReadFrom(i, left);
        match outcome {
          case Nothing =>
          case Blank => skipped := skipped + {i};
          case Forwarded => left, readAny := left - 1, true;
          case Refused =>
            left, readAny := left - 1, true;
            break;
        }
      }
    }

    /** One visit of the round robin. Credit left over after a complete visit means that
        the last pass found every socket empty or wasted on an empty datagram. */
    method Visit(flag: RunningFlag) returns (interrupted: bool)
      requires Valid()
      modifies this, flag
      ensures if interrupted then flag.cleared else flag.cleared == old(flag.cleared)
      ensures Valid() && visits == old(visits) + 1 && |queues| == |old(queues)|
      ensures arrived >= old(arrived) && consumed >= old(consumed)
      ensures !interrupted && blanks == old(blanks) ==>
                consumed - old(consumed) == Min(old(deficit) + quantum, old(Waiting(queues)) + (arrived - old(arrived)))
      ensures available == old(available) + [old(Waiting(queues)) + (arrived - old(arrived))]
      ensures clean <==> old(clean) && !interrupted && blanks == old(blanks)
    {
      interrupted := VisitSockets(flag);
      ghost var there: nat := old(Waiting(queues)) + (arrived - old(arrived));
      available := available + [there];
      clean := clean && !interrupted && blanks == old(blanks);
      HistoryStep(quantum, old(available), there);
    }

    method VisitSockets(flag: RunningFlag) returns (interrupted: bool)
      requires Valid()
      modifies this`deficit, this`queues, this`inChannel, this`drops, this`clock, this`sent
      modifies this`visits, this`consumed, this`blanks, this`arrived
      modifies flag
      ensures if interrupted then flag.cleared else flag.cleared == old(flag.cleared)
      ensures Accounts(deficit) && visits == old(visits) + 1 && |queues| == |old(queues)|
      ensures arrived >= old(arrived) && consumed >= old(consumed)
      ensures !interrupted && blanks == old(blanks) ==>
                consumed - old(consumed) == Min(old(deficit) + quantum, old(Waiting(queues)) + (arrived - old(arrived)))
      ensures consumed - old(consumed) + deficit == old(deficit) + quantum
    {
      interrupted := false;
      visits := visits + 1;
      var local: nat := deficit + quantum;
      deficit := local;
      if local == 0 {
        return;
      }
      ghost var granted: nat := local;
      ghost var done := false;
      while local > 0
        invariant Accounts(local) && |queues| == |old(queues)| && visits == old(visits) + 1
        invariant blanks >= old(blanks) && arrived >= old(arrived) && consumed - old(consumed) == granted - local
        invariant !done && flag.cleared == old(flag.cleared)
        decreases local
      {
        var running := flag.Load();
        if !running {
          interrupted := true;
          break;
        }
        var readAny: bool;
        ghost var skipped: set<nat>;
        local, readAny, interrupted, skipped := Pass(local, flag);
        if interrupted {
          break;
        }
        if !readAny {
          done := true;
          break;
        }
      }
      deficit := local;
      if done && blanks == old(blanks) {
        NothingWaiting(queues);
      }
    }
  }

  class IngressDRRScheduler {
    var flows: seq<Flow>    // active flows in order of first registration
    var current: nat

    constructor ()
      ensures Valid() && flows == [] && current == 0
    {
      flows, current := [], 0;
    }

    ghost predicate Valid()
      reads this, flows
    {
      && (forall i :: 0 <= i < |flows| ==> flows[i].Valid())
      && (forall i, j :: 0 <= i < j < |flows| ==> flows[i].priority != flows[j].priority)
      && current < Max(|flows|, 1)
    }

    /** The first socket of a class fixes its quantum and budget; later ones only add
        their queue. */
    method AddSocket(p: Priority, budget: nat, quantum: nat, capacity: nat)
      requires Valid()
      modifies this, flows
      ensures Valid() && old(flows) <= flows && |flows| <= |old(flows)| + 1
      ensures (exists f :: f in old(flows) && f.priority == p) <==> flows == old(flows)
      ensures flows != old(flows) ==>
                var f := flows[|old(flows)|];
                fresh(f) && f.priority == p && f.budget == budget && f.quantum == quantum && f.capacity == capacity
                    && f.queues == [[]]
      ensures forall f :: f in old(flows) ==>
                f.queues == (if f.priority == p then old(f.queues) + [[]] else old(f.queues))
                    && f.deficit == old(f.deficit)
    {
      for i := 0 to |flows|
        invariant Valid() && flows == old(flows) && current == old(current)
        invariant forall k :: 0 <= k < i ==> flows[k].priority != p
        invariant forall f :: f in flows ==> f.queues == old(f.queues) && f.deficit == old(f.deficit)
      {
        if flows[i].priority == p {
          flows[i].AddSocket();
          return;
        }
      }
      var flow := new Flow(p, quantum, budget, capacity);
      flow.AddSocket();
      flows := flows + [flow];
    }

    method VisitFlow(index: nat, flag: RunningFlag)
      requires Valid() && index < |flows|
      modifies flows[index], flag
      ensures Valid()
      ensures VisitedOnce(old(flows[index].available), flows[index].available)
    {
      assert forall k :: 0 <= k < |flows| && k != index ==> flows[k] != flows[index];
      var _ := flows[index].Visit(flag);
    }

    /** The flows of the first i turns have been visited since `histories` were taken. */
    ghost predicate Progress(histories: seq<seq<nat>>, i: nat)
      requires current < |flows|
      reads this, flows
    {
      && |histories| == |flows|
      && forall k :: 0 <= k < |flows| ==>
           if Turn(|flows|, current, k) < i then VisitedOnce(histories[k], flows[k].available)
           else flows[k].available == histories[k]
    }

    /** Turn i of a round. */
    method VisitTurn(i: nat, flag: RunningFlag, ghost histories: seq<seq<nat>>) returns (index: nat)
      requires Valid() && i < |flows| && Progress(histories, i)
      modifies flows, flag
      ensures Valid() && index == Visited(|flows|, current, i) && Progress(histories, i + 1)
    {
      index := Visited(|flows|, current, i);
      OnlyThisTurn(|flows|, current, i);
      assert forall k :: 0 <= k < |flows| && k != index ==> flows[k] != flows[index];
      VisitFlow(index, flag);
    }

    /** One round: unless the flag is read as cleared, every flow is visited exactly once,
        beginning with the current one. A visit adds one entry to the flow's history. */
    method Round(flag: RunningFlag) returns (interrupted: bool, ghost order: seq<nat>)
      requires Valid()
      modifies this`current, flows, flag
      ensures interrupted ==> flag.cleared
      ensures Valid() && flows == old(flows)
      ensures flows != [] ==> current == (old(current) + 1) % |flows|
      ensures |order| <= |flows| && (!interrupted ==> |order| == |flows|)
      ensures forall i :: 0 <= i < |order| ==> order[i] == Visited(|flows|, old(current), i)
      ensures forall k :: 0 <= k < |flows| ==>
                if Turn(|flows|, old(current), k) < |order|
                then VisitedOnce(old(flows[k].available), flows[k].available)
                else flows[k].available == old(flows[k].available)
    {
      interrupted, order := false, [];
      var n := |flows|;
      if n == 0 {
        return;
      }
      ghost var histories := HistoriesOf(flows);
      for i := 0 to n
        invariant Valid() && flows == old(flows) && current == old(current) && |order| == i
        invariant forall j :: 0 <= j < i ==> order[j] == Visited(n, current, j)
        invariant Progress(histories, i)
      {
        var running := flag.Load();
        if !running {
          interrupted := true;
          break;
        }
        var index := VisitTurn(i, flag, histories);
        order := order + [index];
      }
      current := (current + 1) % n;
    }
  }

  ghost function HistoriesOf(flows: seq<Flow>): (r: seq<seq<nat>>)
    reads flows
    ensures |r| == |flows| && forall k :: 0 <= k < |flows| ==> r[k] == flows[k].available
  {
    seq(|flows|, k requires 0 <= k < |flows| reads flows => flows[k].available)
  }

  /** The history of a flow before and after a single visit. */
  predicate VisitedOnce(before: seq<nat>, after: seq<nat>) {
    before < after && |after| == |before| + 1
  }

  // ------------------------------------------------------------------
  // Rotation
  // ------------------------------------------------------------------

  /** The flow visited at turn i of a round that starts at flow `start`. */
  function Visited(n: nat, start: nat, i: nat): (k: nat)
    requires start < n && i < n
    ensures k == if start + i < n then start + i else start + i - n
  {
    if start + i >= n then SmallMod(start + i - n, n); (start + i) % n else (start + i) % n
  }

  /** The turn at which flow k is visited. */
  function Turn(n: nat, start: nat, k: nat): (turn: nat)
    requires start < n && k < n
    ensures turn < n
  {
    if k >= start then k - start else k + n - start
  }

  lemma OnlyThisTurn(n: nat, start: nat, i: nat)
    requires start < n && i < n
    ensures forall k :: 0 <= k < n ==> (Turn(n, start, k) == i <==> k == Visited(n, start, i))
  {
  }

  lemma SmallMod(x: nat, n: nat)
    requires x < n
    ensures (x + n) % n == x
  {
  }

  /** Every flow has exactly one turn in each round. */
  lemma OneTurnEach(n: nat, start: nat, k: nat)
    requires start < n && k < n
    ensures Visited(n, start, Turn(n, start, k)) == k
    ensures forall i :: 0 <= i < n && Visited(n, start, i) == k ==> i == Turn(n, start, k)
  {
  }

  /** The starting flow of round r, and the number of visits of any flow that precede
      flow k's visit in that round. */
  function Start(n: nat, start: nat, r: nat): (s: nat)
    requires start < n
    ensures s < n
  {
    if r == 0 then start else (Start(n, start, r - 1) + 1) % n
  }

  lemma NextStart(n: nat, s: nat)
    requires s < n
    ensures (s + 1) % n == if s == n - 1 then 0 else s + 1
  {
  }

  function VisitNumber(n: nat, start: nat, r: nat, k: nat): nat
    requires start < n && k < n
  {
    r * n + Turn(n, Start(n, start, r), k)
  }

  /** Between two consecutive visits to a flow lie n-2 visits to other flows, or 2n-2 when
      the flow opened the earlier round. */
  lemma GapBetweenVisits(n: nat, start: nat, r: nat, k: nat)
    requires start < n && k < n
    ensures VisitNumber(n, start, r + 1, k) - VisitNumber(n, start, r, k) - 1
            == if Start(n, start, r) == k then 2 * n - 2 else n - 2
  {
    var s := Start(n, start, r);
    assert (r + 1) * n == r * n + n;
    NextStart(n, s);
  }

  // ------------------------------------------------------------------
  // Fairness and idle credit
  // ------------------------------------------------------------------

  /** Reads and remaining credit after complete visits without empty datagrams;
      `available[v]` datagrams are there to be read at visit v. */
  function Consumed(quantum: nat, available: seq<nat>): nat {
    if available == [] then 0
    else
      var n := |available| - 1;
      Consumed(quantum, available[..n]) + Min(Deficit(quantum, available[..n]) + quantum, available[n])
  }

  function Deficit(quantum: nat, available: seq<nat>): nat {
    if available == [] then 0
    else
      var n := |available| - 1;
      Monus(Deficit(quantum, available[..n]) + quantum, available[n])
  }

  lemma HistoryStep(quantum: nat, available: seq<nat>, there: nat)
    ensures Consumed(quantum, available + [there])
         == Consumed(quantum, available) + Min(Deficit(quantum, available) + quantum, there)
    ensures Deficit(quantum, available + [there]) == Monus(Deficit(quantum, available) + quantum, there)
  {
    assert (available + [there])[..|available|] == available;
  }

  lemma {:induction false} CreditIsConserved(quantum: nat, available: seq<nat>)
    ensures |available| * quantum == Consumed(quantum, available) + Deficit(quantum, available)
  {
    if available == [] {
    } else {
      var n := |available| - 1;
      CreditIsConserved(quantum, available[..n]);
      assert (n + 1) * quantum == n * quantum + quantum;
    }
  }

  ghost predicate Backlogged(quantum: nat, available: seq<nat>) {
    forall v :: 0 <= v < |available| ==> available[v] >= quantum
  }

  /** A backlogged flow reads its whole credit, from any visit on after which none was left. */
  lemma {:induction false} BackloggedSince(quantum: nat, available: seq<nat>, since: nat)
    requires since <= |available| && Deficit(quantum, available[..since]) == 0
    requires Backlogged(quantum, available[since..])
    ensures Deficit(quantum, available) == 0
    ensures Consumed(quantum, available) == Consumed(quantum, available[..since])
            + Granted(|available| - since, quantum)
  {
    var n := |available| - 1;
    if since == |available| {
      assert available[..since] == available;
    } else {
      var init := available[..n];
      assert init[..since] == available[..since] && available[since..][..n - since] == init[since..];
      assert available[n] == available[since..][n - since];
      forall v | 0 <= v < |init[since..]| ensures init[since..][v] >= quantum {
        assert init[since..][v] == available[since..][v];
      }
      BackloggedSince(quantum, init, since);
    }
  }

  /** Packets a flow has read since visit number `since`. */
  ghost function ReadSince(f: Flow, since: nat): int
    requires since <= |f.available|
    reads f
  {
    f.consumed - Consumed(f.quantum, f.available[..since])
  }

  /** Flow f held no credit after visit number `since` and was backlogged in every visit
      from then on. */
  ghost predicate BackloggedFlow(f: Flow, since: nat)
    reads f
  {
    && f.Valid() && f.clean && since <= |f.available|
    && Deficit(f.quantum, f.available[..since]) == 0
    && Backlogged(f.quantum, f.available[since..])
  }

  /** Two flows of the scheduler that are backlogged in every one of their last v visits,
      one visit per round, are served in exact proportion to their quanta. */
  lemma BackloggedFlowsShareFairly(f: Flow, g: Flow, v: nat)
    requires v <= |f.available| && v <= |g.available|
    requires BackloggedFlow(f, |f.available| - v) && BackloggedFlow(g, |g.available| - v)
    ensures g.quantum * ReadSince(f, |f.available| - v) == f.quantum * ReadSince(g, |g.available| - v)
    ensures ReadSince(f, |f.available| - v) == v * f.quantum
  {
    BackloggedSince(f.quantum, f.available, |f.available| - v);
    BackloggedSince(g.quantum, g.available, |g.available| - v);
    GrantedIsProduct(v, f.quantum);
    GrantedIsProduct(v, g.quantum);
    Rearranged(v, f.quantum, g.quantum);
  }

  lemma Rearranged(v: nat, a: nat, b: nat)
    ensures b * (v * a) == a * (v * b)
  {
    assert b * (v * a) == (v * b) * a;
  }

  /** Whatever the arrivals, no flow has ever read more than its quanta allow. */
  lemma NeverAheadOfItsShare(quantum: nat, available: seq<nat>)
    ensures Consumed(quantum, available) <= |available| * quantum
  {
    CreditIsConserved(quantum, available);
  }

  /** Credit is never taken back: after v idle visits a flow may read v + 1 quanta in one. */
  lemma {:induction false} IdleCreditAccumulates(quantum: nat, idle: nat, burst: nat)
    ensures var silence := seq(idle, _ => 0);
            && Deficit(quantum, silence) == idle * quantum
            && Consumed(quantum, silence + [burst]) == Min((idle + 1) * quantum, burst)
  {
    var silence: seq<nat> := seq(idle, _ => 0);
    SilentVisitsReadNothing(quantum, idle);
    CreditIsConserved(quantum, silence);
    assert (silence + [burst])[..idle] == silence;
    assert (idle + 1) * quantum == idle * quantum + quantum;
  }

  lemma {:induction false} SilentVisitsReadNothing(quantum: nat, idle: nat)
    ensures Consumed(quantum, seq(idle, _ => 0)) == 0
  {
    if idle == 0 {
    } else {
      SilentVisitsReadNothing(quantum, idle - 1);
      var silence: seq<nat> := seq(idle, _ => 0);
      assert silence[..idle - 1] == seq(idle - 1, _ => 0);
    }
  }
}
