/** Restoring per-priority order after out-of-order completion. */
module SequenceTracking {
  import opened Pipeline
  import opened Heaps
  import opened EgressChannels

  // ------------------------------------------------------------------
  // The tracker as a value
  // ------------------------------------------------------------------

  /** `emitted` logs every packet handed to the egress sender, oldest first. */
  datatype Tracker = Tracker(nextEmit: nat, pending: map<nat, Packet>, emitted: seq<Packet>)

  const EMPTY := Tracker(0, map[], [])

  /** Emit buffered packets for as long as their numbers are consecutive. */
  function Cascade(n: nat, pending: map<nat, Packet>, out: seq<Packet>): Tracker
    decreases pending.Keys
  {
    if n in pending then Cascade(n + 1, pending - {n}, out + [pending[n]])
    else Tracker(n, pending, out)
  }

  function Completed(t: Tracker, k: nat, p: Packet): Tracker {
    if k == t.nextEmit then Cascade(k + 1, t.pending, t.emitted + [p])
    else t.(pending := t.pending[k := p])
  }

  // ------------------------------------------------------------------
  // Reference: the longest completed prefix
  // ------------------------------------------------------------------

  /** The tracker state that a set of completions calls for: everything below the
      first gap has been emitted in order, everything above it is buffered. */
  ghost predicate Represents(t: Tracker, done: map<nat, Packet>) {
    && t.nextEmit !in done
    && |t.emitted| == t.nextEmit
    && (forall k: nat :: k < t.nextEmit ==> k in done && t.emitted[k] == done[k])
    && (forall k: nat :: k in t.pending <==> k in done && k > t.nextEmit)
    && (forall k: nat :: k in t.pending ==> t.pending[k] == done[k])
  }

  /** The completions determine the tracker state completely. */
  lemma RepresentationIsUnique(t: Tracker, u: Tracker, done: map<nat, Packet>)
    requires Represents(t, done) && Represents(u, done)
    ensures t == u
  {
    assert t.nextEmit == u.nextEmit;
    assert t.emitted == u.emitted;
    assert t.pending == u.pending;
  }

  lemma {:induction false} CascadeRepresents(n: nat, pending: map<nat, Packet>, out: seq<Packet>, done: map<nat,
                                             Packet>)
    requires |out| == n
    requires forall k: nat :: k < n ==> k in done && out[k] == done[k]
    requires forall k: nat :: k in pending <==> k in done && k >= n
    requires forall k: nat :: k in pending ==> pending[k] == done[k]
    ensures Represents(Cascade(n, pending, out), done)
    decreases pending.Keys
  {
    if n in pending {
      CascadeRepresents(n + 1, pending - {n}, out + [pending[n]], done);
    }
  }

  lemma CompleteRepresents(t: Tracker, done: map<nat, Packet>, k: nat, p: Packet)
    requires Represents(t, done) && k !in done
    ensures Represents(Completed(t, k, p), done[k := p])
  {
    if k == t.nextEmit {
      CascadeRepresents(k + 1, t.pending, t.emitted + [p], done[k := p]);
    }
  }

  // ------------------------------------------------------------------
  // Whole runs
  // ------------------------------------------------------------------

  datatype Completion = Completion(number: nat, packet: Packet)

  function Replay(cs: seq<Completion>): Tracker {
    if cs == [] then EMPTY
    else var last := cs[|cs| - 1]; Completed(Replay(cs[..|cs| - 1]), last.number, last.packet)
  }

  function Done(cs: seq<Completion>): map<nat, Packet> {
    if cs == [] then map[]
    else var last := cs[|cs| - 1]; Done(cs[..|cs| - 1])[last.number := last.packet]
  }

  ghost predicate EachOnce(cs: seq<Completion>) {
    forall i, j :: 0 <= i < j < |cs| ==> cs[i].number != cs[j].number
  }

  ghost predicate Includes(cs: seq<Completion>, k: nat) {
    exists i :: 0 <= i < |cs| && cs[i].number == k
  }

  lemma IncludesLast(cs: seq<Completion>)
    requires cs != []
    ensures forall k: nat :: Includes(cs, k) <==> Includes(cs[..|cs| - 1], k) || k == cs[|cs| - 1].number
  {
    var n := |cs| - 1;
    forall k: nat | Includes(cs, k) ensures Includes(cs[..n], k) || k == cs[n].number {
      var i :| 0 <= i < |cs| && cs[i].number == k;
      assert i < n ==> cs[..n][i].number == k;
    }
    forall k: nat | Includes(cs[..n], k) || k == cs[n].number ensures Includes(cs, k) {
      if k != cs[n].number {
        var i :| 0 <= i < n && cs[..n][i].number == k;
        assert cs[i].number == k;
      }
    }
  }

  lemma {:induction false} DoneIsTheCompletions(cs: seq<Completion>)
    requires EachOnce(cs)
    ensures forall k: nat :: k in Done(cs) <==> Includes(cs, k)
    ensures forall i :: 0 <= i < |cs| ==> cs[i].number in Done(cs) && Done(cs)[cs[i].number] == cs[i].packet
  {
    if cs == [] {
    } else {
      var init := cs[..|cs| - 1];
      DoneIsTheCompletions(init);
      IncludesLast(cs);
      forall i | 0 <= i < |cs|
        ensures cs[i].number in Done(cs) && Done(cs)[cs[i].number] == cs[i].packet
      {
        assert i < |init| ==> cs[i] == init[i];
      }
    }
  }

  /** Completions in any order: what has been emitted is exactly the longest prefix
      of numbers that have all completed, and the rest is buffered. */
  lemma {:induction false} EmitsLongestCompletedPrefix(cs: seq<Completion>)
    requires EachOnce(cs)
    ensures Represents(Replay(cs), Done(cs))
  {
    if cs == [] {
    } else {
      var init := cs[..|cs| - 1];
      EmitsLongestCompletedPrefix(init);
      DoneIsTheCompletions(init);
      CompleteRepresents(Replay(init), Done(init), cs[|cs| - 1].number, cs[|cs| - 1].packet);
    }
  }

  /** The order in which the workers finish does not influence the result. */
  lemma CompletionOrderIsIrrelevant(cs: seq<Completion>, ds: seq<Completion>)
    requires EachOnce(cs) && EachOnce(ds)
    requires forall c :: c in cs <==> c in ds
    ensures Replay(cs) == Replay(ds)
  {
    EmitsLongestCompletedPrefix(cs);
    EmitsLongestCompletedPrefix(ds);
    DoneIsTheCompletions(cs);
    DoneIsTheCompletions(ds);
    forall k: nat | k in Done(cs) ensures k in Done(ds) && Done(ds)[k] == Done(cs)[k] {
      var i :| 0 <= i < |cs| && cs[i].number == k;
      assert cs[i] in ds;
    }
    forall k: nat | k in Done(ds) ensures k in Done(cs) {
      var i :| 0 <= i < |ds| && ds[i].number == k;
      assert ds[i] in cs;
    }
    assert Done(cs) == Done(ds);
    RepresentationIsUnique(Replay(cs), Replay(ds), Done(cs));
  }

  /** Once numbers 0..n-1 have all completed, nothing is left behind in the buffer. */
  lemma AllCompletedAllEmitted(cs: seq<Completion>)
    requires EachOnce(cs)
    requires forall i :: 0 <= i < |cs| ==> cs[i].number < |cs|
    requires forall k: nat :: k < |cs| ==> Includes(cs, k)
    ensures Replay(cs).nextEmit == |cs| && Replay(cs).pending == map[]
  {
    EmitsLongestCompletedPrefix(cs);
    DoneIsTheCompletions(cs);
    var t := Replay(cs);
    assert t.nextEmit !in Done(cs);
    assert forall k: nat :: k in Done(cs) ==> k < |cs|;
    assert forall k: nat :: k !in t.pending;
  }

  // ------------------------------------------------------------------
  // The objects
  // ------------------------------------------------------------------

  class SequenceTracker {
    var nextSequence: nat
    var nextEmit: nat
    var pending: map<nat, Packet>
    ghost var emitted: seq<Packet>

    constructor ()
      ensures nextSequence == 0 && State() == EMPTY
    {
      nextSequence, nextEmit, pending, emitted := 0, 0, map[], [];
    }

    ghost function State(): Tracker
      reads this
    {
      Tracker(nextEmit, pending, emitted)
    }

    method AssignSequence() returns (number: nat)
      modifies this`nextSequence
      ensures number == old(nextSequence) && nextSequence == number + 1
    {
      number := nextSequence;
      nextSequence := nextSequence + 1;
    }

    /** Runs under the tracker's lock; the egress thread keeps receiving meanwhile. */
    method Complete(sequence: nat, packet: Packet, egress: Egress) returns (ghost sent: seq<Packet>)
      requires egress.Valid()
      modifies this`nextEmit, this`pending, this`emitted, egress
      ensures State() == Completed(old(State()), sequence, packet)
      ensures egress.Valid()
      ensures emitted == old(emitted) + sent && egress.offered == old(egress.offered) + sent
    {
      sent := [];
      if sequence == nextEmit {
        sent := [packet];
        egress.SendPacket(packet);
        emitted := emitted + [packet];
        var next := nextEmit + 1;
        while next in pending
          invariant egress.Valid() && next > nextEmit
          invariant Cascade(next, pending, emitted) == Completed(old(State()), sequence, packet)
          invariant emitted == old(emitted) + sent && egress.offered == old(egress.offered) + sent
          decreases pending.Keys
        {
          var received :| 0 <= received <= |egress.queue|;
          egress.Receive(received);
          var x := pending[next];
          egress.SendPacket(x);
          AppendAssociative(old(emitted), sent, [x]);
          AppendAssociative(old(egress.offered), sent, [x]);
          emitted, sent := emitted + [x], sent + [x];
          pending := pending - {next};
          next := next + 1;
        }
        nextEmit := next;
      } else {
        pending := pending[sequence := packet];
      }
    }
  }

  /** One tracker and one egress channel per priority class. */
  class CompletionRouter {
    const trackers: Table<SequenceTracker>
    const egress: Table<Egress>

    constructor (trackers: Table<SequenceTracker>, egress: Table<Egress>)
      ensures this.trackers == trackers && this.egress == egress
    {
      this.trackers, this.egress := trackers, egress;
    }

    ghost predicate Valid()
      reads egress.high, egress.medium, egress.low, egress.bestEffort
    {
      && Separate(egress) && (forall p, q :: p != q ==> trackers.Get(p) != trackers.Get(q))
      && (forall p :: egress.Get(p).Valid())
    }

    method Prepare(priority: Priority, packet: Packet) returns (item: WorkItem)
      requires Valid()
      modifies trackers.Get(priority)`nextSequence
      ensures Valid()
      ensures item == WorkItem(priority, old(trackers.Get(priority).nextSequence), packet)
      ensures trackers.Get(priority).nextSequence == item.sequence + 1
    {
      var number := trackers.Get(priority).AssignSequence();
      item := WorkItem(priority, number, packet);
    }

    /** A completion touches its own class only. */
    method Complete(item: WorkItem) returns (ghost sent: seq<Packet>)
      requires Valid()
      modifies trackers.Get(item.priority), egress.Get(item.priority)
      ensures Valid()
      ensures trackers.Get(item.priority).State()
           == Completed(old(trackers.Get(item.priority).State()), item.sequence, item.packet)
      ensures trackers.Get(item.priority).emitted == old(trackers.Get(item.priority).emitted) + sent
      ensures egress.Get(item.priority).offered == old(egress.Get(item.priority).offered) + sent
      ensures trackers.Get(item.priority).nextSequence == old(trackers.Get(item.priority).nextSequence)
    {
      sent := trackers.Get(item.priority).Complete(item.sequence, item.packet, egress.Get(item.priority));
    }
  }
}
