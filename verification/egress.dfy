/** Bounded channels to the egress stage. */
module EgressChannels {
  import opened Pipeline

  /** The packets of `ps` whose verdict is true, in order. */
  ghost function Kept(ps: seq<Packet>, verdicts: seq<bool>): seq<Packet>
    requires |ps| == |verdicts|
  {
    if ps == [] then []
    else
      var n := |ps| - 1;
      Kept(ps[..n], verdicts[..n]) + if verdicts[n] then [ps[n]] else []
  }

  /** Bounded channel to the egress stage together with its drop counter. */
  class Egress {
    const capacity: nat
    var queue: seq<Packet>
    var drops: nat
    ghost var taken: seq<Packet>      // what the egress thread has received so far
    ghost var offered: seq<Packet>    // everything ever handed to the sender
    ghost var verdicts: seq<bool>     // whether each offer found room

    constructor (capacity: nat)
      ensures Valid() && this.capacity == capacity
      ensures offered == [] && queue == [] && drops == 0
    {
      this.capacity := capacity;
      queue, drops := [], 0;
      taken, offered, verdicts := [], [], [];
    }

    /** The receiving side sees the offers in order, minus exactly `drops` of them. */
    ghost predicate Valid()
      reads this
    {
      && |offered| == |verdicts|
      && taken + queue == Kept(offered, verdicts)
      && |offered| == |taken| + |queue| + drops
      && |queue| <= capacity
    }

    method SendPacket(packet: Packet)
      requires Valid()
      modifies this
      ensures Valid()
      ensures offered == old(offered) + [packet]
      ensures taken == old(taken)
      ensures queue == if |old(queue)| < capacity then old(queue) + [packet] else old(queue)
      ensures drops == old(drops) + if |old(queue)| < capacity then 0 else 1
    {
      ghost var room := |queue| < capacity;
      if |queue| < capacity {
        queue := queue + [packet];
      } else {
        drops := drops + 1;
      }
      assert (offered + [packet])[..|offered|] == offered;
      assert (verdicts + [room])[..|verdicts|] == verdicts;
      offered, verdicts := offered + [packet], verdicts + [room];
    }

    /** The egress thread takes `n` packets. */
    method Receive(n: nat)
      requires Valid() && n <= |queue|
      modifies this
      ensures Valid()
      ensures taken == old(taken) + old(queue)[..n] && queue == old(queue)[n..]
      ensures offered == old(offered) && drops == old(drops)
    {
      taken, queue := taken + queue[..n], queue[n..];
    }
  }

  /** A packet that leaves a scheduler, and the class under which it leaves. */
  datatype Pick = Pick(priority: Priority, packet: Packet)

  /** The packets that leave under class p, in order. */
  ghost function Leaving(picks: seq<Pick>, p: Priority): seq<Packet> {
    if picks == [] then []
    else
      var n := |picks| - 1;
      Leaving(picks[..n], p) + if picks[n].priority == p then [picks[n].packet] else []
  }

  /** The channels of different classes are different channels. */
  ghost predicate Separate(egress: Table<Egress>) {
    forall p, q :: p != q ==> egress.Get(p) != egress.Get(q)
  }

  /** Each class's channel has been offered exactly the packets that left under its class,
      in order; what its receiver sees of them are all but the counted drops. */
  ghost predicate Delivered(egress: Table<Egress>, picks: seq<Pick>)
    reads egress.high, egress.medium, egress.low, egress.bestEffort
  {
    Separate(egress) && forall p :: egress.Get(p).Valid() && egress.Get(p).offered == Leaving(picks, p)
  }

  lemma LeavingNext(picks: seq<Pick>, next: Pick)
    ensures forall p :: Leaving(picks + [next], p)
              == if p == next.priority then Leaving(picks, p) + [next.packet] else Leaving(picks, p)
  {
    assert (picks + [next])[..|picks|] == picks;
  }

  /** Hand a packet to the channel of class p, or count a drop. */
  method Forward(egress: Table<Egress>, p: Priority, packet: Packet, ghost picks: seq<Pick>)
    requires Delivered(egress, picks)
    modifies egress.Get(p)
    ensures Delivered(egress, picks + [Pick(p, packet)])
    ensures var channel := egress.Get(p);
            if |old(channel.queue)| < channel.capacity
            then channel.queue == old(channel.queue) + [packet] && channel.drops == old(channel.drops)
            else channel.queue == old(channel.queue) && channel.drops == old(channel.drops) + 1
  {
    LeavingNext(picks, Pick(p, packet));
    egress.Get(p).SendPacket(packet);
  }

  /** The same for a packet that leaves under its own class, if there is one. */
  method ForwardAny(egress: Table<Egress>, packet: Option<Packet>, ghost picks: seq<Pick>)
      returns (ghost after: seq<Pick>)
    requires Delivered(egress, picks)
    modifies egress.high, egress.medium, egress.low, egress.bestEffort
    ensures Delivered(egress, after)
    ensures after == picks + if packet.Some? then [Pick(packet.value.priority, packet.value)] else []
    ensures forall q :: packet.None? || q != packet.value.priority ==> unchanged(egress.Get(q))
    ensures packet.Some? ==>
              var channel := egress.Get(packet.value.priority);
              if |old(channel.queue)| < channel.capacity
              then channel.queue == old(channel.queue) + [packet.value] && channel.drops == old(channel.drops)
              else channel.queue == old(channel.queue) && channel.drops == old(channel.drops) + 1
  {
    if packet.Some? {
      Forward(egress, packet.value.priority, packet.value, picks);
      after := picks + [Pick(packet.value.priority, packet.value)];
    } else {
      after := picks;
    }
  }
}
