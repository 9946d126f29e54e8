/** Greedy distribution of High packets over the three channels of MC-EDF. */
module HighDistribution {
  import opened Pipeline

  const CHANNELS: nat := 3
  const BATCH: nat := 32
  const I64_MAX: nat := 0x7fff_ffff_ffff_ffff

  /** Packets sent to each channel, and the sum of their deadline slacks in nanoseconds. */
  datatype Stats = Stats(count: seq<nat>, sum: seq<nat>)

  const EMPTY := Stats([0, 0, 0], [0, 0, 0])

  predicate Wellformed(s: Stats) {
    |s.count| == CHANNELS && |s.sum| == CHANNELS
  }

  /** A thousand per packet plus the slack sum in whole microseconds. */
  function Score(s: Stats, i: nat): nat
    requires Wellformed(s) && i < CHANNELS
  {
    1000 * s.count[i] + s.sum[i] / 1000
  }

  /** The first channel with the smallest score. */
  predicate Best(s: Stats, c: nat)
    requires Wellformed(s)
  {
    && c < CHANNELS
    && (forall i :: 0 <= i < CHANNELS ==> Score(s, c) <= Score(s, i))
    && (forall i :: 0 <= i < c ==> Score(s, c) < Score(s, i))
  }

  lemma BestIsUnique(s: Stats, c: nat, d: nat)
    requires Wellformed(s) && Best(s, c) && Best(s, d)
    ensures c == d
  {
    assert Score(s, c) == Score(s, d);
  }

  function BestChannel(s: Stats): (c: nat)
    requires Wellformed(s)
    ensures Best(s, c)
  {
    if Score(s, 0) <= Score(s, 1) && Score(s, 0) <= Score(s, 2) then 0
    else if Score(s, 1) <= Score(s, 2) then 1
    else 2
  }

  function Recorded(s: Stats, c: nat, slack: nat): (t: Stats)
    requires Wellformed(s) && c < CHANNELS
    ensures Wellformed(t)
  {
    Stats(s.count[c := s.count[c] + 1], s.sum[c := s.sum[c] + slack])
  }

  /** A packet of a batch: its slack, and whether the channel took it. */
  datatype Offer = Offer(slack: nat, sent: bool)

  /** All packets of a batch go to the channel chosen before any of them is recorded. */
  function Batched(s: Stats, c: nat, batch: seq<Offer>): (t: Stats)
    requires Wellformed(s) && c < CHANNELS
    ensures Wellformed(t)
  {
    if batch == [] then s
    else
      var last := batch[|batch| - 1];
      var t := Batched(s, c, batch[..|batch| - 1]);
      if last.sent then Recorded(t, c, last.slack) else t
  }

  /** Only the chosen channel's figures change: by one and by the slack for a packet that
      was sent, not at all for one that was refused. */
  lemma OfferEffect(s: Stats, c: nat, batch: seq<Offer>, offer: Offer)
    requires Wellformed(s) && c < CHANNELS
    ensures Batched(s, c, []) == s
    ensures var t, u := Batched(s, c, batch), Batched(s, c, batch + [offer]);
            forall i :: 0 <= i < CHANNELS ==>
              && u.count[i] == t.count[i] + (if i == c && offer.sent then 1 else 0)
              && u.sum[i] == t.sum[i] + (if i == c && offer.sent then offer.slack else 0)
  {
    assert (batch + [offer])[..|batch|] == batch;
  }

  function Run(batches: seq<seq<Offer>>): (t: Stats)
    ensures Wellformed(t)
  {
    if batches == [] then EMPTY
    else
      var s := Run(batches[..|batches| - 1]);
      Batched(s, BestChannel(s), batches[|batches| - 1])
  }

  // ------------------------------------------------------------------
  // Balance
  // ------------------------------------------------------------------

  /** Batches are limited in length and their slacks to `limit` microseconds. */
  ghost predicate Limited(batches: seq<seq<Offer>>, limit: nat) {
    forall k :: 0 <= k < |batches| ==> LimitedBatch(batches[k], limit)
  }

  ghost predicate LimitedBatch(batch: seq<Offer>, limit: nat) {
    |batch| <= BATCH && forall i :: 0 <= i < |batch| ==> batch[i].slack <= 1000 * limit
  }

  /** A batch raises only the chosen channel's score, by at most 1000 + limit per packet. */
  lemma {:induction false} BatchEffect(s: Stats, c: nat, batch: seq<Offer>, limit: nat)
    requires Wellformed(s) && c < CHANNELS && forall i :: 0 <= i < |batch| ==> batch[i].slack <= 1000 * limit
    ensures var t := Batched(s, c, batch);
            && (forall i :: 0 <= i < CHANNELS && i != c ==> t.count[i] == s.count[i] && t.sum[i] == s.sum[i])
            && Score(s, c) <= Score(t, c) <= Score(s, c) + |batch| * (1000 + limit)
            && s.count[c] <= t.count[c]
            && t.sum[c] - s.sum[c] <= (t.count[c] - s.count[c]) * (1000 * limit)
  {
    if batch == [] {
    } else {
      var n := |batch| - 1;
      BatchEffect(s, c, batch[..n], limit);
      var t := Batched(s, c, batch[..n]);
      assert (n + 1) * (1000 + limit) == n * (1000 + limit) + 1000 + limit;
      assert (t.count[c] - s.count[c] + 1) * (1000 * limit) == (t.count[c] - s.count[c]) * (1000 * limit)
          + 1000 * limit;
      TruncatedSum(t.sum[c], batch[n].slack, limit);
    }
  }

  lemma TruncatedSum(sum: nat, slack: nat, limit: nat)
    requires slack <= 1000 * limit
    ensures sum / 1000 <= (sum + slack) / 1000 <= sum / 1000 + limit
  {
  }

  ghost predicate Spread(s: Stats, bound: nat)
    requires Wellformed(s)
  {
    forall i, j :: 0 <= i < CHANNELS && 0 <= j < CHANNELS ==> Score(s, i) <= Score(s, j) + bound
  }

  ghost predicate SlacksLimited(s: Stats, limit: nat)
    requires Wellformed(s)
  {
    forall i :: 0 <= i < CHANNELS ==> s.sum[i] <= s.count[i] * (1000 * limit)
  }

  /** Although a whole batch goes to one channel, in every run no two scores are ever
      further apart than one full batch. */
  lemma {:induction false} ScoresStayTogether(batches: seq<seq<Offer>>, limit: nat)
    requires Limited(batches, limit)
    ensures Spread(Run(batches), BATCH * (1000 + limit)) && SlacksLimited(Run(batches), limit)
  {
    if batches == [] {
    } else {
      var n := |batches| - 1;
      ScoresStayTogether(batches[..n], limit);
      assert LimitedBatch(batches[n], limit);
      BatchKeepsSpread(Run(batches[..n]), batches[n], limit);
    }
  }

  lemma BatchKeepsSpread(s: Stats, batch: seq<Offer>, limit: nat)
    requires Wellformed(s) && LimitedBatch(batch, limit)
    requires Spread(s, BATCH * (1000 + limit)) && SlacksLimited(s, limit)
    ensures var t := Batched(s, BestChannel(s), batch);
            Spread(t, BATCH * (1000 + limit)) && SlacksLimited(t, limit)
  {
    var c := BestChannel(s);
    var t := Batched(s, c, batch);
    BatchEffect(s, c, batch, limit);
    Monotone(|batch|, BATCH, 1000 + limit);
    Distributed(s.count[c], t.count[c] - s.count[c], 1000 * limit);
    assert forall i :: 0 <= i < CHANNELS && i != c ==> Score(t, i) == Score(s, i);
  }

  lemma Monotone(a: nat, b: nat, c: nat)
    requires a <= b
    ensures a * c <= b * c
  {
  }

  lemma Distributed(a: nat, b: nat, c: nat)
    ensures (a + b) * c == a * c + b * c
  {
  }

  /** Hence the packet counts stay close as well. */
  lemma CountsStayTogether(batches: seq<seq<Offer>>, limit: nat, i: nat, j: nat)
    requires Limited(batches, limit) && i < CHANNELS && j < CHANNELS
    ensures 1000 * Run(batches).count[i] <= (1000 + limit) * (Run(batches).count[j] + BATCH)
  {
    ScoresStayTogether(batches, limit);
    var s := Run(batches);
    assert Score(s, i) <= Score(s, j) + BATCH * (1000 + limit);
    SumToMicros(s.sum[j], s.count[j], limit);
    assert (1000 + limit) * (s.count[j] + BATCH) == 1000 * s.count[j] + limit * s.count[j] + BATCH * (1000 + limit);
  }

  lemma SumToMicros(sum: nat, count: nat, limit: nat)
    requires sum <= count * (1000 * limit)
    ensures sum / 1000 <= limit * count
  {
    assert count * (1000 * limit) == 1000 * (limit * count);
  }

  /** One full batch of packets with the largest slack reaches the bound exactly. */
  lemma SpreadIsTight(limit: nat)
    ensures exists batch :: LimitedBatch(batch, limit)
                            && Score(Run([batch]), 0) == Score(Run([batch]), 1) + BATCH * (1000 + limit)
  {
    var batch := Full(limit, BATCH);
    FullBatch(limit, BATCH);
    assert [batch][..0] == [];
    assert Run([]) == EMPTY && BestChannel(EMPTY) == 0;
    assert Run([batch]) == Batched(EMPTY, 0, batch);
    assert LimitedBatch(batch, limit);
  }

  function Full(limit: nat, n: nat): seq<Offer> {
    seq(n, _ => Offer(1000 * limit, true))
  }

  lemma {:induction false} FullBatch(limit: nat, n: nat)
    ensures Batched(EMPTY, 0, Full(limit, n)) == Stats([n, 0, 0], [n * (1000 * limit), 0, 0])
    ensures n * (1000 * limit) / 1000 == n * limit
  {
    if n == 0 {
    } else {
      FullBatch(limit, n - 1);
      assert Full(limit, n)[..n - 1] == Full(limit, n - 1);
      assert n * (1000 * limit) == (n - 1) * (1000 * limit) + 1000 * limit;
    }
    assert n * (1000 * limit) == 1000 * (n * limit);
  }

  // ------------------------------------------------------------------
  // The code
  // ------------------------------------------------------------------

  class HighDistributionStats {
    const packetCount: array<nat>
    const deadlineSum: array<nat>

    constructor ()
      ensures Valid() && State() == EMPTY && fresh(packetCount) && fresh(deadlineSum)
    {
      packetCount := new nat[3](_ => 0);
      deadlineSum := new nat[3](_ => 0);
    }

    ghost predicate Valid()
      reads this
    {
      packetCount.Length == CHANNELS && deadlineSum.Length == CHANNELS && packetCount != deadlineSum
    }

    ghost function State(): Stats
      reads this, packetCount, deadlineSum
    {
      Stats(packetCount[..], deadlineSum[..])
    }

    /** Scores must fit the 64-bit comparison. */
    method FindBestChannel() returns (best: nat)
      requires Valid() && forall i :: 0 <= i < CHANNELS ==> Score(State(), i) <= I64_MAX
      ensures best == BestChannel(State()) && Best(State(), best)
    {
      best := 0;
      var bestScore := I64_MAX;
      for i := 0 to CHANNELS
        invariant best < CHANNELS && bestScore <= I64_MAX
        invariant forall k :: 0 <= k < i ==> bestScore <= Score(State(), k)
        invariant bestScore == I64_MAX ==> best == 0
        invariant bestScore < I64_MAX ==> best < i && bestScore == Score(State(), best)
        invariant forall k :: 0 <= k < best ==> bestScore < Score(State(), k)
      {
        var score := packetCount[i] * 1000 + deadlineSum[i] / 1000;
        assert score == Score(State(), i);
        if score < bestScore {
          bestScore, best := score, i;
        }
      }
      BestIsUnique(State(), best, BestChannel(State()));
    }

    method Record(channel: nat, slack: nat)
      requires Valid() && channel < CHANNELS
      modifies packetCount, deadlineSum
      ensures Valid() && State() == Recorded(old(State()), channel, slack)
    {
      packetCount[channel] := packetCount[channel] + 1;
      deadlineSum[channel] := deadlineSum[channel] + slack;
    }

    /** The High part of one dispatcher pass: take up to a batch of waiting packets, choose
        their channels, then send them; `accepts[k]` says whether the k-th send succeeds. */
    method DispatchHigh(waiting: seq<Packet>, now: nat, accepts: seq<bool>)
        returns (rest: seq<Packet>, channels: seq<nat>, ghost batch: seq<Offer>)
      requires Valid() && |accepts| == |waiting| && forall i :: 0 <= i < CHANNELS ==> Score(State(), i) <= I64_MAX
      modifies packetCount, deadlineSum
      ensures Valid() && |batch| == Min(|waiting|, 32) && waiting == waiting[..|batch|] + rest
      ensures |channels| == |batch| && forall k :: 0 <= k < |channels| ==> Best(old(State()), channels[k])
      ensures forall k :: 0 <= k < |batch| ==>
                && batch[k].sent == accepts[k]
                && batch[k].slack == Max(waiting[k].timestamp + waiting[k].budget - now, 0)
      ensures State() == Batched(old(State()), BestChannel(old(State())), batch)
    {
      var n: nat := Min(|waiting|, BATCH);
      ghost var best := BestChannel(State());
      channels := [];
      for i := 0 to n
        invariant channels == seq(i, _ => best) && Valid() && State() == old(State())
      {
        var channel := FindBestChannel();
        channels := channels + [channel];
      }
      for i := 0 to n
        invariant Valid() && State() == Batched(old(State()), best, Offers(waiting, now, accepts, i))
      {
        assert Offers(waiting, now, accepts, i + 1)[..i] == Offers(waiting, now, accepts, i);
        if accepts[i] {
          Record(channels[i], Monus(Deadline(waiting[i]), now));
        }
      }
      rest := waiting[n..];
      batch := Offers(waiting, now, accepts, n);
    }
  }

  ghost function Offers(waiting: seq<Packet>, now: nat, accepts: seq<bool>, n: nat): seq<Offer>
    requires n <= |waiting| == |accepts|
  {
    seq(n, i requires 0 <= i < n => Offer(Monus(Deadline(waiting[i]), now), accepts[i]))
  }
}
