/** Size classes of the buffer pool. */
module SizeClasses {
  import opened Pipeline

  const MIN_SIZE: nat := 64
  const MAX_SIZE: nat := 65_536
  const SIZES: seq<nat> := [64, 128, 256, 512, 1024, 2048, 4096, 8192, 16_384, 32_768, 65_536]

  function Pow2(k: nat): (p: nat)
    ensures p > 0
  {
    if k == 0 then 1 else 2 * Pow2(k - 1)
  }

  lemma {:induction false} Pow2Grows(j: nat, k: nat)
    requires j <= k
    ensures Pow2(j) <= Pow2(k) && (j < k ==> 2 * Pow2(j) <= Pow2(k))
  {
    if j < k {
      Pow2Grows(j, k - 1);
    }
  }

  /** The first exponent from k on whose power covers n. */
  function ExponentFor(n: nat, k: nat): (e: nat)
    ensures e >= k && Pow2(e) >= n && (e > k ==> Pow2(e - 1) < n)
    decreases Monus(n, Pow2(k))
  {
    if Pow2(k) >= n then k else ExponentFor(n, k + 1)
  }

  function NextPowerOfTwo(n: nat): nat {
    Pow2(ExponentFor(n, 0))
  }

  function TrailingZeros(n: nat): nat
    requires n > 0
  {
    if n % 2 == 1 then 0 else 1 + TrailingZeros(n / 2)
  }

  lemma {:induction false} TrailingZerosOfPower(k: nat)
    ensures TrailingZeros(Pow2(k)) == k
  {
    if k == 0 {
    } else {
      TrailingZerosOfPower(k - 1);
    }
  }

  function SizeClassFor(len: nat): nat {
    if len == 0 then MIN_SIZE
    else
      var next := NextPowerOfTwo(Min(len, MAX_SIZE));
      if next < MIN_SIZE then MIN_SIZE else if next > MAX_SIZE then MAX_SIZE else next
  }

  /** For powers of two of at least MIN_SIZE. */
  function ClassIndex(size: nat): nat
    requires size > 0
  {
    Monus(TrailingZeros(size), TrailingZeros(MIN_SIZE))
  }

  lemma SizesArePowers(i: nat)
    requires i < |SIZES|
    ensures SIZES[i] == Pow2(6 + i)
  {
    assert Pow2(6) == 64 by { assert Pow2(3) == 8; }
    assert Pow2(8) == 256;
    assert Pow2(10) == 1024;
    assert Pow2(12) == 4096;
    assert Pow2(14) == 16_384;
    assert Pow2(16) == 65_536;
    assert Pow2(7) == 128 && Pow2(9) == 512 && Pow2(11) == 2048 && Pow2(13) == 8192 && Pow2(15) == 32_768;
  }

  /** The index computed from trailing zeros is the position in the table of sizes. */
  lemma IndexOfSize(i: nat)
    requires i < |SIZES|
    ensures SIZES[i] > 0 && ClassIndex(SIZES[i]) == i
  {
    SizesArePowers(i);
    SizesArePowers(0);
    TrailingZerosOfPower(6 + i);
    TrailingZerosOfPower(6);
  }

  /** A request gets the smallest class that holds it, cut off at the largest class. */
  lemma SmallestSufficientClass(len: nat) returns (i: nat)
    ensures i < |SIZES| && SizeClassFor(len) == SIZES[i] >= Min(len, MAX_SIZE)
    ensures forall j :: 0 <= j < |SIZES| && SIZES[j] >= Min(len, MAX_SIZE) ==> j >= i
  {
    SizesArePowers(0);
    SizesArePowers(10);
    var n := Min(len, MAX_SIZE);
    var e := ExponentFor(n, 0);
    if e <= 6 {
      Pow2Grows(e, 6);
      i := 0;
    } else {
      if e > 16 {
        Pow2Grows(16, e - 1);
        assert false;
      }
      i := e - 6;
      SizesArePowers(i);
      Pow2Grows(6, e);
      Pow2Grows(e, 16);
      forall j | 0 <= j < |SIZES| && SIZES[j] >= n ensures j >= i {
        LowerClassIsTooSmall(n, e, j);
      }
    }
  }

  lemma LowerClassIsTooSmall(n: nat, e: nat, j: nat)
    requires j < |SIZES| && SIZES[j] >= n && e > 6 && Pow2(e - 1) < n
    ensures j >= e - 6
  {
    SizesArePowers(j);
    if j < e - 6 {
      Pow2Grows(6 + j, e - 1);
    }
  }
}

/** The buffer pool: leases, frozen shared buffers and recycling. */
module BufferPool {
  import opened Pipeline
  import opened SizeClasses

  const PER_SIZE: nat := 32

  /** One allocation; `id` is its identity. */
  datatype Buffer = Buffer(id: nat, bytes: seq<bv8>)

  /** Who holds a buffer outside the pool: a lease, or a group of cloned handles. */
  datatype Owner =
    | Leased(sizeClass: nat, data: Buffer)
    | Frozen(sizeClass: nat, data: Buffer, handles: nat)

  datatype Place = Pooled(index: nat, position: nat) | Held(token: nat)

  /** Pools per class, buffers outside by token, and for the record where each allocation
      is and how many buffers of each class were outside at most. */
  datatype State = State(pools: seq<seq<Buffer>>, live: map<nat, Owner>, tokens: nat, places: seq<Place>,
                         peak: seq<nat>)

  function Zeros(n: nat): seq<bv8> {
    seq(n, _ => 0)
  }

  function Tokens(live: map<nat, Owner>, i: nat): set<nat>
    requires i < |SIZES|
  {
    set k | k in live && live[k].sizeClass == SIZES[i]
  }

  /** Buffers of class i outside the pool. */
  function Outstanding(live: map<nat, Owner>, i: nat): nat
    requires i < |SIZES|
  {
    |Tokens(live, i)|
  }

  function Initial(): State {
    State(
      seq(|SIZES|, i requires 0 <= i < |SIZES| =>
        seq(PER_SIZE, j requires 0 <= j < PER_SIZE => Buffer(PER_SIZE * i + j, Zeros(SIZES[i])))),
      map[],
      0,
      seq(PER_SIZE * |SIZES|, id requires 0 <= id < PER_SIZE * |SIZES| => Pooled(id / PER_SIZE, id % PER_SIZE)),
      seq(|SIZES|, _ => 0))
  }

  // ------------------------------------------------------------------
  // Invariant
  // ------------------------------------------------------------------

  /** Pooled buffers are all-zero and have the full size of their class. */
  ghost predicate Shaped(pools: seq<seq<Buffer>>) {
    && |pools| == |SIZES|
    && forall i, j :: 0 <= i < |pools| && 0 <= j < |pools[i]| ==> pools[i][j].bytes == Zeros(SIZES[i])
  }

  ghost predicate HasClass(size: nat) {
    exists i :: 0 <= i < |SIZES| && SIZES[i] == size
  }

  ghost predicate LiveShaped(live: map<nat, Owner>, tokens: nat) {
    forall k :: k in live ==>
      && k < tokens
      && HasClass(live[k].sizeClass)
      && (live[k].Leased? ==> |live[k].data.bytes| == live[k].sizeClass)
      && (live[k].Frozen? ==> |live[k].data.bytes| <= live[k].sizeClass && live[k].handles > 0)
  }

  /** Every allocation is in exactly one place. */
  ghost predicate OwnedOnce(pools: seq<seq<Buffer>>, live: map<nat, Owner>, places: seq<Place>) {
    && (forall i, j :: 0 <= i < |pools| && 0 <= j < |pools[i]| ==>
          pools[i][j].id < |places| && places[pools[i][j].id] == Pooled(i, j))
    && (forall k :: k in live ==> live[k].data.id < |places| && places[live[k].data.id] == Held(k))
    && (forall id :: 0 <= id < |places| ==>
          match places[id]
          case Pooled(i, j) => i < |pools| && j < |pools[i]| && pools[i][j].id == id
          case Held(k) => k in live && live[k].data.id == id)
  }

  /** The population of a class is exactly what demand has ever required. */
  ghost predicate Populated(pools: seq<seq<Buffer>>, live: map<nat, Owner>, peak: seq<nat>) {
    && |pools| == |SIZES| == |peak|
    && forall i :: 0 <= i < |SIZES| ==>
         && |pools[i]| + Outstanding(live, i) == Max(PER_SIZE, peak[i])
         && Outstanding(live, i) <= peak[i]
  }

  ghost predicate Inv(s: State) {
    && Shaped(s.pools)
    && LiveShaped(s.live, s.tokens)
    && OwnedOnce(s.pools, s.live, s.places)
    && Populated(s.pools, s.live, s.peak)
  }

  // ------------------------------------------------------------------
  // Operations
  // ------------------------------------------------------------------

  /** Take a buffer of class i from its pool, or allocate one if the pool is empty. */
  function LeaseOf(s: State, i: nat): State
    requires i < |s.pools| == |SIZES| == |s.peak|
    requires forall j :: 0 <= j < |s.pools[i]| ==> s.pools[i][j].id < |s.places|
  {
    var pool, k := s.pools[i], s.tokens;
    var peak := s.peak[i := Max(s.peak[i], Outstanding(s.live, i) + 1)];
    if pool == [] then
      var b := Buffer(|s.places|, Zeros(SIZES[i]));
      State(s.pools, s.live[k := Leased(SIZES[i], b)], k + 1, s.places + [Held(k)], peak)
    else
      var b := pool[|pool| - 1];
      State(s.pools[i := pool[..|pool| - 1]], s.live[k := Leased(SIZES[i], b)], k + 1, s.places[b.id := Held(k)], peak)
  }

  /** Replace what token k stands for without moving the buffer. */
  function Changed(s: State, k: nat, o: Owner): State {
    s.(live := s.live[k := o])
  }

  function Written(o: Owner, bytes: seq<bv8>): Owner {
    o.(data := Buffer(o.data.id, bytes))
  }

  function Freeze(o: Owner, len: nat): Owner {
    Frozen(o.sizeClass, Buffer(o.data.id, o.data.bytes[..Min(len, |o.data.bytes|)]), 1)
  }

  function Clone(o: Owner): Owner
    requires o.Frozen?
  {
    o.(handles := o.handles + 1)
  }

  /** Give the buffer behind token k back to its pool, cleared and at full size. */
  function Released(s: State, k: nat, i: nat): State
    requires k in s.live && i < |s.pools| && s.live[k].data.id < |s.places| && i < |SIZES|
  {
    var id := s.live[k].data.id;
    s.(pools := s.pools[i := s.pools[i] + [Buffer(id, Zeros(SIZES[i]))]],
       live := s.live - {k},
       places := s.places[id := Pooled(i, |s.pools[i]|)])
  }

  lemma SizesAreDistinct()
    ensures forall i, j :: 0 <= i < j < |SIZES| ==> SIZES[i] < SIZES[j]
  {
  }

  lemma InitialHolds()
    ensures Inv(Initial())
  {
    var s := Initial();
    forall i, j | 0 <= i < |s.pools| && 0 <= j < |s.pools[i]|
      ensures s.pools[i][j].id < |s.places| && s.places[s.pools[i][j].id] == Pooled(i, j)
    {
      Coordinates(i, j);
    }
    forall id | 0 <= id < |s.places|
      ensures s.places[id].index < |s.pools| && s.places[id].position < PER_SIZE
              && s.pools[s.places[id].index][s.places[id].position].id == id
    {
    }
    assert forall i :: 0 <= i < |SIZES| ==> Tokens(map[], i) == {};
  }

  lemma Coordinates(i: nat, j: nat)
    requires i < |SIZES| && j < PER_SIZE
    ensures (PER_SIZE * i + j) / PER_SIZE == i && (PER_SIZE * i + j) % PER_SIZE == j
            && PER_SIZE * i + j < PER_SIZE * |SIZES|
  {
  }

  lemma OutstandingAfterAdding(live: map<nat, Owner>, k: nat, o: Owner, i: nat)
    requires k !in live && i < |SIZES|
    ensures Outstanding(live[k := o], i) == Outstanding(live, i) + if o.sizeClass == SIZES[i] then 1 else 0
  {
    if o.sizeClass == SIZES[i] {
      assert Tokens(live[k := o], i) == Tokens(live, i) + {k};
    } else {
      assert Tokens(live[k := o], i) == Tokens(live, i);
    }
  }

  lemma OutstandingAfterRemoving(live: map<nat, Owner>, k: nat, i: nat)
    requires k in live && i < |SIZES|
    ensures Outstanding(live - {k}, i) == Outstanding(live, i) - if live[k].sizeClass == SIZES[i] then 1 else 0
  {
    if live[k].sizeClass == SIZES[i] {
      assert Tokens(live, i) == Tokens(live - {k}, i) + {k};
    } else {
      assert Tokens(live, i) == Tokens(live - {k}, i);
    }
  }

  /** The last buffer of pool i moves to the new token k. */
  lemma TakingKeepsOwnedOnce(pools: seq<seq<Buffer>>, live: map<nat, Owner>, places: seq<Place>, i: nat, k: nat,
                             o: Owner)
    requires OwnedOnce(pools, live, places) && i < |pools| && pools[i] != [] && k !in live
    requires o.data.id == pools[i][|pools[i]| - 1].id
    ensures OwnedOnce(pools[i := pools[i][..|pools[i]| - 1]], live[k := o], places[o.data.id := Held(k)])
  {
    var id, last := o.data.id, |pools[i]| - 1;
    var rest: seq<seq<Buffer>> := pools[i := pools[i][..last]];
    assert places[id] == Pooled(i, last);
    forall j, m | 0 <= j < |rest| && 0 <= m < |rest[j]|
      ensures rest[j][m].id < |places| && places[id := Held(k)][rest[j][m].id] == Pooled(j, m)
    {
      assert rest[j][m] == pools[j][m];
    }
    forall x | x in live ensures live[x].data.id != id {
    }
  }

  lemma AllocatingKeepsOwnedOnce(pools: seq<seq<Buffer>>, live: map<nat, Owner>, places: seq<Place>, k: nat, o: Owner)
    requires OwnedOnce(pools, live, places) && k !in live && o.data.id == |places|
    ensures OwnedOnce(pools, live[k := o], places + [Held(k)])
  {
  }

  lemma ReturningKeepsOwnedOnce(pools: seq<seq<Buffer>>, live: map<nat, Owner>, places: seq<Place>,
                                   i: nat, k: nat, b: Buffer)
    requires OwnedOnce(pools, live, places) && i < |pools| && k in live && b.id == live[k].data.id
    ensures OwnedOnce(pools[i := pools[i] + [b]], live - {k}, places[b.id := Pooled(i, |pools[i]|)])
  {
    var more: seq<seq<Buffer>> := pools[i := pools[i] + [b]];
    assert places[b.id] == Held(k);
    forall j, m | 0 <= j < |more| && 0 <= m < |more[j]|
      ensures more[j][m].id < |places| && places[b.id := Pooled(i, |pools[i]|)][more[j][m].id] == Pooled(j, m)
    {
      if m < |pools[j]| {
        assert more[j][m] == pools[j][m];
      }
    }
  }

  lemma LeaseKeepsPopulation(s: State, i: nat)
    requires Inv(s) && i < |SIZES|
    ensures Populated(LeaseOf(s, i).pools, LeaseOf(s, i).live, LeaseOf(s, i).peak)
  {
    var t := LeaseOf(s, i);
    SizesAreDistinct();
    assert s.tokens !in s.live;
    forall j | 0 <= j < |SIZES| ensures Outstanding(t.live, j) == Outstanding(s.live, j) + if i == j then 1 else 0 {
      OutstandingAfterAdding(s.live, s.tokens, t.live[s.tokens], j);
    }
  }

  lemma LeaseKeepsShapes(s: State, i: nat)
    requires Inv(s) && i < |SIZES|
    ensures Shaped(LeaseOf(s, i).pools) && LiveShaped(LeaseOf(s, i).live, LeaseOf(s, i).tokens)
  {
  }

  lemma LeaseKeepsInv(s: State, i: nat)
    requires Inv(s) && i < |SIZES|
    ensures Inv(LeaseOf(s, i))
  {
    var k := s.tokens;
    var o := LeaseOf(s, i).live[k];
    assert k !in s.live;
    LeaseKeepsPopulation(s, i);
    LeaseKeepsShapes(s, i);
    if s.pools[i] == [] {
      AllocatingKeepsOwnedOnce(s.pools, s.live, s.places, k, o);
    } else {
      TakingKeepsOwnedOnce(s.pools, s.live, s.places, i, k, o);
    }
  }

  lemma ChangeKeepsInv(s: State, k: nat, o: Owner)
    requires Inv(s) && k in s.live && o.sizeClass == s.live[k].sizeClass && o.data.id == s.live[k].data.id
    requires o.Leased? ==> |o.data.bytes| == o.sizeClass
    requires o.Frozen? ==> |o.data.bytes| <= o.sizeClass && o.handles > 0
    ensures Inv(Changed(s, k, o))
  {
    var t := Changed(s, k, o);
    forall i | 0 <= i < |SIZES| ensures Outstanding(t.live, i) == Outstanding(s.live, i) {
      assert Tokens(t.live, i) == Tokens(s.live, i);
    }
  }

  lemma ReleaseKeepsPopulation(s: State, k: nat, i: nat)
    requires Inv(s) && k in s.live && i < |SIZES| && s.live[k].sizeClass == SIZES[i]
    ensures Populated(Released(s, k, i).pools, Released(s, k, i).live, Released(s, k, i).peak)
  {
    var t := Released(s, k, i);
    SizesAreDistinct();
    forall j | 0 <= j < |SIZES| ensures Outstanding(t.live, j) == Outstanding(s.live, j) - if i == j then 1 else 0 {
      OutstandingAfterRemoving(s.live, k, j);
    }
  }

  lemma ReleaseKeepsInv(s: State, k: nat, i: nat)
    requires Inv(s) && k in s.live && i < |SIZES| && s.live[k].sizeClass == SIZES[i]
    ensures Inv(Released(s, k, i))
  {
    ReleaseKeepsPopulation(s, k, i);
    ReturningKeepsOwnedOnce(s.pools, s.live, s.places, i, k, Buffer(s.live[k].data.id, Zeros(SIZES[i])));
  }

  // ------------------------------------------------------------------
  // Whole runs
  // ------------------------------------------------------------------

  datatype Event =
    | Lease(hint: nat)
    | Write(token: nat, bytes: seq<bv8>)
    | FreezeAt(token: nat, len: nat)
    | CloneHandle(token: nat)
    | Drop(token: nat)

  /** What ownership allows: only a lease is written or frozen, only a frozen buffer is
      cloned, and only what is alive is dropped. */
  predicate Allowed(s: State, e: Event) {
    match e
    case Lease(_) => true
    case Write(k, bytes) => k in s.live && s.live[k].Leased? && |bytes| == |s.live[k].data.bytes|
    case FreezeAt(k, _) => k in s.live && s.live[k].Leased?
    case CloneHandle(k) => k in s.live && s.live[k].Frozen?
    case Drop(k) => k in s.live
  }

  function ClassOf(size: nat): nat {
    if size > 0 then ClassIndex(size) else 0
  }

  lemma ClassOfSize(size: nat)
    requires HasClass(size)
    ensures ClassOf(size) < |SIZES| && SIZES[ClassOf(size)] == size
  {
    var i :| 0 <= i < |SIZES| && SIZES[i] == size;
    IndexOfSize(i);
  }

  lemma ClassForHint(hint: nat)
    ensures ClassOf(SizeClassFor(hint)) < |SIZES| && SIZES[ClassOf(SizeClassFor(hint))] == SizeClassFor(hint)
  {
    var i := SmallestSufficientClass(hint);
    ClassOfSize(SizeClassFor(hint));
  }

  function Next(s: State, e: Event): State
    requires Inv(s) && Allowed(s, e)
  {
    match e
    case Lease(hint) => ClassForHint(hint); LeaseOf(s, ClassOf(SizeClassFor(hint)))
    case Write(k, bytes) => Changed(s, k, Written(s.live[k], bytes))
    case FreezeAt(k, len) => Changed(s, k, Freeze(s.live[k], len))
    case CloneHandle(k) => Changed(s, k, Clone(s.live[k]))
    case Drop(k) =>
      var o := s.live[k];
      if o.Frozen? && o.handles > 1 then Changed(s, k, o.(handles := o.handles - 1))
      else ClassOfSize(o.sizeClass); Released(s, k, ClassOf(o.sizeClass))
  }

  lemma NextKeepsInv(s: State, e: Event)
    requires Inv(s) && Allowed(s, e)
    ensures Inv(Next(s, e))
  {
    if e.Lease? {
      ClassForHint(e.hint);
      LeaseKeepsInv(s, ClassOf(SizeClassFor(e.hint)));
    } else {
      var o := s.live[e.token];
      if e.Drop? && (o.Leased? || o.handles == 1) {
        ClassOfSize(o.sizeClass);
        ReleaseKeepsInv(s, e.token, ClassOf(o.sizeClass));
      } else {
        ChangeKeepsInv(s, e.token, Next(s, e).live[e.token]);
      }
    }
  }

  ghost predicate Possible(s: State, es: seq<Event>)
    requires Inv(s)
    decreases |es|
  {
    es == [] || (Allowed(s, es[0]) && (NextKeepsInv(s, es[0]); Possible(Next(s, es[0]), es[1..])))
  }

  ghost function After(s: State, es: seq<Event>): State
    requires Inv(s) && Possible(s, es)
    decreases |es|
  {
    if es == [] then s else NextKeepsInv(s, es[0]); After(Next(s, es[0]), es[1..])
  }

  lemma {:induction false} RunKeepsInv(s: State, es: seq<Event>)
    requires Inv(s) && Possible(s, es)
    ensures Inv(After(s, es))
    decreases |es|
  {
    if es == [] {
    } else {
      NextKeepsInv(s, es[0]);
      RunKeepsInv(Next(s, es[0]), es[1..]);
    }
  }

  /** The most buffers of class i that are ever outside the pool during the run. */
  ghost function PeakDemand(s: State, es: seq<Event>, i: nat): nat
    requires Inv(s) && Possible(s, es) && i < |SIZES|
    decreases |es|
  {
    if es == [] then Outstanding(s.live, i)
    else NextKeepsInv(s, es[0]); Max(Outstanding(s.live, i), PeakDemand(Next(s, es[0]), es[1..], i))
  }

  lemma {:induction false} PeakIsRecorded(s: State, es: seq<Event>, i: nat)
    requires Inv(s) && Possible(s, es) && i < |SIZES|
    ensures |After(s, es).peak| == |SIZES| && After(s, es).peak[i] == Max(s.peak[i], PeakDemand(s, es, i))
    decreases |es|
  {
    if es == [] {
    } else {
      NextKeepsInv(s, es[0]);
      StepPeak(s, es[0], i);
      PeakIsRecorded(Next(s, es[0]), es[1..], i);
    }
  }

  lemma StepPeak(s: State, e: Event, i: nat)
    requires Inv(s) && Allowed(s, e) && i < |SIZES|
    ensures Inv(Next(s, e)) && Next(s, e).peak[i] == Max(s.peak[i], Outstanding(Next(s, e).live, i))
  {
    NextKeepsInv(s, e);
    if e.Lease? {
      ClassForHint(e.hint);
      LeasePeak(s, ClassOf(SizeClassFor(e.hint)), i);
    } else {
      SamePeak(s, e);
    }
  }

  lemma LeasePeak(s: State, c: nat, i: nat)
    requires Inv(s) && c < |SIZES| && i < |SIZES|
    ensures LeaseOf(s, c).peak[i] == Max(s.peak[i], Outstanding(LeaseOf(s, c).live, i))
  {
    SizesAreDistinct();
    OutstandingAfterAdding(s.live, s.tokens, LeaseOf(s, c).live[s.tokens], i);
  }

  lemma SamePeak(s: State, e: Event)
    requires Inv(s) && Allowed(s, e) && !e.Lease?
    ensures Next(s, e).peak == s.peak
  {
  }

  /** Runs of a fresh pool. */
  ghost predicate Runs(es: seq<Event>) {
    InitialHolds(); Possible(Initial(), es)
  }

  ghost function Reached(es: seq<Event>): State
    requires Runs(es)
  {
    InitialHolds(); After(Initial(), es)
  }

  ghost function PeakOf(es: seq<Event>, i: nat): nat
    requires Runs(es) && i < |SIZES|
  {
    InitialHolds(); PeakDemand(Initial(), es, i)
  }

  /** After any sequence of leases, writes, freezes, clones and drops: every allocation is
      in exactly one place, pooled buffers are clean, and the population of each class is
      the greater of 32 and the peak demand. */
  lemma PoolsFollowDemand(es: seq<Event>)
    ensures Runs(es) ==> FollowsDemand(Reached(es), es)
  {
    if Runs(es) {
      InitialHolds();
      RunKeepsInv(Initial(), es);
      var t := Reached(es);
      forall i | 0 <= i < |SIZES| ensures |t.pools[i]| + Outstanding(t.live, i) == Max(PER_SIZE, PeakOf(es, i)) {
        PeakIsRecorded(Initial(), es, i);
      }
    }
  }

  ghost predicate FollowsDemand(t: State, es: seq<Event>)
    requires Runs(es)
  {
    && OwnedOnce(t.pools, t.live, t.places)
    && Shaped(t.pools)
    && forall i :: 0 <= i < |SIZES| ==> |t.pools[i]| + Outstanding(t.live, i) == Max(PER_SIZE, PeakOf(es, i))
  }

  function Clones(es: seq<Event>, k: nat): nat {
    if es == [] then 0 else (if es[0] == CloneHandle(k) then 1 else 0) + Clones(es[1..], k)
  }

  function Drops(es: seq<Event>, k: nat): nat {
    if es == [] then 0 else (if es[0] == Drop(k) then 1 else 0) + Drops(es[1..], k)
  }

  lemma FrozenStep(s: State, e: Event, k: nat)
    requires Inv(s) && Allowed(s, e) && k in s.live && s.live[k].Frozen?
    ensures var t, o := Next(s, e), s.live[k];
            && k < t.tokens
            && (k in t.live <==> !(e == Drop(k) && o.handles == 1))
            && (k in t.live ==>
                  t.live[k] == Frozen(o.sizeClass, o.data,
                                      if e == CloneHandle(k) then o.handles + 1
                                      else if e == Drop(k) then o.handles - 1 else o.handles))
  {
    assert k < s.tokens;
  }

  /** Outcome for a frozen buffer o after `clones` clones and `drops` drops of its handles. */
  ghost predicate SharedAs(live: map<nat, Owner>, k: nat, o: Owner, clones: nat, drops: nat)
    requires o.Frozen?
  {
    && (k in live <==> drops < o.handles + clones)
    && (k !in live ==> drops == o.handles + clones)
    && (k in live ==> live[k] == Frozen(o.sizeClass, o.data, o.handles + clones - drops))
  }

  /** A frozen buffer keeps its contents for as long as a handle is left, and goes back to
      the pool exactly once, with its last handle. */
  lemma {:induction false} SharedUntilLastDrop(s: State, es: seq<Event>, k: nat)
    requires Inv(s) && Possible(s, es) && k in s.live && s.live[k].Frozen?
    ensures SharedAs(After(s, es).live, k, s.live[k], Clones(es, k), Drops(es, k))
    decreases |es|
  {
    if es == [] {
    } else {
      var t, e := Next(s, es[0]), es[0];
      var c, d := if e == CloneHandle(k) then 1 else 0, if e == Drop(k) then 1 else 0;
      NextKeepsInv(s, e);
      FrozenStep(s, e, k);
      assert After(s, es) == After(t, es[1..]);
      assert Clones(es, k) == c + Clones(es[1..], k) && Drops(es, k) == d + Drops(es[1..], k);
      if k in t.live {
        SharedUntilLastDrop(t, es[1..], k);
        Recombine(After(t, es[1..]).live, k, s.live[k], t.live[k], Clones(es[1..], k), Drops(es[1..], k), c, d);
      } else {
        SpentTokensStayGone(t, es[1..], k);
        LastHandle(After(t, es[1..]).live, k, s.live[k]);
      }
    }
  }

  lemma LastHandle(live: map<nat, Owner>, k: nat, o: Owner)
    requires o.Frozen? && o.handles == 1 && k !in live
    ensures SharedAs(live, k, o, 0, 1)
  {
  }

  lemma Recombine(live: map<nat, Owner>, k: nat, o: Owner, next: Owner, clones: nat, drops: nat, c: nat, d: nat)
    requires o.Frozen? && next.Frozen? && SharedAs(live, k, next, clones, drops)
    requires o.handles + c >= d && next == Frozen(o.sizeClass, o.data, o.handles + c - d)
    ensures SharedAs(live, k, o, c + clones, d + drops)
  {
  }

  lemma {:induction false} SpentTokensStayGone(s: State, es: seq<Event>, k: nat)
    requires Inv(s) && Possible(s, es) && k !in s.live && k < s.tokens
    ensures k !in After(s, es).live && Drops(es, k) == 0 && Clones(es, k) == 0
    decreases |es|
  {
    if es == [] {
    } else {
      NextKeepsInv(s, es[0]);
      SpentTokensStayGone(Next(s, es[0]), es[1..], k);
    }
  }

  /** The events leave the lease of token k alone. */
  ghost predicate LeavesAlone(es: seq<Event>, k: nat) {
    forall i :: 0 <= i < |es| ==> es[i].Lease? || es[i].token != k
  }

  /** A buffer is leased clean and at the size of its class. */
  lemma LeasedClean(s: State, hint: nat)
    requires Inv(s)
    ensures var t := Next(s, Lease(hint));
            && s.tokens !in s.live && s.tokens in t.live
            && t.live[s.tokens] == Leased(SizeClassFor(hint), t.live[s.tokens].data)
            && t.live[s.tokens].data.bytes == Zeros(SizeClassFor(hint))
  {
    ClassForHint(hint);
  }

  lemma {:induction false} LeaseIsKept(s: State, es: seq<Event>, k: nat)
    requires Inv(s) && Possible(s, es) && k in s.live && LeavesAlone(es, k)
    ensures k in After(s, es).live && After(s, es).live[k] == s.live[k]
    decreases |es|
  {
    if es == [] {
    } else {
      NextKeepsInv(s, es[0]);
      StepKeepsLease(s, es[0], k);
      LeavesAloneAfter(es, k);
      LeaseIsKept(Next(s, es[0]), es[1..], k);
    }
  }

  lemma StepKeepsLease(s: State, e: Event, k: nat)
    requires Inv(s) && Allowed(s, e) && k in s.live && (e.Lease? || e.token != k)
    ensures k in Next(s, e).live && Next(s, e).live[k] == s.live[k]
  {
    assert k < s.tokens;
  }

  lemma LeavesAloneAfter(es: seq<Event>, k: nat)
    requires es != [] && LeavesAlone(es, k)
    ensures (es[0].Lease? || es[0].token != k) && LeavesAlone(es[1..], k)
  {
  }

  lemma {:induction false} AfterBoth(s: State, es: seq<Event>, fs: seq<Event>)
    requires Inv(s) && Possible(s, es + fs)
    ensures Possible(s, es) && Inv(After(s, es)) && Possible(After(s, es), fs)
    ensures After(s, es + fs) == After(After(s, es), fs)
    decreases |es|
  {
    if es == [] {
      assert es + fs == fs;
    } else {
      NextKeepsInv(s, es[0]);
      assert (es + fs)[1..] == es[1..] + fs && (es + fs)[0] == es[0];
      AfterBoth(Next(s, es[0]), es[1..], fs);
    }
  }

  /** What a reader sees through any handle is what was last written before the freeze,
      whatever happens to other buffers in between. */
  lemma FreezeRoundTrip(s: State, k: nat, bytes: seq<bv8>, others: seq<Event>, len: nat, es: seq<Event>)
    requires Inv(s) && LeavesAlone(others, k)
    requires Possible(s, [Write(k, bytes)] + (others + ([FreezeAt(k, len)] + es)))
    ensures var t := After(s, [Write(k, bytes)] + (others + ([FreezeAt(k, len)] + es)));
            k in t.live ==> t.live[k].data.bytes == bytes[..Min(len, |bytes|)]
  {
    var rest := [FreezeAt(k, len)] + es;
    assert ([Write(k, bytes)] + (others + rest))[1..] == others + rest;
    NextKeepsInv(s, Write(k, bytes));
    var written := Next(s, Write(k, bytes));
    AfterBoth(written, others, rest);
    LeaseIsKept(written, others, k);
    RunKeepsInv(written, others);
    assert rest[1..] == es;
    NextKeepsInv(After(written, others), FreezeAt(k, len));
    SharedUntilLastDrop(Next(After(written, others), FreezeAt(k, len)), es, k);
  }

  // ------------------------------------------------------------------
  // The code
  // ------------------------------------------------------------------

  class Pools {
    var pools: seq<seq<Buffer>>
    var live: map<nat, Owner>
    var tokens: nat
    var created: nat
    ghost var places: seq<Place>
    ghost var peak: seq<nat>

    constructor ()
      ensures Valid() && Snapshot() == Initial()
    {
      var s := Initial();
      pools, live, tokens, created := s.pools, map[], 0, PER_SIZE * |SIZES|;
      places, peak := s.places, s.peak;
      new;
      InitialHolds();
    }

    ghost function Snapshot(): State
      reads this
    {
      State(pools, live, tokens, places, peak)
    }

    ghost predicate Valid()
      reads this
    {
      Inv(Snapshot()) && created == |places|
    }

    method AcquireVec(i: nat) returns (b: Buffer)
      requires i < |pools| == |SIZES|
      modifies this`pools, this`created
      ensures b == if old(pools)[i] == [] then Buffer(old(created), Zeros(SIZES[i]))
                   else old(pools)[i][|old(pools)[i]| - 1]
      ensures old(pools)[i] == [] ==> pools == old(pools) && created == old(created) + 1
      ensures old(pools)[i] != [] ==>
                pools == old(pools)[i := old(pools)[i][..|old(pools)[i]| - 1]] && created == old(created)
    {
      var pool := pools[i];
      if pool == [] {
        b := Buffer(created, Zeros(SIZES[i]));
        created := created + 1;
      } else {
        b := pool[|pool| - 1];
        pools := pools[i := pool[..|pool| - 1]];
      }
    }

    method ReleaseVec(i: nat, b: Buffer)
      requires i < |pools| == |SIZES|
      modifies this`pools
      ensures pools == old(pools)[i := old(pools)[i] + [Buffer(b.id, Zeros(SIZES[i]))]]
    {
      pools := pools[i := pools[i] + [Buffer(b.id, Zeros(SIZES[i]))]];
    }

    method TakeOut(i: nat, size: nat) returns (token: nat)
      requires i < |pools| == |SIZES| == |peak| && size == SIZES[i] && created == |places|
      requires forall j :: 0 <= j < |pools[i]| ==> pools[i][j].id < |places|
      modifies this
      ensures Snapshot() == LeaseOf(old(Snapshot()), i) && token == old(tokens) && created == |places|
    {
      ghost var goal := LeaseOf(Snapshot(), i);
      var b := AcquireVec(i);
      token := tokens;
      live := live[token := Leased(size, b)];
      tokens := tokens + 1;
      places, peak := goal.places, goal.peak;
    }

    method LeaseFor(hint: nat) returns (token: nat)
      requires Valid()
      modifies this
      ensures Valid() && Snapshot() == Next(old(Snapshot()), Lease(hint)) && token == old(tokens)
    {
      NextKeepsInv(Snapshot(), Lease(hint));
      ClassForHint(hint);
      var size := SizeClassFor(hint);
      token := TakeOut(ClassOf(size), size);
    }

    method WriteTo(token: nat, bytes: seq<bv8>)
      requires Valid() && Allowed(Snapshot(), Write(token, bytes))
      modifies this`live
      ensures Valid() && Snapshot() == Next(old(Snapshot()), Write(token, bytes))
    {
      NextKeepsInv(Snapshot(), Write(token, bytes));
      live := live[token := Written(live[token], bytes)];
    }

    method FreezeLease(token: nat, len: nat)
      requires Valid() && Allowed(Snapshot(), FreezeAt(token, len))
      modifies this`live
      ensures Valid() && Snapshot() == Next(old(Snapshot()), FreezeAt(token, len))
    {
      NextKeepsInv(Snapshot(), FreezeAt(token, len));
      var o := live[token];
      var valid := Min(len, |o.data.bytes|);
      live := live[token := Frozen(o.sizeClass, Buffer(o.data.id, o.data.bytes[..valid]), 1)];
    }

    method CloneOf(token: nat)
      requires Valid() && Allowed(Snapshot(), CloneHandle(token))
      modifies this`live
      ensures Valid() && Snapshot() == Next(old(Snapshot()), CloneHandle(token))
    {
      NextKeepsInv(Snapshot(), CloneHandle(token));
      live := live[token := live[token].(handles := live[token].handles + 1)];
    }

    method PutBack(token: nat, i: nat)
      requires i < |pools| == |SIZES| && token in live && live[token].data.id < |places| && created == |places|
      modifies this
      ensures Snapshot() == Released(old(Snapshot()), token, i) && created == |places|
    {
      ghost var goal := Released(Snapshot(), token, i);
      ReleaseVec(i, live[token].data);
      live := live - {token};
      places := goal.places;
    }

    /** Dropping a lease, or one handle of a frozen buffer. */
    method DropOne(token: nat)
      requires Valid() && Allowed(Snapshot(), Drop(token))
      modifies this
      ensures Valid() && Snapshot() == Next(old(Snapshot()), Drop(token))
    {
      NextKeepsInv(Snapshot(), Drop(token));
      var o := live[token];
      if o.Frozen? && o.handles > 1 {
        live := live[token := o.(handles := o.handles - 1)];
      } else {
        ClassOfSize(o.sizeClass);
        PutBack(token, ClassOf(o.sizeClass));
      }
    }
  }
}
