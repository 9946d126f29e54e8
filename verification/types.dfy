/** Vocabulary shared by every scheduler stage: priority classes, per-priority
    tables, packets, deadlines and the simulated processing time. */
module Pipeline {

  datatype Option<+T> = None | Some(value: T)

  datatype Priority = High | Medium | Low | BestEffort

  /** The classes from the most to the least urgent: the order of every scan over classes. */
  const ALL: seq<Priority> := [High, Medium, Low, BestEffort]

  function Index(p: Priority): nat {
    match p
    case High => 0
    case Medium => 1
    case Low => 2
    case BestEffort => 3
  }

  /** One value per priority class. */
  datatype Table<T> = Table(high: T, medium: T, low: T, bestEffort: T) {
    function Get(p: Priority): T {
      match p
      case High => high
      case Medium => medium
      case Low => low
      case BestEffort => bestEffort
    }

    function Set(p: Priority, v: T): Table<T> {
      match p
      case High => this.(high := v)
      case Medium => this.(medium := v)
      case Low => this.(low := v)
      case BestEffort => this.(bestEffort := v)
    }
  }

  function Uniform<T>(v: T): Table<T> {
    Table(v, v, v, v)
  }

  function Without<T>(xs: seq<T>, i: nat): seq<T>
    requires i < |xs|
  {
    xs[..i] + xs[i + 1..]
  }

  lemma WithoutItems<T>(xs: seq<T>, i: nat)
    requires i < |xs|
    ensures multiset(xs) == multiset(Without(xs, i)) + multiset{xs[i]}
  {
    assert xs == xs[..i] + [xs[i]] + xs[i + 1..];
  }

  lemma AppendAssociative<T>(xs: seq<T>, ys: seq<T>, zs: seq<T>)
    ensures (xs + ys) + zs == xs + (ys + zs)
  {
  }

  lemma LastOfConcat<T>(xs: seq<T>, ys: seq<T>)
    requires ys != []
    ensures (xs + ys)[..|xs + ys| - 1] == xs + ys[..|ys| - 1]
    ensures (xs + ys)[|xs + ys| - 1] == ys[|ys| - 1]
  {
  }

  /** Times are nanoseconds on one monotone clock; `size` is the payload length. */
  datatype Packet = Packet(id: nat, priority: Priority, timestamp: nat, budget: nat, size: nat)

  function Deadline(p: Packet): nat {
    p.timestamp + p.budget
  }

  function Min(a: int, b: int): int {
    if a <= b then a else b
  }

  function Max(a: int, b: int): int {
    if a >= b then a else b
  }

  /** The guard threshold of a packet: only Medium and Low ones wait for High packets, if
      their setting is not zero, and never past their own budget. */
  function GuardThreshold(p: Priority, settingNs: nat, budget: nat): Option<nat> {
    if p == High || p == BestEffort || settingNs == 0 then None else Some(Min(settingNs, budget))
  }

  /** Truncated subtraction (`saturating_sub`). */
  function Monus(a: nat, b: nat): nat {
    if a >= b then a - b else 0
  }

  /** Size-dependent part of the processing time: 0.1 ms spread linearly over
      200..1500 bytes, rounded to the nearest nanosecond. */
  function ExtraNs(size: nat): nat {
    if size > 200 then (2000 * (Min(size, 1500) - 200) + 13) / 26 else 0
  }

  /** Simulated work of the parallel schedulers (base 0.05 ms). */
  function ProcessingNs(size: nat): nat {
    50_000 + ExtraNs(size)
  }

  /** Larger packets never cost less, and the cost stays within 0.05 ms .. 0.15 ms. */
  lemma ProcessingBounds(small: nat, large: nat)
    requires small <= large
    ensures 50_000 <= ProcessingNs(small) <= ProcessingNs(large) <= 150_000
    ensures ProcessingNs(200) == 50_000 && ProcessingNs(1500) == 150_000
  {
  }

  /** Between 200 and 1500 bytes the cost lies on the straight line between the two ends,
      to the nearest nanosecond; outside it is that of the nearer end. */
  lemma ProcessingIsLinear(size: nat)
    ensures size <= 200 ==> ProcessingNs(size) == 50_000
    ensures size >= 1500 ==> ProcessingNs(size) == 150_000
    ensures 200 <= size <= 1500 ==>
              -650 <= 1300 * (ProcessingNs(size) - 50_000) - 100_000 * (size - 200) <= 650
  {
  }
}
