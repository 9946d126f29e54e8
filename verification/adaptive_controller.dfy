/** The feedback loop that turns observed processing times into worker quotas. */
module Adaptive {
  import opened Pipeline

  // ------------------------------------------------------------------
  // Moving average of the processing time
  // ------------------------------------------------------------------

  function Ema(prev: nat, observed: nat): nat {
    (7 * Max(prev, 1) + observed) / 8
  }

  function EmaRun(start: nat, observed: seq<nat>): nat {
    if observed == [] then start else Ema(EmaRun(start, observed[..|observed| - 1]), observed[|observed| - 1])
  }

  /** The average never leaves the range of its start value and the observations,
      all taken as at least 1. */
  lemma {:induction false} EmaStaysInRange(start: nat, observed: seq<nat>, lo: nat, hi: nat)
    requires lo <= Max(start, 1) <= hi
    requires forall i :: 0 <= i < |observed| ==> lo <= Max(observed[i], 1) <= hi
    ensures lo <= Max(EmaRun(start, observed), 1) <= hi
  {
    if observed == [] {
    } else {
      EmaStaysInRange(start, observed[..|observed| - 1], lo, hi);
    }
  }

  /** `n` updates with the same observation. */
  function EmaSteady(start: nat, c: nat, n: nat): nat {
    if n == 0 then start else Ema(EmaSteady(start, c, n - 1), c)
  }

  /** One update moves the average towards the observation by an eighth of the gap;
      rounding down makes it stall up to 7 below, and nowhere else. */
  lemma EmaGap(x: nat, c: nat)
    requires x >= 1
    ensures x >= c ==> Ema(x, c) - c == 7 * (x - c) / 8
    ensures x <= c ==> c - Ema(x, c) == (7 * (c - x) + 7) / 8
    ensures Ema(x, c) == x <==> c - 7 <= x <= c
    ensures Ema(0, c) == Ema(1, c)
  {
  }

  /** Under a constant observation c the average ends within 7 below c and stays there. */
  lemma {:induction false} EmaConverges(start: nat, c: nat, n: nat)
    requires c >= 8 && n > Max(start - c, c - start)
    ensures c - 7 <= EmaSteady(start, c, n) <= c
  {
    EmaApproaches(start, c, n);
  }

  /** Outside the final band the gap shrinks by at least one with every update. */
  lemma {:induction false} EmaApproaches(start: nat, c: nat, n: nat)
    requires c >= 8 && n > 0
    ensures var x := EmaSteady(start, c, n);
            x >= 1 && (c - 7 <= x <= c || (x > c && x - c <= start - c - n) || (x < c && c - x <= c - start - n + 1))
  {
    if n > 1 {
      EmaApproaches(start, c, n - 1);
      EmaGap(EmaSteady(start, c, n - 1), c);
    }
  }

  /** The order of two observations is irrelevant for every average exactly when they
      are equal. */
  lemma EmaCommutesExactlyForEqualObservations(a: nat, b: nat)
    ensures (forall x: nat :: Ema(Ema(x, a), b) == Ema(Ema(x, b), a)) <==> a == b
  {
    if a < b {
      OrderMatters(a, b);
    } else if b < a {
      OrderMatters(b, a);
    }
  }

  lemma OrderMatters(a: nat, b: nat)
    requires a < b
    ensures var x := 9 * a + 56 * b; Ema(Ema(x, b), a) < Ema(Ema(x, a), b)
  {
    var x, q := 9 * a + 56 * b, (b - a) / 8;
    assert Ema(x, a) == 8 * a + 49 * b;
    assert Ema(8 * a + 49 * b, b) == 7 * a + 43 * b;
    assert Ema(x, b) == 8 * a + 49 * b + q;
    assert 7 * (8 * a + 49 * b + q) + a < 8 * (7 * a + 43 * b);
  }

  /** Swapping two consecutive observations changes the average by no more than a 64th
      of their difference, up to rounding. */
  lemma EmaOrderEffect(x: nat, a: nat, b: nat)
    requires a <= b
    ensures var ab, ba := Ema(Ema(x, a), b), Ema(Ema(x, b), a);
            64 * (ab - ba) <= b - a + 120 && 64 * (ba - ab) <= 120
  {
  }

  // ------------------------------------------------------------------
  // From the average to quotas
  // ------------------------------------------------------------------

  /** 0.9 * budget / average, clamped to 1..512 and rounded half up. */
  function Capacity(budget: nat, avg: nat): nat
    requires avg > 0
  {
    if 9 * budget <= 10 * avg then 1
    else if 9 * budget >= 5120 * avg then 512
    else (18 * budget + 10 * avg) / (20 * avg)
  }

  /** Room for growth up to twice the capacity when the queues are deeper. */
  function Target(capacity: nat, depth: nat): nat {
    Max(capacity, Max(Min(depth, 2 * capacity), 1))
  }

  const HIGH_PRIMARY_MAX: nat := 64
  const HIGH_SPILL_MAX: nat := 16
  const MEDIUM_W1_MAX: nat := 160
  const MEDIUM_W2_MAX: nat := 160
  const LOW_MAX: nat := 192
  const BEST_EFFORT_MAX: nat := 128
  const MIN_TOTALS: seq<nat> := [4, 16, 64]

  /** Inputs of one rebalancing: budgets, averages (at least 1) and queue depths. */
  datatype Demand = Demand(budget: Table<nat>, avg: Table<nat>, depth: Table<nat>)

  predicate Measured(d: Demand) {
    forall p :: d.avg.Get(p) > 0
  }

  function TargetOf(d: Demand, p: Priority): nat
    requires d.avg.Get(p) > 0
  {
    Target(Capacity(d.budget.Get(p), d.avg.Get(p)), d.depth.Get(p))
  }

  /** Share of worker w in a target of t packets of class p. */
  function Share(p: Priority, t: nat, w: nat): nat {
    match p
    case High =>
      // one packet each for the spill-over workers once the target allows it
      if w == 0 then Min(if t <= 2 then 1 else t - 2, HIGH_PRIMARY_MAX)
      else if w == 1 then (if t >= 2 then 1 else 0)
      else if w == 2 then (if t >= 3 then 1 else 0)
      else 0
    case Medium =>
      var second := Min(Monus(t, MEDIUM_W1_MAX), MEDIUM_W2_MAX);
      if w == 1 then (if t > 1 && second == 0 then t - 1 else Min(t, MEDIUM_W1_MAX))
      else if w == 2 then (if t > 1 && second == 0 then 1 else second)
      else 0
    case Low => if w == 2 then Min(t, LOW_MAX) else 0
    case BestEffort => 0
  }

  /** The quota of worker w for class p; a class without a budget gets none. */
  function Quota(d: Demand, w: nat, p: Priority): nat
    requires d.avg.Get(p) > 0
  {
    if p == BestEffort then (if w == 2 then BEST_EFFORT_MAX else 0)
    else if d.budget.Get(p) == 0 then 0
    else Share(p, TargetOf(d, p), w)
  }

  function QuotaRow(d: Demand, w: nat): Table<nat>
    requires Measured(d)
  {
    Table(Quota(d, w, High), Quota(d, w, Medium), Quota(d, w, Low), Quota(d, w, BestEffort))
  }

  function RowSum(row: Table<nat>): nat {
    row.high + row.medium + row.low + row.bestEffort
  }

  function TotalLimit(d: Demand, w: nat): nat
    requires w < 3 && Measured(d)
  {
    Max(RowSum(QuotaRow(d, w)), MIN_TOTALS[w])
  }

  /** min(2 * average, budget) in microseconds, at least one microsecond of budget. */
  function GuardUs(budget: nat, avg: nat): nat {
    Min(2 * (avg / 1000), Max(budget / 1000, 1))
  }

  // ------------------------------------------------------------------
  // Properties of the distribution
  // ------------------------------------------------------------------

  /** The capacity c is the integer nearest to 9/10 * budget / average (half up), cut
      off at 1 and 512: c - 1/2 <= share < c + 1/2, up to the clamping. */
  lemma CapacityIsNearest(budget: nat, avg: nat)
    requires avg > 0
    ensures var c := Capacity(budget, avg);
            && 1 <= c <= 512
            && (c > 1 ==> (20 * c - 10) * avg <= 18 * budget)
            && (c < 512 ==> 18 * budget < (20 * c + 10) * avg)
  {
    CapacityBounds(budget, avg);
    if 10 * avg < 9 * budget < 5120 * avg {
      HalfUp(18 * budget, avg, Capacity(budget, avg));
    }
  }

  lemma HalfUp(n: nat, avg: nat, c: nat)
    requires avg > 0 && c >= 1 && c == (n + 10 * avg) / (20 * avg)
    ensures (20 * c - 10) * avg <= n < (20 * c + 10) * avg
  {
    DivisionBounds(n + 10 * avg, 20 * avg);
    assert 20 * avg * c == 20 * (c * avg) && 20 * avg * (c + 1) == 20 * (c * avg) + 20 * avg;
    assert (20 * c - 10) * avg == 20 * (c * avg) - 10 * avg && (20 * c + 10) * avg == 20 * (c * avg) + 10 * avg;
  }

  lemma DivisionBounds(n: nat, d: nat)
    requires d > 0
    ensures d * (n / d) <= n < d * (n / d + 1)
  {
  }

  lemma MultiplesGrow(d: nat, a: nat, b: nat)
    requires a <= b
    ensures d * a <= d * b
  {
  }

  lemma DivisionGreatest(n: nat, d: nat, c: nat)
    requires d > 0 && d * c <= n
    ensures c <= n / d
  {
    if n / d < c {
      MultiplesGrow(d, n / d + 1, c);
    }
  }

  lemma CapacityBounds(budget: nat, avg: nat)
    requires avg > 0
    ensures 1 <= Capacity(budget, avg) <= 512
  {
    if 10 * avg < 9 * budget < 5120 * avg {
      DivisionGreatest(18 * budget + 10 * avg, 20 * avg, 1);
      DivisionAtMost(18 * budget + 10 * avg, 20 * avg, 512);
    }
  }

  lemma DivisionAtMost(n: nat, d: nat, c: nat)
    requires d > 0 && n < d * (c + 1)
    ensures n / d <= c
  {
    if n / d > c {
      MultiplesGrow(d, c + 1, n / d);
    }
  }

  /** A slower average never raises the capacity. */
  lemma CapacityIsAntitone(budget: nat, fast: nat, slow: nat)
    requires 0 < fast <= slow
    ensures Capacity(budget, slow) <= Capacity(budget, fast)
  {
    CapacityBounds(budget, fast);
    CapacityBounds(budget, slow);
    if 10 * slow < 9 * budget && 9 * budget < 5120 * fast {
      var c := Capacity(budget, slow);
      DivisionBounds(18 * budget + 10 * slow, 20 * slow);
      assert slow * (20 * c - 10) <= 18 * budget;
      assert fast * (20 * c - 10) <= slow * (20 * c - 10);
      assert 20 * fast * c == fast * (20 * c - 10) + 10 * fast;
      DivisionGreatest(18 * budget + 10 * fast, 20 * fast, c);
    }
  }

  /** The target is the depth itself as long as that lies between the capacity and twice
      the capacity, and the nearer end otherwise. */
  lemma TargetFollowsDepth(budget: nat, avg: nat, depth: nat)
    requires avg > 0
    ensures var c := Capacity(budget, avg);
            var t := Target(c, depth);
            && c <= t <= 2 * c
            && (c <= depth <= 2 * c ==> t == depth)
            && (depth < c ==> t == c)
            && (depth > 2 * c ==> t == 2 * c)
  {
    CapacityBounds(budget, avg);
  }

  /** The quotas of a class add up to its target, cut off at the class's ceiling, and a
      worker's total limit covers its quotas. */
  lemma QuotasAreConserved(d: Demand, p: Priority)
    requires Measured(d) && d.budget.Get(p) > 0
    ensures p != BestEffort ==>
              Quota(d, 0, p) + Quota(d, 1, p) + Quota(d, 2, p)
              == Min(TargetOf(d, p), Table(66, 320, 192, 0).Get(p))
    ensures forall w :: 0 <= w < 3 ==> TotalLimit(d, w) >= RowSum(QuotaRow(d, w))
  {
    CapacityBounds(d.budget.Get(p), d.avg.Get(p));
  }

  /** Only workers assigned to a class receive a quota for it, and worker 0 always
      keeps room for one High packet. */
  lemma QuotasFollowAssignments(d: Demand, w: nat)
    requires Measured(d)
    ensures Quota(d, 0, Medium) == Quota(d, 0, Low) == Quota(d, 1, Low) == 0
    ensures Quota(d, 0, BestEffort) == Quota(d, 1, BestEffort) == 0
    ensures d.budget.high > 0 ==> Quota(d, 0, High) >= 1
  {
    CapacityBounds(d.budget.high, d.avg.high);
  }

  /** The spill-over: every assigned worker gets a slot as soon as the target allows it;
      for High the others get no more, for Medium worker 2 gets more only once worker 1
      is full. */
  lemma SpillOver(d: Demand)
    requires Measured(d)
    ensures d.budget.high > 0 ==>
              var t := TargetOf(d, High);
              && Quota(d, 1, High) <= 1 && Quota(d, 2, High) <= 1
              && (Quota(d, 1, High) > 0 <==> t >= 2) && (Quota(d, 2, High) > 0 <==> t >= 3)
    ensures d.budget.medium > 0 ==>
              var t := TargetOf(d, Medium);
              && Quota(d, 1, Medium) > 0 && (Quota(d, 2, Medium) > 0 <==> t >= 2)
              && Quota(d, 1, Medium) <= 160 && (Quota(d, 2, Medium) > 1 ==> Quota(d, 1, Medium) == 160)
  {
    assert d.avg.Get(High) > 0 && d.avg.Get(Medium) > 0;
    CapacityBounds(d.budget.high, d.avg.high);
    CapacityBounds(d.budget.medium, d.avg.medium);
  }

  /** With the depths fixed, slower processing never raises any quota of any worker. */
  lemma SlowerNeverRaisesQuotas(fast: Demand, slow: Demand, w: nat, p: Priority)
    requires Measured(fast) && Measured(slow)
    requires fast.budget == slow.budget && fast.depth == slow.depth
    requires forall q :: fast.avg.Get(q) <= slow.avg.Get(q)
    ensures Quota(slow, w, p) <= Quota(fast, w, p)
  {
    CapacityBounds(fast.budget.Get(p), fast.avg.Get(p));
    CapacityBounds(slow.budget.Get(p), slow.avg.Get(p));
    CapacityIsAntitone(fast.budget.Get(p), fast.avg.Get(p), slow.avg.Get(p));
  }

  // ------------------------------------------------------------------
  // The controller
  // ------------------------------------------------------------------

  /** The controller as a value. */
  datatype Controller = Controller(
    totals: seq<nat>,
    limits: seq<Table<nat>>,
    guardUs: Table<nat>,
    sliceUs: nat,
    ema: Table<nat>)

  const START := Controller(
    [16, 64, 256],
    [Table(16, 0, 0, 0), Table(4, 60, 0, 0), Table(4, 60, 64, 128)],
    Table(0, 80, 80, 0),
    10,
    Table(100_000, 120_000, 200_000, 200_000))

  function Averages(c: Controller): (avg: Table<nat>)
    ensures forall p :: avg.Get(p) == Max(c.ema.Get(p), 1)
  {
    Table(Max(c.ema.high, 1), Max(c.ema.medium, 1), Max(c.ema.low, 1), Max(c.ema.bestEffort, 1))
  }

  function Observed(c: Controller, p: Priority, ns: nat): Controller {
    c.(ema := c.ema.Set(p, Ema(c.ema.Get(p), ns)))
  }

  function DemandOf(c: Controller, budgets: Table<nat>, depths: Table<nat>): (d: Demand)
    ensures Measured(d)
  {
    Demand(budgets, Averages(c), depths)
  }

  /** A class's bid for the guard slice, in microseconds. */
  function Candidate(d: Demand, p: Priority): nat {
    var us := GuardUs(d.budget.Get(p), d.avg.Get(p));
    if p == High then us else Min(us, 80)
  }

  /** Guard threshold of class p after a rebalancing. */
  function GuardAfter(c: Controller, d: Demand, p: Priority): nat {
    if p == BestEffort || d.budget.Get(p) == 0 then c.guardUs.Get(p)
    else if p == High then 0
    else Candidate(d, p)
  }

  function GuardRow(c: Controller, d: Demand): Table<nat> {
    Table(GuardAfter(c, d, High), GuardAfter(c, d, Medium), GuardAfter(c, d, Low), GuardAfter(c, d, BestEffort))
  }

  /** The tightest guard candidate of the first n classes that have a budget. */
  function Tightest(d: Demand, n: nat): Option<nat>
    requires n <= |ALL| && Measured(d)
  {
    if n == 0 then None
    else
      var p, rest := ALL[n - 1], Tightest(d, n - 1);
      if p == BestEffort || d.budget.Get(p) == 0 then rest
      else Smaller(rest, Some(Candidate(d, p)))
  }

  function Smaller(a: Option<nat>, b: Option<nat>): Option<nat> {
    if a.None? then b else if b.None? then a else Some(Min(a.value, b.value))
  }

  function Rebalanced(c: Controller, budgets: Table<nat>, depths: Table<nat>): Controller {
    var d := DemandOf(c, budgets, depths);
    Controller(
      [TotalLimit(d, 0), TotalLimit(d, 1), TotalLimit(d, 2)],
      [QuotaRow(d, 0), QuotaRow(d, 1), QuotaRow(d, 2)],
      GuardRow(c, d),
      match Tightest(d, |ALL|) { case None => c.sliceUs case Some(us) => Min(Max(us, 5), 50) },
      c.ema)
  }

  function SumOver(depths: seq<Table<nat>>, p: Priority): nat {
    if depths == [] then 0 else SumOver(depths[..|depths| - 1], p) + depths[|depths| - 1].Get(p)
  }

  function Depths(depths: seq<Table<nat>>): Table<nat> {
    Table(SumOver(depths, High), SumOver(depths, Medium), SumOver(depths, Low), SumOver(depths, BestEffort))
  }

  /** A depth is the sum of the workers' counters of the class. */
  lemma {:induction false} DepthsAdd(some: seq<Table<nat>>, more: seq<Table<nat>>, p: Priority)
    ensures Depths(some + more).Get(p) == Depths(some).Get(p) + Depths(more).Get(p)
    ensures |more| == 1 ==> Depths(more).Get(p) == more[0].Get(p)
  {
    if more == [] {
      assert some + more == some;
    } else {
      LastOfConcat(some, more);
      DepthsAdd(some, more[..|more| - 1], p);
    }
  }

  /** Queue depth of a class summed over the workers. */
  method ActualDepth(depths: seq<Table<nat>>, p: Priority) returns (depth: nat)
    ensures depth == Depths(depths).Get(p)
  {
    depth := 0;
    for i := 0 to |depths|
      invariant depth == SumOver(depths[..i], p)
    {
      assert depths[..i + 1][..i] == depths[..i];
      depth := depth + depths[i].Get(p);
    }
    assert depths[..|depths|] == depths;
  }

  /** Split a target over the three workers. */
  method Distribute(p: Priority, target: nat) returns (first: nat, second: nat, third: nat)
    requires target >= 1
    ensures first == Share(p, target, 0) && second == Share(p, target, 1) && third == Share(p, target, 2)
  {
    first, second, third := 0, 0, 0;
    if p == High {
      var remaining := Max(target, 1);
      if remaining >= 3 {
        second, third := 1, 1;
        remaining := remaining - 2;
      } else if remaining == 2 {
        second := 1;
        remaining := remaining - 1;
      }
      first := Max(Min(remaining, HIGH_PRIMARY_MAX), 1);
      second := Min(second, HIGH_SPILL_MAX);
      third := Min(third, HIGH_SPILL_MAX);
    } else if p == Medium {
      second := Min(target, MEDIUM_W1_MAX);
      third := Min(Monus(target, second), MEDIUM_W2_MAX);
      if target > 1 && third == 0 {
        second := Monus(second, 1);
        third := 1;
      }
    } else if p == Low {
      third := Min(target, LOW_MAX);
    }
  }

  class AdaptiveController {
    var totals: seq<nat>
    var limits: seq<Table<nat>>
    var guardUs: Table<nat>
    var sliceUs: nat
    var ema: Table<nat>

    constructor ()
      ensures State() == START
    {
      totals := [16, 64, 256];
      limits := [Table(16, 0, 0, 0), Table(4, 60, 0, 0), Table(4, 60, 64, 128)];
      guardUs, sliceUs := Table(0, 80, 80, 0), 10;
      ema := Table(100_000, 120_000, 200_000, 200_000);
    }

    ghost function State(): Controller
      reads this
    {
      Controller(totals, limits, guardUs, sliceUs, ema)
    }

    method ObserveProcessingTime(p: Priority, ns: nat)
      modifies this`ema
      ensures State() == Observed(old(State()), p, ns)
      ensures 8 * ema.Get(p) <= 7 * Max(old(ema).Get(p), 1) + ns < 8 * ema.Get(p) + 8
      ensures forall q :: q != p ==> ema.Get(q) == old(ema).Get(q)
    {
      var prev := Max(ema.Get(p), 1);
      ema := ema.Set(p, (prev * 7 + ns) / 8);
    }

    /** The guard threshold in nanoseconds, capped by the packet's own budget. */
    method GuardThreshold(p: Priority, budget: nat) returns (r: Option<nat>)
      ensures r == Pipeline.GuardThreshold(p, 1000 * guardUs.Get(p), budget)
      ensures r.Some? <==> (p == Medium || p == Low) && guardUs.Get(p) > 0
      ensures r.Some? ==> r.value <= budget && r.value <= 1000 * guardUs.Get(p)
                          && (r.value == budget || r.value == 1000 * guardUs.Get(p))
    {
      if p == High || p == BestEffort || guardUs.Get(p) == 0 {
        return None;
      }
      r := Some(Min(1000 * guardUs.Get(p), budget));
    }

    /** Quotas and guard candidate of one class with a budget. */
    method PlanClass(p: Priority, budget: nat, depths: seq<Table<nat>>, ghost d: Demand)
        returns (first: nat, second: nat, third: nat, candidate: nat)
      requires p != BestEffort && budget > 0
      requires Measured(d) && d.budget.Get(p) == budget && d.avg.Get(p) == Max(ema.Get(p), 1)
      requires d.depth == Depths(depths)
      modifies this`guardUs
      ensures first == Quota(d, 0, p) && second == Quota(d, 1, p) && third == Quota(d, 2, p)
      ensures guardUs == old(guardUs).Set(p, if p == High then 0 else candidate)
      ensures candidate == Candidate(d, p)
    {
      var avg := Max(ema.Get(p), 1);
      var depth := ActualDepth(depths, p);
      first, second, third := Distribute(p, Target(Capacity(budget, avg), depth));
      candidate := GuardUs(budget, avg);
      if p == High {
        guardUs := guardUs.Set(High, 0);
      } else {
        candidate := Min(candidate, 80);
        guardUs := guardUs.Set(p, candidate);
      }
    }

    /** The loop over the classes. */
    method Plan(budgets: Table<nat>, depths: seq<Table<nat>>, ghost d: Demand)
        returns (row0: Table<nat>, row1: Table<nat>, row2: Table<nat>, sum0: nat, sum1: nat, sum2: nat,
                tightest: Option<nat>)
      requires d == DemandOf(State(), budgets, Depths(depths))
      modifies this`guardUs
      ensures row0 == Rows(d, 0, |ALL|) && row1 == Rows(d, 1, |ALL|) && row2 == Rows(d, 2, |ALL|)
      ensures sum0 == Sums(d, 0, |ALL|) && sum1 == Sums(d, 1, |ALL|) && sum2 == Sums(d, 2, |ALL|)
      ensures guardUs == Guards(old(guardUs), d, |ALL|) && tightest == Tightest(d, |ALL|)
    {
      row0, row1, row2 := Uniform(0), Uniform(0), Uniform(0);
      sum0, sum1, sum2, tightest := 0, 0, 0, None;
      for i := 0 to |ALL|
        invariant ema == old(ema)
        invariant row0 == Rows(d, 0, i) && row1 == Rows(d, 1, i) && row2 == Rows(d, 2, i)
        invariant sum0 == Sums(d, 0, i) && sum1 == Sums(d, 1, i) && sum2 == Sums(d, 2, i)
        invariant guardUs == Guards(old(guardUs), d, i) && tightest == Tightest(d, i)
      {
        var p := ALL[i];
        if p != BestEffort && budgets.Get(p) != 0 {
          var first, second, third, candidate := PlanClass(p, budgets.Get(p), depths, d);
          row0, row1, row2 := row0.Set(p, first), row1.Set(p, second), row2.Set(p, third);
          sum0, sum1, sum2 := sum0 + first, sum1 + second, sum2 + third;
          tightest := Smaller(tightest, Some(candidate));
        }
      }
    }

    /** One pass of the rebalancing loop; `depths[w]` are the shared counters of worker w. */
    method Rebalance(budgets: Table<nat>, depths: seq<Table<nat>>)
      modifies this`totals, this`limits, this`guardUs, this`sliceUs
      ensures State() == Rebalanced(old(State()), budgets, Depths(depths))
    {
      ghost var d := DemandOf(State(), budgets, Depths(depths));
      RowsDone(State(), d);
      var row0, row1, row2, sum0, sum1, sum2, tightest := Plan(budgets, depths, d);
      row2 := row2.Set(BestEffort, BEST_EFFORT_MAX);
      sum2 := sum2 + BEST_EFFORT_MAX;
      limits := [row0, row1, row2];
      totals := [Max(sum0, 4), Max(sum1, 16), Max(sum2, 64)];
      if tightest.Some? {
        sliceUs := Min(Max(tightest.value, 5), 50);
      }
    }
  }

  // What the loop has accumulated after the first n classes.

  predicate Planned(d: Demand, p: Priority) {
    p != BestEffort && d.budget.Get(p) != 0
  }

  ghost function Rows(d: Demand, w: nat, n: nat): Table<nat>
    requires n <= |ALL| && Measured(d)
  {
    if n == 0 then Uniform(0)
    else if Planned(d, ALL[n - 1]) then Rows(d, w, n - 1).Set(ALL[n - 1], Quota(d, w, ALL[n - 1]))
    else Rows(d, w, n - 1)
  }

  ghost function Sums(d: Demand, w: nat, n: nat): nat
    requires n <= |ALL| && Measured(d)
  {
    if n == 0 then 0
    else if Planned(d, ALL[n - 1]) then Sums(d, w, n - 1) + Quota(d, w, ALL[n - 1])
    else Sums(d, w, n - 1)
  }

  ghost function Guards(start: Table<nat>, d: Demand, n: nat): Table<nat>
    requires n <= |ALL| && Measured(d)
  {
    if n == 0 then start
    else if Planned(d, ALL[n - 1]) then
      Guards(start, d, n - 1).Set(ALL[n - 1], if ALL[n - 1] == High then 0 else Candidate(d, ALL[n - 1]))
    else Guards(start, d, n - 1)
  }

  lemma RowDone(d: Demand, w: nat)
    requires Measured(d) && w < 3
    ensures QuotaRow(d, w) == Rows(d, w, 4).Set(BestEffort, Quota(d, w, BestEffort))
    ensures RowSum(QuotaRow(d, w)) == Sums(d, w, 4) + Quota(d, w, BestEffort)
    ensures Rows(d, w, 4).bestEffort == 0
  {
    assert ALL[0] == High && ALL[1] == Medium && ALL[2] == Low && ALL[3] == BestEffort;
    assert Rows(d, w, 0) == Table(0, 0, 0, 0) && Sums(d, w, 0) == 0;
    var r1, r2, r3, r4 := Rows(d, w, 1), Rows(d, w, 2), Rows(d, w, 3), Rows(d, w, 4);
    assert r1 == Table(Quota(d, w, High), 0, 0, 0) && Sums(d, w, 1) == Quota(d, w, High);
    assert r2 == r1.(medium := Quota(d, w, Medium)) && Sums(d, w, 2) == Sums(d, w, 1) + Quota(d, w, Medium);
    assert r3 == r2.(low := Quota(d, w, Low)) && Sums(d, w, 3) == Sums(d, w, 2) + Quota(d, w, Low);
    assert r4 == r3 && Sums(d, w, 4) == Sums(d, w, 3);
  }

  lemma RowsDone(c: Controller, d: Demand)
    requires Measured(d)
    ensures QuotaRow(d, 0) == Rows(d, 0, 4) && QuotaRow(d, 1) == Rows(d, 1, 4)
    ensures QuotaRow(d, 2) == Rows(d, 2, 4).Set(BestEffort, BEST_EFFORT_MAX)
    ensures TotalLimit(d, 0) == Max(Sums(d, 0, 4), 4) && TotalLimit(d, 1) == Max(Sums(d, 1, 4), 16)
    ensures TotalLimit(d, 2) == Max(Sums(d, 2, 4) + BEST_EFFORT_MAX, 64)
    ensures Guards(c.guardUs, d, 4) == GuardRow(c, d)
  {
    RowDone(d, 0);
    RowDone(d, 1);
    RowDone(d, 2);
    assert ALL[0] == High && ALL[1] == Medium && ALL[2] == Low && ALL[3] == BestEffort;
    assert Guards(c.guardUs, d, 0) == c.guardUs;
    var g1, g2, g3 := Guards(c.guardUs, d, 1), Guards(c.guardUs, d, 2), Guards(c.guardUs, d, 3);
    assert g1 == c.guardUs.(high := GuardAfter(c, d, High));
    assert g2 == g1.(medium := GuardAfter(c, d, Medium));
    assert g3 == g2.(low := GuardAfter(c, d, Low));
    assert Guards(c.guardUs, d, 4) == g3;
  }

  // ------------------------------------------------------------------
  // Reachable controllers
  // ------------------------------------------------------------------

  const DEFAULT_BUDGETS := Table(1_000_000, 10_000_000, 100_000_000, 200_000_000)

  /** A worker reports a packet of some size, or the background loop rebalances. */
  datatype Event =
    | Processed(priority: Priority, size: nat)
    | Rebalance(depths: Table<nat>)

  function Step(c: Controller, e: Event): Controller {
    match e
    case Processed(p, size) => Observed(c, p, ProcessingNs(size))
    case Rebalance(depths) => Rebalanced(c, DEFAULT_BUDGETS, depths)
  }

  function Run(es: seq<Event>): Controller {
    if es == [] then START else Step(Run(es[..|es| - 1]), es[|es| - 1])
  }

  ghost predicate HasRebalanced(es: seq<Event>) {
    exists i :: 0 <= i < |es| && es[i].Rebalance?
  }

  /** Bounds on the averages: high and medium packets start below their ceiling. */
  ghost predicate EmaBounds(c: Controller) {
    && 50_000 <= c.ema.high <= 150_000
    && 50_000 <= c.ema.medium <= 150_000
    && 50_000 <= c.ema.low <= 200_000
    && 50_000 <= c.ema.bestEffort <= 200_000
  }

  ghost predicate LimitBounds(c: Controller, rebalanced: bool) {
    && |c.totals| == |c.limits| == 3
    && 4 <= c.totals[0] <= 34
    && 60 <= c.totals[1] <= 161
    && (rebalanced ==> 322 <= c.totals[2] <= 481 && c.limits[2].low == 192 && c.limits[2].bestEffort == 128)
    && (!rebalanced ==> c.totals[2] == 256)
  }

  lemma CapacityBetween(budget: nat, avg: nat, lo: nat, hi: nat)
    requires 0 < lo <= avg <= hi
    ensures Capacity(budget, hi) <= Capacity(budget, avg) <= Capacity(budget, lo)
  {
    CapacityIsAntitone(budget, lo, avg);
    CapacityIsAntitone(budget, avg, hi);
  }

  lemma DefaultCapacities(c: Controller)
    requires EmaBounds(c)
    ensures 6 <= Capacity(1_000_000, c.ema.high) <= 18
    ensures 60 <= Capacity(10_000_000, c.ema.medium) <= 180
    ensures 450 <= Capacity(100_000_000, c.ema.low) <= 512
  {
    CapacityBetween(1_000_000, c.ema.high, 50_000, 150_000);
    CapacityBetween(10_000_000, c.ema.medium, 50_000, 150_000);
    CapacityBetween(100_000_000, c.ema.low, 50_000, 200_000);
  }

  lemma RebalancedBounds(c: Controller, depths: Table<nat>)
    requires EmaBounds(c)
    ensures EmaBounds(Rebalanced(c, DEFAULT_BUDGETS, depths))
    ensures LimitBounds(Rebalanced(c, DEFAULT_BUDGETS, depths), true)
  {
    DefaultCapacities(c);
  }

  lemma ObservedBounds(c: Controller, p: Priority, size: nat)
    requires EmaBounds(c)
    ensures EmaBounds(Observed(c, p, ProcessingNs(size)))
  {
    ProcessingBounds(0, size);
    ProcessingBounds(size, Max(size, 1500));
  }

  lemma RebalancedSoFar(es: seq<Event>)
    requires es != []
    ensures HasRebalanced(es) <==> HasRebalanced(es[..|es| - 1]) || es[|es| - 1].Rebalance?
  {
    var n := |es| - 1;
    if HasRebalanced(es) {
      var i :| 0 <= i < |es| && es[i].Rebalance?;
      assert i < n ==> es[..n][i].Rebalance?;
    }
    if HasRebalanced(es[..n]) {
      var i :| 0 <= i < n && es[..n][i].Rebalance?;
      assert es[i].Rebalance?;
    }
  }

  /** In every reachable state the averages, and hence capacities and limits, stay in
      fixed ranges; in particular the averages never overflow 64 bits. */
  lemma {:induction false} ReachableBounds(es: seq<Event>)
    ensures EmaBounds(Run(es)) && LimitBounds(Run(es), HasRebalanced(es))
    ensures 6 <= Capacity(1_000_000, Run(es).ema.high) <= 18
    ensures 60 <= Capacity(10_000_000, Run(es).ema.medium) <= 180
  {
    if es == [] {
    } else {
      var n := |es| - 1;
      ReachableBounds(es[..n]);
      RebalancedSoFar(es);
      match es[n] {
        case Processed(p, size) => ObservedBounds(Run(es[..n]), p, size);
        case Rebalance(depths) => RebalancedBounds(Run(es[..n]), depths);
      }
    }
    DefaultCapacities(Run(es));
  }

  // ------------------------------------------------------------------
  // What a rebalancing sets
  // ------------------------------------------------------------------

  /** For every class with a budget the new quotas add up to the depth, kept between the
      capacity and twice the capacity, and cut off at the class's ceiling. */
  lemma RebalancingFollowsDemand(c: Controller, budgets: Table<nat>, depths: Table<nat>, p: Priority)
    requires p != BestEffort && budgets.Get(p) > 0
    ensures var r := Rebalanced(c, budgets, depths);
            var capacity := Capacity(budgets.Get(p), Max(c.ema.Get(p), 1));
            && |r.limits| == 3
            && r.limits[0].Get(p) + r.limits[1].Get(p) + r.limits[2].Get(p)
               == Min(Max(capacity, Min(depths.Get(p), 2 * capacity)), Table(66, 320, 192, 0).Get(p))
  {
    QuotasAreConserved(DemandOf(c, budgets, depths), p);
    CapacityBounds(budgets.Get(p), Max(c.ema.Get(p), 1));
  }

  /** A worker's new total limit is the sum of its new quotas, but at least 4, 16 or 64;
      worker 2 always gets 128 best-effort slots, and nobody else any. */
  lemma RebalancedTotals(c: Controller, budgets: Table<nat>, depths: Table<nat>, w: nat)
    requires w < 3
    ensures var r := Rebalanced(c, budgets, depths);
            && |r.totals| == |r.limits| == 3
            && r.totals[w] == Max([4, 16, 64][w], r.limits[w].high + r.limits[w].medium + r.limits[w].low
                                                  + r.limits[w].bestEffort)
            && r.limits[w].bestEffort == (if w == 2 then 128 else 0)
  {
  }

  /** The time class p may wait for High packets: the least of twice its average, its
      budget (but at least 1) and, unless it is High, 80, all in whole microseconds. */
  ghost predicate IsBid(us: nat, c: Controller, budgets: Table<nat>, p: Priority) {
    var average, budget := 2 * (Max(c.ema.Get(p), 1) / 1000), Max(budgets.Get(p) / 1000, 1);
    && us <= average && us <= budget && (p != High ==> us <= 80)
    && (us == average || us == budget || (p != High && us == 80))
  }

  lemma CandidateIsBid(c: Controller, budgets: Table<nat>, depths: Table<nat>, p: Priority)
    ensures IsBid(Candidate(DemandOf(c, budgets, depths), p), c, budgets, p)
  {
  }

  /** Medium and Low get their bid as the new threshold, High none; a class without a
      budget keeps its setting. */
  lemma RebalancedThresholds(c: Controller, budgets: Table<nat>, depths: Table<nat>, p: Priority)
    ensures var us := Rebalanced(c, budgets, depths).guardUs.Get(p);
            if p == BestEffort || budgets.Get(p) == 0 then us == c.guardUs.Get(p)
            else if p == High then us == 0
            else IsBid(us, c, budgets, p)
  {
    CandidateIsBid(c, budgets, depths, p);
  }

  predicate HasBudget(budgets: Table<nat>, p: Priority) {
    p != BestEffort && budgets.Get(p) > 0
  }

  ghost predicate IsLeastBid(us: nat, c: Controller, budgets: Table<nat>) {
    && (exists p :: HasBudget(budgets, p) && IsBid(us, c, budgets, p))
    && (forall p, bid: nat :: HasBudget(budgets, p) && IsBid(bid, c, budgets, p) ==> us <= bid)
  }

  /** The new guard slice is the least bid of all classes with a budget, clamped to
      5..50 us; without any such class it stays. */
  lemma RebalancedSlice(c: Controller, budgets: Table<nat>, depths: Table<nat>)
    ensures var us := Rebalanced(c, budgets, depths).sliceUs;
            if exists p :: HasBudget(budgets, p)
            then exists least: nat :: IsLeastBid(least, c, budgets) && us == Min(Max(least, 5), 50)
            else us == c.sliceUs
  {
    var d := DemandOf(c, budgets, depths);
    TightestIsLeast(d, 4);
    match Tightest(d, 4)
    case None =>
      forall p ensures !HasBudget(budgets, p) {
        assert ALL[Index(p)] == p;
      }
    case Some(least) =>
      var k :| 0 <= k < 4 && Planned(d, ALL[k]) && least == Candidate(d, ALL[k]);
      CandidateIsBid(c, budgets, depths, ALL[k]);
      assert HasBudget(budgets, ALL[k]);
      forall p, bid: nat | HasBudget(budgets, p) && IsBid(bid, c, budgets, p) ensures least <= bid {
        assert ALL[Index(p)] == p && Planned(d, ALL[Index(p)]);
        CandidateIsBid(c, budgets, depths, p);
        BidIsUnique(bid, Candidate(d, p), c, budgets, p);
      }
      assert IsLeastBid(least, c, budgets);
  }

  lemma BidIsUnique(a: nat, b: nat, c: Controller, budgets: Table<nat>, p: Priority)
    requires IsBid(a, c, budgets, p) && IsBid(b, c, budgets, p)
    ensures a == b
  {
  }

  lemma {:induction false} TightestIsLeast(d: Demand, n: nat)
    requires n <= |ALL| && Measured(d)
    ensures match Tightest(d, n)
            case None => forall k :: 0 <= k < n ==> !Planned(d, ALL[k])
            case Some(least) =>
              && (exists k :: 0 <= k < n && Planned(d, ALL[k]) && least == Candidate(d, ALL[k]))
              && forall k :: 0 <= k < n && Planned(d, ALL[k]) ==> least <= Candidate(d, ALL[k])
  {
    if n == 0 {
    } else {
      TightestIsLeast(d, n - 1);
      assert Planned(d, ALL[n - 1]) ==> Tightest(d, n) == Smaller(Tightest(d, n - 1), Some(Candidate(d, ALL[n - 1])));
    }
  }

  /** The moving average stays above 50 us and the budgets above 1 ms, so with the default
      budgets the thresholds never adapt: Medium and Low items always wait up to 80 us,
      others never, in slices of 10 us before the first rebalancing and 50 us from then
      on. */
  lemma {:induction false} GuardsStayShort(es: seq<Event>)
    ensures Run(es).guardUs == Table(0, 80, 80, 0)
    ensures Run(es).sliceUs == if HasRebalanced(es) then 50 else 10
  {
    if es == [] {
    } else {
      var n := |es| - 1;
      var c := Run(es[..n]);
      GuardsStayShort(es[..n]);
      RebalancedSoFar(es);
      ReachableBounds(es[..n]);
      if es[n].Rebalance? {
        DefaultGuards(c, es[n].depths);
      }
    }
  }

  lemma DefaultGuards(c: Controller, depths: Table<nat>)
    requires EmaBounds(c) && c.guardUs.bestEffort == 0
    ensures var r := Rebalanced(c, DEFAULT_BUDGETS, depths);
            r.guardUs == Table(0, 80, 80, 0) && r.sliceUs == 50
  {
    var d := DemandOf(c, DEFAULT_BUDGETS, depths);
    assert ALL[0] == High && ALL[1] == Medium && ALL[2] == Low && ALL[3] == BestEffort;
    assert Candidate(d, High) >= 100 && Candidate(d, Medium) == 80 && Candidate(d, Low) == 80;
    assert Tightest(d, 1) == Some(Candidate(d, High));
    assert Tightest(d, 2) == Some(80);
    assert Tightest(d, 4) == Tightest(d, 3) == Some(80);
  }

  // ------------------------------------------------------------------
  // The controller's averages
  // ------------------------------------------------------------------

  /** The processing times reported for class p, in order. */
  ghost function Reports(es: seq<Event>, p: Priority): seq<nat> {
    if es == [] then []
    else
      var n := |es| - 1;
      if es[n].Processed? && es[n].priority == p then Reports(es[..n], p) + [ProcessingNs(es[n].size)]
      else Reports(es[..n], p)
  }

  /** Whatever else the controller is told and however often it rebalances, its average of
      a class is the moving average of that class's processing times. */
  lemma {:induction false} AverageIsMovingAverage(es: seq<Event>, p: Priority)
    ensures Run(es).ema.Get(p) == EmaRun(START.ema.Get(p), Reports(es, p))
  {
    if es == [] {
    } else {
      var n := |es| - 1;
      AverageIsMovingAverage(es[..n], p);
      StepAverage(Run(es[..n]), es[n], p);
      if es[n].Processed? && es[n].priority == p {
        assert Reports(es, p)[..|Reports(es, p)| - 1] == Reports(es[..n], p);
      }
    }
  }

  ghost predicate AllEqual(xs: seq<nat>, c: nat) {
    forall i :: 0 <= i < |xs| ==> xs[i] == c
  }

  lemma {:induction false} SteadyReports(es: seq<Event>, more: seq<Event>, p: Priority, c: nat)
    requires AllEqual(Reports(more, p), c)
    ensures Run(es + more).ema.Get(p) == EmaSteady(Run(es).ema.Get(p), c, |Reports(more, p)|)
  {
    if more == [] {
      assert es + more == es;
    } else {
      var n := |more| - 1;
      var rest := more[..n];
      RunAppend(es, more);
      StepAverage(Run(es + rest), more[n], p);
      if more[n].Processed? && more[n].priority == p {
        AllButLastEqual(Reports(rest, p), ProcessingNs(more[n].size), c);
      }
      SteadyReports(es, rest, p, c);
    }
  }

  lemma RunAppend(es: seq<Event>, more: seq<Event>)
    requires more != []
    ensures Run(es + more) == Step(Run(es + more[..|more| - 1]), more[|more| - 1])
  {
    var all := es + more;
    LastOfConcat(es, more);
    assert all != [] && Run(all) == Step(Run(all[..|all| - 1]), all[|all| - 1]);
  }

  lemma StepAverage(c: Controller, e: Event, p: Priority)
    ensures Step(c, e).ema.Get(p)
         == if e.Processed? && e.priority == p then Ema(c.ema.Get(p), ProcessingNs(e.size)) else c.ema.Get(p)
  {
  }

  lemma AllButLastEqual(xs: seq<nat>, x: nat, c: nat)
    requires AllEqual(xs + [x], c)
    ensures AllEqual(xs, c) && x == c
  {
    assert (xs + [x])[|xs|] == x;
    forall i | 0 <= i < |xs| ensures xs[i] == c {
      assert (xs + [x])[i] == xs[i];
    }
  }

  /** From any reachable state: once the packets of a class all take c ns, the controller's
      average of it ends within 7 ns below c, after as many packets as the gap has
      nanoseconds. */
  lemma AverageConverges(es: seq<Event>, more: seq<Event>, p: Priority, c: nat)
    requires AllEqual(Reports(more, p), c)
    requires c >= 8 && |Reports(more, p)| > Max(Run(es).ema.Get(p) - c, c - Run(es).ema.Get(p))
    ensures c - 7 <= Run(es + more).ema.Get(p) <= c
  {
    SteadyReports(es, more, p, c);
    EmaConverges(Run(es).ema.Get(p), c, |Reports(more, p)|);
  }
}
