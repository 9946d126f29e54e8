/** The sliding-window maximum behind the guard windows. */
module LatencyTracking {
  import opened Pipeline

  function Largest(values: seq<nat>): nat {
    if values == [] then 0
    else Max(Largest(values[..|values| - 1]), values[|values| - 1])
  }

  lemma {:induction false} LargestIsMaximum(values: seq<nat>)
    ensures forall i :: 0 <= i < |values| ==> values[i] <= Largest(values)
    ensures values != [] ==> exists i :: 0 <= i < |values| && values[i] == Largest(values)
  {
    if values == [] {
    } else {
      var n := |values| - 1;
      var init := values[..n];
      LargestIsMaximum(init);
      assert forall i :: 0 <= i < n ==> values[i] == init[i];
      if Largest(values) != values[n] {
        assert Largest(values) == Largest(init) && init != [];
        var i :| 0 <= i < |init| && init[i] == Largest(init);
        assert values[i] == Largest(values);
      }
    }
  }

  lemma {:induction false} LargestOfAppend(xs: seq<nat>, x: nat)
    ensures Largest(xs + [x]) == Max(Largest(xs), x)
  {
    assert (xs + [x])[..|xs|] == xs;
  }

  /** Dropping the oldest value lowers the maximum only if it was the maximum. */
  lemma {:induction false} LargestWithoutFirst(values: seq<nat>)
    requires values != []
    ensures Largest(values) == Max(values[0], Largest(values[1..]))
  {
    var n := |values| - 1;
    if n == 0 {
    } else {
      LargestWithoutFirst(values[..n]);
      assert values[1..][..n - 1] == values[..n][1..];
    }
  }

  /** The last n values, or all of them if there are fewer. */
  function Last(values: seq<nat>, n: nat): seq<nat> {
    if |values| <= n then values else values[|values| - n..]
  }

  datatype Window = Window(latencies: seq<nat>, largest: nat)

  /** The new value joins, the oldest leaves, and the cached maximum is only recomputed
      when the value that left was equal to it. */
  function Recorded(w: Window, size: nat, x: nat): Window {
    var all, top := w.latencies + [x], Max(w.largest, x);
    if |all| <= size then Window(all, top)
    else Window(all[1..], if all[0] == top then Largest(all[1..]) else top)
  }

  function Replay(history: seq<nat>, size: nat): Window {
    if history == [] then Window([], 0)
    else Recorded(Replay(history[..|history| - 1], size), size, history[|history| - 1])
  }

  lemma RecordKeepsMaximum(w: Window, size: nat, x: nat)
    requires w.largest == Largest(w.latencies) && |w.latencies| <= size
    ensures Recorded(w, size, x).largest == Largest(Recorded(w, size, x).latencies)
    ensures |Recorded(w, size, x).latencies| <= size
  {
    LargestOfAppend(w.latencies, x);
    LargestWithoutFirst(w.latencies + [x]);
  }

  /** After any sequence of recordings the cached value is the maximum of the last `size`
      of them, and 0 if there are none, also when a maximum or a duplicate of it has been
      evicted. */
  lemma CachedMaximumIsExact(history: seq<nat>, size: nat)
    ensures Replay(history, size).latencies == Last(history, size)
    ensures forall i :: 0 <= i < |Last(history, size)| ==> Last(history, size)[i] <= Replay(history, size).largest
    ensures if Last(history, size) == [] then Replay(history, size).largest == 0
            else exists i :: 0 <= i < |Last(history, size)| && Last(history, size)[i] == Replay(history, size).largest
  {
    ReplayIsWindow(history, size);
    LargestIsMaximum(Last(history, size));
  }

  lemma {:induction false} ReplayIsWindow(history: seq<nat>, size: nat)
    ensures Replay(history, size) == Window(Last(history, size), Largest(Last(history, size)))
  {
    if history == [] {
    } else {
      var n := |history| - 1;
      ReplayIsWindow(history[..n], size);
      RecordKeepsMaximum(Replay(history[..n], size), size, history[n]);
      assert history == history[..n] + [history[n]];
    }
  }

  class LatencyTracker {
    const windowSize: nat := 1000
    var latencies: seq<nat>
    var maxLatencyUs: nat

    constructor ()
      ensures State() == Replay([], windowSize)
    {
      latencies, maxLatencyUs := [], 0;
    }

    ghost function State(): Window
      reads this
    {
      Window(latencies, maxLatencyUs)
    }

    method Recompute() returns (r: nat)
      ensures r == Largest(latencies)
    {
      r := 0;
      for i := 0 to |latencies|
        invariant r == Largest(latencies[..i])
      {
        assert latencies[..i + 1][..i] == latencies[..i];
        r := Max(r, latencies[i]);
      }
      assert latencies[..|latencies|] == latencies;
    }

    /** `latency` is in nanoseconds; whole microseconds are kept. */
    method RecordLatency(latency: nat)
      requires |latencies| <= windowSize
      modifies this
      ensures State() == Recorded(old(State()), windowSize, latency / 1000) && |latencies| <= windowSize
    {
      var us: nat := latency / 1000;
      latencies := latencies + [us];
      if us > maxLatencyUs {
        maxLatencyUs := us;
      }
      while |latencies| > windowSize
        invariant |latencies| <= windowSize + 1
        invariant if |latencies| == windowSize + 1 then State()
                  == Window(old(latencies) + [us], Max(old(maxLatencyUs), us))
                  else State() == Recorded(old(State()), windowSize, us)
      {
        var removed := latencies[0];
        latencies := latencies[1..];
        if removed == maxLatencyUs {
          maxLatencyUs := Recompute();
        }
      }
    }

    method GetP100() returns (ns: nat)
      ensures ns == 1000 * maxLatencyUs
    {
      ns := if maxLatencyUs == 0 then 0 else 1000 * maxLatencyUs;
    }
  }
}
