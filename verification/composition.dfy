/** The workers' protocol, its controller, the input channels and the shared counters
    together: what holds of the composed scheduler. */
module Composition {
  import opened Pipeline
  import opened Heaps
  import opened MultiWorkerProtocol
  import opened ChannelOrder
  import Edf
  import HeadOfLine
  import Q = QuotaLoss
  import C = SharedCounters

  /** The protocol event that an action of the composed system amounts to, if any. */
  function EventOf(s: Q.System, a: Q.Action): seq<Event> {
    match a
    case Act(e) => if e.ReadQuotas? then [] else [e]
    case Read(id, at, limitAt) => if Q.Readable(s, id, at, limitAt) then [Q.Loaded(s, id, at, limitAt)] else []
    case Rebalance(_) => []
  }

  function Protocol(actions: seq<Q.Action>): seq<Event> {
    if actions == [] then []
    else Protocol(actions[..|actions| - 1]) + EventOf(Q.RunAll(actions[..|actions| - 1]), actions[|actions| - 1])
  }

  /** A run under the controller is a run of the protocol. */
  lemma {:induction false} SameStates(actions: seq<Q.Action>)
    ensures Q.RunAll(actions).state == Run(Initial(), Protocol(actions))
  {
    if actions == [] {
    } else {
      var init, a := actions[..|actions| - 1], actions[|actions| - 1];
      SameStates(init);
      var before, step := Protocol(init), EventOf(Q.RunAll(init), a);
      if step == [] {
        assert before + step == before;
      } else {
        assert (before + step)[..|before|] == before;
      }
    }
  }

  /** No packet of the class waits, is being received, or is worked on. */
  ghost predicate Quiet(s: State, p: Priority) {
    && IdleIn(s, p) && s.inputs.Get(p) == []
    && forall id :: 0 <= id < |s.workers| ==> Held(id, s.workers[id], p) == []
  }

  /** Low and best-effort packets leave in the order of their arrival and none is missing
      once the class is quiet, whatever the controller does. */
  lemma LowerClassesAreDelivered(actions: seq<Q.Action>, p: Priority)
    requires p == Low || p == BestEffort
    ensures var s, arrived := Q.RunAll(actions).state, Arrived(Protocol(actions), p);
            && s.trackers.Get(p).emitted <= arrived
            && (Quiet(s, p) ==> s.trackers.Get(p).emitted == arrived)
  {
    SameStates(actions);
    OrderKeptExactlyWithOneWorker(p);
    OneWorkerKeepsOrder(Protocol(actions), p);
    forall item | item in Q.RunAll(actions).state.lost ensures item.priority != p {
      Q.OnlyMediumIsLost(actions, item);
    }
  }

  lemma StampedIsOrdered(packets: seq<Packet>, budget: nat)
    requires Edf.Stamped(packets, budget)
    ensures HeadOfLine.Ordered(packets)
  {
  }

  /** Ingress stamps the High channel with a monotone clock and one budget. Then in every
      run under the controller each worker's counters of High, Low and best effort are
      exact, and the Medium depth the controller reads exceeds the Medium items in the
      heaps by exactly the packets lost. */
  lemma ControllerReadsDepthPlusLosses(actions: seq<Q.Action>, budget: nat)
    requires Edf.Stamped(Arrived(Protocol(actions), High), budget)
    ensures var c := C.RunAll(Protocol(actions));
            && c.state == Q.RunAll(actions).state
            && (forall p, id :: p != Medium && 0 <= id < 3 ==>
                  c.shared[id].Get(p) == OfClass(c.state.workers[id].heap, p))
            && c.shared[0].medium + c.shared[1].medium + c.shared[2].medium
               == OfClass(c.state.workers[0].heap, Medium) + OfClass(c.state.workers[1].heap, Medium)
                  + OfClass(c.state.workers[2].heap, Medium) + |c.state.lost|
  {
    var es := Protocol(actions);
    var c := C.RunAll(es);
    SameStates(actions);
    C.StateIsRun(es);
    StampedIsOrdered(Arrived(es, High), budget);
    forall p, id | p != Medium && 0 <= id < 3 ensures c.shared[id].Get(p) == OfClass(c.state.workers[id].heap, p) {
      NoneLostBut(actions, p);
      C.CountersAreExact(es, p, id);
    }
    C.OrderedRunsMiscountOnlyLosses(es, Medium);
    AllLostAreMedium(actions);
    MediumDepth(c);
  }

  lemma NoneLostBut(actions: seq<Q.Action>, p: Priority)
    requires p != Medium
    ensures NoneOf(Q.RunAll(actions).state.lost, p)
  {
    forall item | item in Q.RunAll(actions).state.lost ensures item.priority != p {
      Q.OnlyMediumIsLost(actions, item);
    }
  }

  lemma AllLostAreMedium(actions: seq<Q.Action>)
    ensures OfClass(Q.RunAll(actions).state.lost, Medium) == |Q.RunAll(actions).state.lost|
  {
    forall item | item in Q.RunAll(actions).state.lost ensures item.priority == Medium {
      Q.OnlyMediumIsLost(actions, item);
    }
    AllOfClass(Q.RunAll(actions).state.lost, Medium);
  }

  lemma {:induction false} AllOfClass(items: seq<WorkItem>, p: Priority)
    requires forall item :: item in items ==> item.priority == p
    ensures OfClass(items, p) == |items|
  {
    if items == [] {
    } else {
      assert items[|items| - 1] in items;
      AllOfClass(items[..|items| - 1], p);
    }
  }

  lemma MediumDepth(c: C.System)
    requires C.Shaped(c) && Inv(c.state) && C.ErrorIsLoss(c, Medium)
    ensures c.shared[0].medium + c.shared[1].medium + c.shared[2].medium
         == OfClass(c.state.workers[0].heap, Medium) + OfClass(c.state.workers[1].heap, Medium)
            + OfClass(c.state.workers[2].heap, Medium) + OfClass(c.state.lost, Medium)
  {
    assert LocalInv(0, c.state.workers[0]) && LocalInv(1, c.state.workers[1]) && LocalInv(2, c.state.workers[2]);
  }
}
