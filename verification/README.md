# Packet scheduler: verified model

This project models the scheduling core of a real-time UDP packet pipeline and proves
what its stages guarantee. Packets enter through a deficit-round-robin ingress stage,
pass one of several earliest-deadline-first schedulers, and leave through bounded egress
channels; buffers come from a shared pool.

| file | modules | models |
|---|---|---|
| types.dfy, heaps.dfy | Pipeline, Heaps | priorities, packets, deadlines, processing time, work items |
| egress.dfy | EgressChannels | bounded channels to the egress stage and their drop counters |
| sequence_tracker.dfy | SequenceTracking | restoring per-class order after out-of-order completion |
| multi_worker_protocol.dfy | MultiWorkerProtocol | three workers, shared channels and trackers as a transition system over all interleavings |
| guard_timing.dfy | GuardTiming | clock times for that system, and when its guard window keeps deadline order |
| channel_order.dfy | ChannelOrder | which classes leave in the order of their arrival |
| shared_counters.dfy | SharedCounters | the depth counters shared with the controller |
| quota_loss.dfy | QuotaLoss | that system together with the controller, and which classes can lose packets |
| composition.dfy | Composition | protocol, controller, channels and counters together |
| edf_worker.dfy | WorkerLoop | the loop body of one worker, in place |
| adaptive_controller.dfy | Adaptive | moving average, capacity, quotas, reachable bounds |
| edf.dfy, jackson.dfy | HeadOfLine, Edf, Jackson | the single-machine EDF stage and its optimality |
| single_cpu_edf.dfy | SingleCpuEdf | three deques filled straight from sockets |
| ingress_drr.dfy | IngressDrr | flows, visits, rounds, credit accounting and fairness |
| gedf.dfy | GlobalEdf | global EDF with real or virtual deadlines, as a mutex and condition-variable protocol |
| latency_tracker.dfy, cedf_preemption.dfy, cedf.dfy | LatencyTracking, ClusterPreemption, ClusterEdf | C-EDF worker with guard windows and clock-exact preemption |
| mc_edf.dfy | HighDistribution | greedy distribution of High packets in MC-EDF |
| buffer_pool.dfy | SizeClasses, BufferPool | size classes, leases, shared buffers and recycling |

Conventions. Times are integer nanoseconds on one monotone clock. Channels are sequences;
where other threads fill or empty a channel at the same time, a receive or send has a
nondeterministic outcome, so the contracts hold for every behaviour of those threads.
Threads become atomic steps at each lock, atomic operation or channel operation; a run is
a sequence of such steps. `BinaryHeap` is a sequence from which some minimal element is
removed. The factor 0.9, the rounding and the margins 1.2 and 2.0 are exact rationals.
Fields marked `ghost`, and `entry`, `spent` and `over` of a C-EDF task, are bookkeeping that
the schedulers do not have; they record what happened and influence nothing. Ghost logs of
the receives that found a channel empty let a contract say why a loop over a channel ended.

Where the code and its comments differ, the model follows the code:

- The comment at src/scheduler/multi_worker_edf.rs:727 calls the moving average commutative; it is not
  (`EmaCommutesExactlyForEqualObservations`, with the size of the effect in `EmaOrderEffect`).
- src/scheduler/multi_worker_edf.rs:1466 asserts in debug builds that a requeue succeeds. It fails exactly
  when a quota was reduced below the count at the loop top (`LossExactlyWhenQuotaShrank`); the number
  is then missing for good and blocks its class (`LossBlocksTheClass`). Under the controller this
  happens to Medium and to no other class (`ExactlyMediumCanBeLost`), and the first rebalancing
  can already bring it about (`RebalancingLosesAPacket`).
- src/scheduler/multi_worker_edf.rs:942 calls the update of the quotas atomic; each quota is an atomic of
  its own, so a worker can load each one from a different version (`QuotasCanBeTorn`).
- src/scheduler/multi_worker_edf.rs:772 promises guard settings that reflect the budgets. The averages stay
  above 50 us, so with the default budgets the 80 us cap always decides: the thresholds never change and
  the slice changes once (`GuardsStayShort`, `RebalancedThresholds`, `RebalancedSlice`).
- The guard window does not compare deadlines (src/scheduler/multi_worker_edf.rs:1552-1582), so it keeps
  deadline order exactly when the budgets leave room (`DeadlineOrderExactlyWhenRoomy`).
- src/scheduler/multi_worker_edf.rs:75-86 promises first-in first-out order per class. Order within a class is
  the order in which numbers are assigned (src/scheduler/multi_worker_edf.rs:1363-1368), and receiving
  and numbering are two steps. So the promise holds exactly for the classes with a single worker, Low and
  best effort (`OrderKeptExactlyWithOneWorker`); `TwoWorkersSwap` gives the run that swaps two High or
  two Medium packets.
- A second preemption in one pass credits the class popped first, not the class requeued
  (src/scheduler/multi_worker_edf.rs:1455, 1468); `CountersStayInStepExactlyWhen` and `MiscountsExactlyWhen` say
  when that matters, `OutOfOrderMiscounts` shows it, and `ControllerReadsDepthPlusLosses` that with ordered
  High packets only lost packets are miscounted.
- src/scheduler/ingress_drr.rs:385 says that a full channel moves on to the next flow; the code leaves
  only the loop over the sockets and goes on with the same flow.
- src/scheduler/ingress_drr.rs:423 keeps the deficit of an idle flow (`IdleCreditAccumulates`).
- src/scheduler/gedf_vd.rs:11 and 163 name factors 0.05, 0.6 and 0.75; the table holds 0.01, 0.8 and 0.9
  and the clamp lifts 0.01 to 0.1 (`ScaledBudgets`).
- src/scheduler/gedf.rs:293 promises that the shutdown wakes all waiting workers; it can miss one
  (`LostWakeup`, `ShutdownMissesExactlyCommittedWorkers`).
- src/scheduler/single_cpu_edf.rs:16 takes data to be sorted by deadline within a class; that holds exactly when
  sockets are registered with ascending budgets (`OrderedExactlyWhenBudgetsAscend`,
  `GlobalEdfExactlyWhenBudgetsAscend`).
- In C-EDF the class consulted for preemption is not refreshed (src/scheduler/cedf.rs:932, 949), so a High
  packet that came in midway can itself be preempted (`HighIsInterruptedExactlyWhen`).

## Model

| member | source | states |
|---|---|---|
| SequenceTracking.EmitsLongestCompletedPrefix | src/scheduler/multi_worker_edf.rs:140-168 | After completions in any order, each number at most once, the emitted packets are exactly the longest prefix of numbers that have all completed, in order, and the buffer holds exactly the completed numbers above the first gap. |
| SequenceTracking.RepresentationIsUnique | src/scheduler/multi_worker_edf.rs:75-81 | The set of completions determines the tracker state completely, so the reference description above leaves no freedom. |
| SequenceTracking.CompleteRepresents | src/scheduler/multi_worker_edf.rs:140-168 | One completion, cascade included, moves the tracker from representing a set of completions to representing that set plus the new number. |
| SequenceTracking.CompletionOrderIsIrrelevant | src/scheduler/multi_worker_edf.rs:140-168 | Two schedules that complete the same packets end in the same tracker state and the same output. |
| SequenceTracking.AllCompletedAllEmitted | src/scheduler/multi_worker_edf.rs:116-168 | Once numbers 0..n-1 have completed, all n are emitted and nothing stays buffered. |
| EgressChannels.Egress.SendPacket | src/scheduler/multi_worker_edf.rs:180-187 | A full egress channel refuses the packet and exactly one drop is counted; the receiver sees the offers in order minus the counted drops. |
| SequenceTracking.SequenceTracker.Complete | src/scheduler/multi_worker_edf.rs:140-168 | The in-place cascade loop computes the value-level completion, terminates, and offers to the egress channel exactly the newly emitted packets, in order. |
| SequenceTracking.CompletionRouter.Prepare | src/scheduler/multi_worker_edf.rs:259-270 | A packet is tagged with its class and that class's next number; other classes are untouched. |
| SequenceTracking.CompletionRouter.Complete | src/scheduler/multi_worker_edf.rs:226-235 | A completion is routed to the tracker and egress channel of its own class only. |
| MultiWorkerProtocol.EveryNumberInExactlyOnePlace | src/scheduler/multi_worker_edf.rs:1344-1630 | In every interleaving of the three workers each assigned number is in exactly one place (heap, hand, lost, buffered, emitted) and an unassigned number is nowhere. |
| MultiWorkerProtocol.OutputFollowsAssignmentOrder | src/scheduler/multi_worker_edf.rs:116-168 | What a class has emitted is exactly the first next_emit packets in the order in which numbers were assigned, and next_emit never passes the numbers assigned. |
| MultiWorkerProtocol.CountsDescribeTheHeap | src/scheduler/multi_worker_edf.rs:320-350 | At every moment of every run `counts` is the per-class histogram of the worker's heap and `total_count` its size. |
| MultiWorkerProtocol.StepKeepsInv | src/scheduler/multi_worker_edf.rs:1344-1630 | Every lock, channel or tracker step of any worker keeps the global one-place invariant. |
| MultiWorkerProtocol.StepKeepsLocal | src/scheduler/multi_worker_edf.rs:1355-1604 | Every step keeps each worker's own bookkeeping, including that the item in hand can return exactly when its class was within quota at the loop top. |
| MultiWorkerProtocol.RunKeepsInv | src/scheduler/multi_worker_edf.rs:1344-1630 | The global invariant holds after every sequence of events. |
| MultiWorkerProtocol.IdleOutputIsComplete | src/scheduler/multi_worker_edf.rs:1552-1630 | When no worker holds a packet of a class, its output is complete and its buffer empty, unless the very next number has been lost. |
| MultiWorkerProtocol.LossExactlyWhenQuotaShrank | src/scheduler/multi_worker_edf.rs:1453-1475 | A step loses an item if and only if it preempts a non-High item whose class had more items at the loop top than the quota read there; then exactly that item is lost. |
| MultiWorkerProtocol.NothingLost | src/scheduler/multi_worker_edf.rs:1346-1359 | If no quota read is below the count it applies to, nothing is ever lost and an idle class has emitted every packet it numbered. |
| MultiWorkerProtocol.LossBlocksTheClass | src/scheduler/multi_worker_edf.rs:150-167 | A lost number blocks its class for good: no continuation emits past it. |
| MultiWorkerProtocol.ArrivalsAreConserved | src/scheduler/multi_worker_edf.rs:1355-1368 | In every interleaving each arrived packet is, as often as it arrived, in its input channel, received by a worker but not yet numbered, or in the numbering history of its class. |
| MultiWorkerProtocol.PollingIsSkippedExactlyForMediumOverHigh | src/scheduler/multi_worker_edf.rs:1433-1449 | In every run a worker stops polling High for an item only when the channel is empty or its heap has no room, and skips the polling if and only if it pops a Medium item while High items are left in its heap. |
| MultiWorkerProtocol.OnlyMediumAndLowAreGuarded | src/scheduler/multi_worker_edf.rs:1515-1572 | In every run a High or best-effort item goes straight from polling to processing; a Medium or Low item waits until its window closes or a High packet that fits is received. |
| ChannelOrder.LineIsArrivals | src/scheduler/multi_worker_edf.rs:1363-1368 | For a class with one worker the arrivals are, in order, the numbering history, what that worker has received and not numbered, and the channel, in every run. |
| ChannelOrder.OneWorkerKeepsOrder | src/scheduler/multi_worker_edf.rs:75-86 | The output of such a class is an initial part of its arrivals, and all of them once nothing of the class waits or is worked on and nothing of it was lost. |
| ChannelOrder.TwoWorkersSwap | src/scheduler/multi_worker_edf.rs:1363-1368 | For High and Medium some run, under the initial quotas, takes in two packets and emits the second one first: one worker receives the first packet, another receives and numbers the second before it. |
| ChannelOrder.OrderKeptExactlyWithOneWorker | src/scheduler/multi_worker_edf.rs:75-86 | A class leaves in the order of its arrivals in every run if and only if a single worker serves it, which holds of Low and best effort and fails of High and Medium. |
| QuotaLoss.NeverLoweredNeverLost | src/scheduler/multi_worker_edf.rs:1346-1359 | A class of which no worker ever reads a lower quota than before never loses a packet, whatever happens to the other classes. |
| QuotaLoss.NeverLoweredCoversCounts | src/scheduler/multi_worker_edf.rs:1346-1359 | Quotas that never go down are never below the counts they apply to, which is the hypothesis of NothingLost. |
| QuotaLoss.NextKeepsInv | src/scheduler/multi_worker_edf.rs:592-616 | Each step of protocol and controller together keeps the averages in range, the Low and best-effort counts within every quota read, and the losses confined to Medium; a worker loads each atomic on its own and possibly late. |
| QuotaLoss.OnlyMediumIsLost | src/scheduler/multi_worker_edf.rs:788-974 | In every run whose quotas come from the controller under the default budgets, every lost packet is Medium. |
| QuotaLoss.RebalancingLosesAPacket | src/scheduler/multi_worker_edf.rs:1457-1466 | Whatever queue depths the first rebalancing sees, it cuts the Medium quota of worker 2 from 60 to 1, and a run of the whole system then loses the second of three waiting Medium packets to an earlier High packet. |
| QuotaLoss.ExactlyMediumCanBeLost | src/scheduler/multi_worker_edf.rs:1457-1466 | A class can lose a packet in some run under the controller if and only if it is Medium. |
| QuotaLoss.QuotasCanBeTorn | src/scheduler/multi_worker_edf.rs:609-613 | Some run of the system leaves worker 2 with a row of quotas that the controller never published together. |
| QuotaLoss.AveragesFollowFinishes | src/scheduler/multi_worker_edf.rs:733-743 | In every run of workers and controller the average of a class is the moving average over the processing times of the packets of that class that workers have finished, in that order; nothing else moves it. |
| SharedCounters.MiscountsExactlyWhen | src/scheduler/multi_worker_edf.rs:1453-1469 | A step makes a shared counter wrong if and only if it displaces an item that is not of the class popped first or has no room to return. |
| SharedCounters.OrderedRunsMiscountOnlyLosses | src/scheduler/multi_worker_edf.rs:1344-1630 | In every run in which High packets arrive in deadline order, the workers' counters of each class together exceed their heaps by exactly the packets of that class that were lost, and none is ever too low. |
| SharedCounters.CountersAreExact | src/scheduler/multi_worker_edf.rs:1344-1630 | While such a run has lost no packet of a class, every worker's counter of it equals the number of its packets in that worker's heap, at every step. |
| SharedCounters.OutOfOrderMiscounts | src/scheduler/multi_worker_edf.rs:1455-1469 | With two High packets out of deadline order some run loses nothing and yet counts Medium once too often and High once too little. |
| Composition.SameStates | src/scheduler/multi_worker_edf.rs:1120-1220 | A run of workers and controller together is a run of the protocol. |
| Composition.LowerClassesAreDelivered | src/scheduler/multi_worker_edf.rs:75-86 | Under the controller Low and best-effort packets leave in the order of arrival, and all of them have left once the class is quiet. |
| Composition.ControllerReadsDepthPlusLosses | src/scheduler/multi_worker_edf.rs:831-834 | With a High channel as ingress stamps it, the counters of High, Low and best effort are exact in every run under the controller, and the Medium depth read exceeds the Medium packets in the heaps by exactly the packets lost. |
| WorkerLoop.EdfWorker.PushWithCapacity | src/scheduler/multi_worker_edf.rs:320-350 | Pushes exactly when class quota and total limit both have room; otherwise nothing changes. |
| WorkerLoop.EdfWorker.DrainClass | src/scheduler/multi_worker_edf.rs:1355-1393 | Takes packets of a class in channel order and ends only when the class quota or the total limit is met, or a receive on the channel has come back empty after the last packet taken; never exceeds the quota. |
| WorkerLoop.EdfWorker.Drain | src/scheduler/multi_worker_edf.rs:1355-1398 | Drains all assigned classes, each until its quota, the limit or an empty channel stops it; everything received is in the heap, in order. |
| WorkerLoop.EdfWorker.PopEarliest | src/scheduler/multi_worker_edf.rs:1405-1421 | Removes one item with the earliest deadline and keeps counts and shared counters in step. |
| WorkerLoop.EdfWorker.PollHigh | src/scheduler/multi_worker_edf.rs:1433-1502 | Polls until the High quota, the limit or an empty channel stops it; after immediate preemption the item in hand is due first, items are conserved, and only an overfull class can lose its item. |
| WorkerLoop.EdfWorker.GuardWindow | src/scheduler/multi_worker_edf.rs:1515-1604 | The guard window swaps in one High packet that entered before the window closed, whatever its deadline; otherwise it changes nothing, lasts until the threshold is reached or the channel is disconnected, and, while there is room and clock gaps are shorter than a slice, has found the channel empty at its end. |
| WorkerLoop.EdfWorker.Iterate | src/scheduler/multi_worker_edf.rs:1344-1630 | One whole pass: every assigned class has been drained and High polled until a quota, the limit or an empty channel, the poll being skipped for a Medium item over High items only; conservation, what is completed, what is dropped, drift of the shared counters, deadline order of the completed item, and at most one preemption when High packets come in deadline order, whichever item was popped. Without an item to complete, heap and receipts were empty. |
| WorkerLoop.NothingDroppedWithinQuota | src/scheduler/multi_worker_edf.rs:1457-1466 | If every count is within its quota at the loop top, every push and requeue of the pass succeeds. |
| WorkerLoop.CountersStayInStepExactlyWhen | src/scheduler/multi_worker_edf.rs:1455-1469 | The shared counters keep up with the local counts in a pass if and only if the popped item is High, or no packet received displaces it, or exactly one does and its class was within quota at the loop top; displacements are counted over the deadlines of the High packets received. |
| WorkerLoop.DisplacementsMeaning | src/scheduler/multi_worker_edf.rs:1446-1469 | No polled packet displaces an item exactly if none is due before it; at most one does exactly if the first one due before it is due first of all. |
| WorkerLoop.TotalDriftIsTheLoss | src/scheduler/multi_worker_edf.rs:1468-1469 | Summed over the classes one pass changes the error of the shared counters by the number of dropped items, although single classes may be miscounted. |
| WorkerLoop.CountersEqualAtEveryLoopTop | src/scheduler/multi_worker_edf.rs:1344-1630 | Over any number of passes the shared counters equal the local counts at every loop top, as long as High packets come in deadline order and no quota is read below its count. |
| WorkerLoop.TotalErrorIsBounded | src/scheduler/multi_worker_edf.rs:1455-1469 | Over any number of passes the total error of the shared counters lies between 0 and the number of items dropped so far. |
| WorkerLoop.DefaultBudgetsKeepDeadlineOrder | src/scheduler/multi_worker_edf.rs:1515-1604 | With the default budgets, guard thresholds up to 80 us and clock gaps up to 4.46 ms, every completed item is due no later than everything left in the heap. |
| GuardTiming.DeadlineOrderExactlyWhenRoomy | src/scheduler/multi_worker_edf.rs:1515-1604 | In every timed run of the three-worker protocol each processed item is due no later than its worker's heap, if and only if every guarded budget is at least the High budget plus the time the guard window can still receive. |
| GuardTiming.RoomyRunsAreTimed | src/scheduler/multi_worker_edf.rs:1529-1596 | With such budgets every step of every timed run keeps the item in hand due first, in every phase of every worker. |
| GuardTiming.GuardCanInvertDeadlines | src/scheduler/multi_worker_edf.rs:1552-1582 | Otherwise a timed run from the initial state, under the initial quotas of worker 2, ends with a High packet in processing while an item due earlier lies in the heap. |
| GuardTiming.TimedRunsAreRuns | src/scheduler/multi_worker_edf.rs:1344-1630 | A timed run is a run of the protocol, so its invariants hold as well. |
| GuardTiming.DefaultBudgetsAreRoomy | src/scheduler/multi_worker_edf.rs:1515-1604 | With the default budgets and thresholds up to 80 us deadline order holds even if polls come 8.9 ms after their clock check. |
| Pipeline.ProcessingBounds | src/scheduler/multi_worker_edf.rs:287-303 | Simulated work is monotone in the packet size and stays within 0.05 ms to 0.15 ms. |
| Pipeline.ProcessingIsLinear | src/scheduler/multi_worker_edf.rs:287-303 | Between 200 and 1500 bytes the work lies on the straight line from 0.05 ms to 0.15 ms, to the nearest nanosecond; outside it is that of the nearer end. |
| Adaptive.EmaStaysInRange | src/scheduler/multi_worker_edf.rs:733-743 | For arbitrary observations the average stays within the range of its start value and the observations, all taken as at least 1. |
| Adaptive.EmaGap | src/scheduler/multi_worker_edf.rs:733-743 | One update leaves 7/8 of the gap (rounded down above, up below); the average stalls exactly from 7 below the observation up to it. |
| Adaptive.EmaConverges | src/scheduler/multi_worker_edf.rs:733-743 | Under a constant observation c >= 8 the average is within [c-7, c] after as many updates as the initial gap, and stays there. |
| Adaptive.AdaptiveController.ObserveProcessingTime | src/scheduler/multi_worker_edf.rs:733-743 | One observation: eight times the new average is seven times the old one (taken as at least 1) plus the observation, rounded down; other classes are untouched. |
| Adaptive.AverageIsMovingAverage | src/scheduler/multi_worker_edf.rs:733-743 | After any sequence of reports and rebalancings the controller's average of a class is the moving average of that class's processing times, in order. |
| Adaptive.AverageConverges | src/scheduler/multi_worker_edf.rs:733-743 | From any reachable controller: once all reports of a class are c ns, its average is within [c-7, c] after as many reports as the gap has nanoseconds, whatever is reported of other classes meanwhile. |
| Adaptive.EmaCommutesExactlyForEqualObservations | src/scheduler/multi_worker_edf.rs:727-741 | Two observations may be swapped for every average if and only if they are equal. |
| Adaptive.EmaOrderEffect | src/scheduler/multi_worker_edf.rs:727-741 | Swapping two consecutive observations changes the average by at most a 64th of their difference, up to rounding. |
| Adaptive.CapacityIsNearest | src/scheduler/multi_worker_edf.rs:825-827 | The capacity is the integer nearest to 0.9 * budget / average, half up, cut off at 1 and 512. |
| Adaptive.CapacityIsAntitone | src/scheduler/multi_worker_edf.rs:825-827 | A slower average never raises the capacity. |
| Adaptive.TargetFollowsDepth | src/scheduler/multi_worker_edf.rs:839-839 | The target is the queue depth where that lies between the capacity and twice the capacity, and the nearer of the two ends otherwise. |
| Adaptive.QuotasAreConserved | src/scheduler/multi_worker_edf.rs:842-940 | The quotas of a class sum to min(target, 66), min(target, 320) or min(target, 192), and each worker's total limit covers its quotas. |
| Adaptive.QuotasFollowAssignments | src/scheduler/multi_worker_edf.rs:869-921 | Workers get quotas only for their assigned classes, and worker 0 always keeps room for one High packet. |
| Adaptive.SpillOver | src/scheduler/multi_worker_edf.rs:842-905 | Every worker assigned to High or Medium gets a slot as soon as the target allows it; workers 1 and 2 get at most one High slot, and worker 2 more than one Medium slot only once worker 1 has 160. |
| Adaptive.RebalancingFollowsDemand | src/scheduler/multi_worker_edf.rs:806-940 | For every controller, budgets and depths, the quotas a rebalancing stores for a class add up to the depth, kept between the capacity and twice the capacity and cut off at 66, 320 or 192. |
| Adaptive.RebalancedTotals | src/scheduler/multi_worker_edf.rs:936-958 | Each total limit stored is the sum of the worker's quotas, but at least 4, 16 or 64; worker 2 always has 128 best-effort slots and nobody else any. |
| Adaptive.RebalancedThresholds | src/scheduler/multi_worker_edf.rs:873-928 | The threshold stored for Medium and Low is the least of twice the average, the budget and 80 us, in whole microseconds; High gets 0, and a class without a budget keeps its setting. |
| Adaptive.RebalancedSlice | src/scheduler/multi_worker_edf.rs:960-973 | The guard slice stored is the least such bid of all classes with a budget, clamped to 5..50 us. |
| Adaptive.SlowerNeverRaisesQuotas | src/scheduler/multi_worker_edf.rs:806-940 | With depths fixed, slower processing never raises any quota of any worker. |
| Adaptive.ActualDepth | src/scheduler/multi_worker_edf.rs:831-834 | Sums the shared counters of a class over all workers. |
| Adaptive.DepthsAdd | src/scheduler/multi_worker_edf.rs:831-834 | The depth of a class is additive over the workers' counters. |
| Adaptive.Distribute | src/scheduler/multi_worker_edf.rs:842-922 | The branching allocation code computes the closed-form shares of the three workers. |
| Adaptive.AdaptiveController.GuardThreshold | src/scheduler/multi_worker_edf.rs:675-688 | A threshold exists exactly for Medium and Low with a non-zero setting and is the smaller of setting and budget; it is the threshold the worker loop and the timed protocol use. |
| Adaptive.AdaptiveController.PlanClass | src/scheduler/multi_worker_edf.rs:806-933 | One class of a rebalancing pass: quotas of the three workers, guard threshold and guard candidate. |
| Adaptive.AdaptiveController.Rebalance | src/scheduler/multi_worker_edf.rs:788-974 | One pass of the in-place loop ends in exactly the controller value described by the distribution functions, guard settings and averages included. |
| Adaptive.ReachableBounds | src/scheduler/multi_worker_edf.rs:509-559 | In every reachable state under the default budgets: averages in [50000, 200000] ns, High capacity in [6, 18], Medium in [60, 180], total limits in [4, 34], [60, 161] and, after a rebalancing, [322, 481] with Low quota 192. |
| Adaptive.GuardsStayShort | src/scheduler/multi_worker_edf.rs:879-973 | Under the default budgets the guard settings never adapt: in every reachable state Medium and Low have 80 us and the others 0, and the slice is 10 us before the first rebalancing and 50 us ever after. |
| HeadOfLine.ChoiceExists | src/scheduler/edf.rs:190-212 | Something is chosen exactly when some line is not empty. |
| HeadOfLine.PickIsEarliestOfAll | src/scheduler/edf.rs:190-206 | If the lines are deadline-ordered, the earliest head precedes every waiting packet, ties going to the higher class. |
| HeadOfLine.DrainOrderIsComplete | src/scheduler/edf.rs:162-273 | Draining a backlog serves every packet exactly once. |
| HeadOfLine.DrainOrderIsOrdered | src/scheduler/edf.rs:162-273 | Draining deadline-ordered lines serves packets in deadline order across classes. |
| Edf.EdfScheduler.Refill | src/scheduler/edf.rs:171-183 | Each empty slot takes the head of its channel, seeing all arrivals up to its own receive; occupied lines end with their head buffered. |
| Edf.EdfScheduler.Earliest | src/scheduler/edf.rs:190-206 | The strict-less scan over the slots finds the earliest head, ties to the higher class. |
| EgressChannels.ForwardAny | src/scheduler/edf.rs:263-269 | The packet is appended to the channel of its own class if that has room, or one drop of that class is counted; no other channel changes, and every channel has been offered exactly the packets that left under its class, in order. |
| Edf.EdfScheduler.ProcessNext | src/scheduler/edf.rs:162-273 | One call removes exactly the chosen head and appends it to the channel of its class, or counts one drop of that class if the channel is full, and moves nothing else. |
| Edf.LinesAreFifo | src/scheduler/edf.rs:171-220 | Over whole runs every class is first-come first-served and nothing disappears before it is chosen. |
| Edf.ClassesLeaveInOrder | src/scheduler/edf.rs:162-273 | Over whole runs the packets that leave under a class are its first arrivals, in order; with the channel invariant, the receiver of that class sees them minus the counted drops. |
| Edf.EveryCallIsGlobalEdf | src/scheduler/edf.rs:162-220 | In every run fed with one budget per class and monotone timestamps, each call picks a packet that no queued or buffered packet precedes. |
| Jackson.CallsFollowTheDrainOrder | src/scheduler/edf.rs:162-273 | Calls without arrivals serve the backlog in the drain order. |
| Jackson.SomePacketIsAsLate | src/scheduler/edf.rs:225-251 | For any packet of the deadline order, every other order has a packet at least as late, with size-dependent processing times. |
| Jackson.DrainingIsOptimal | src/scheduler/edf.rs:162-273 | Repeated process_next minimises the maximum lateness over all orders of the backlog and meets every deadline whenever some order does. |
| Jackson.BackToBack | src/scheduler/edf.rs:225-251 | The lateness compared there is that of a machine working without pauses: each packet is done its own processing time after the one before it. |
| Jackson.CostIsLinear | src/scheduler/edf.rs:225-251 | The processing time is 0.1 ms up to 200 bytes, 0.2 ms from 1500 bytes on, and on the straight line between, to the nearest nanosecond. |
| SingleCpuEdf.SingleCPUEDFScheduler.RefillEdf | src/scheduler/single_cpu_edf.rs:167-230 | Reads at most one datagram per socket in registration order, skips empty datagrams, and back-inserts. |
| SingleCpuEdf.EachDatagramIsReadOnce | src/scheduler/single_cpu_edf.rs:178-213 | A refill turns each datagram that is not empty into exactly one packet, with its socket's budget and the time of the look, in registration order. |
| SingleCpuEdf.SingleCPUEDFScheduler.RefillEmpty | src/scheduler/single_cpu_edf.rs:244-258 | Only empty deques are refilled; best effort is never read. |
| SingleCpuEdf.SingleCPUEDFScheduler.ProcessNext | src/scheduler/single_cpu_edf.rs:242-349 | One call serves the earliest head over the three deques and appends it to the channel of its class, or counts one drop of that class if the channel is full; no other channel changes. |
| SingleCpuEdf.OrderedExactlyWhenBudgetsAscend | src/scheduler/single_cpu_edf.rs:178-213 | Back-insertion keeps a class's deque deadline-ordered in every run if and only if its sockets were registered with non-decreasing budgets. |
| SingleCpuEdf.EveryCallIsGlobalEdf | src/scheduler/single_cpu_edf.rs:242-299 | With such registrations every call picks a packet that no queued packet precedes. |
| SingleCpuEdf.GlobalEdfExactlyWhenBudgetsAscend | src/scheduler/single_cpu_edf.rs:242-299 | Every call of every run picks a packet that no queued packet precedes if and only if every class's sockets were registered with non-decreasing budgets. |
| IngressDrr.Flow.ReadFrom | src/scheduler/ingress_drr.rs:350-409 | One socket read: a datagram costs one credit and becomes a packet of its size, stamped with the clock, that is forwarded, or dropped if the channel is full; an empty datagram costs nothing. |
| IngressDrr.Flow.Pass | src/scheduler/ingress_drr.rs:335-414 | A pass over the sockets keeps the credit account and reads at most one datagram from each; a refused packet ends the pass only, so at most one is dropped; it is cut short otherwise only by the end of the credit or a cleared running flag. |
| IngressDrr.Flow.Visit | src/scheduler/ingress_drr.rs:303-423 | Exact accounting across a visit; unless the running flag was read as cleared or an empty datagram was met it reads min(credit, datagrams available). |
| IngressDrr.GrantedIsProduct | src/scheduler/ingress_drr.rs:303-306 | Credit granted is visits times quantum, which the flow invariant equates with packets read plus stored deficit. |
| IngressDrr.IngressDRRScheduler.AddSocket | src/scheduler/ingress_drr.rs:169-205 | The first socket of a class fixes quantum and budget; later sockets only add their queue. |
| IngressDrr.IngressDRRScheduler.Round | src/scheduler/ingress_drr.rs:286-434 | Unless the running flag is read as cleared, a round visits every flow exactly once, starting from the current one; it advances the start by one. |
| IngressDrr.OneTurnEach | src/scheduler/ingress_drr.rs:286-287 | Modular rotation gives every flow exactly one turn per round. |
| IngressDrr.GapBetweenVisits | src/scheduler/ingress_drr.rs:286-434 | Between consecutive visits to a flow lie n-2 other visits, or 2n-2 when it opened the earlier round, and no other number. |
| IngressDrr.CreditIsConserved | src/scheduler/ingress_drr.rs:303-423 | visits * quantum = read + deficit for every sequence of available datagrams. |
| IngressDrr.BackloggedFlowsShareFairly | src/scheduler/ingress_drr.rs:303-423 | Two flows of the scheduler backlogged in their last v visits, one visit a round, have read exactly v quanta each in them, so q_j * read_i = q_i * read_j. |
| IngressDrr.NeverAheadOfItsShare | src/scheduler/ingress_drr.rs:303-423 | No flow has ever read more than its quanta allow. |
| IngressDrr.IdleCreditAccumulates | src/scheduler/ingress_drr.rs:423-423 | Deficit is never reset: v idle visits entitle a flow to v + 1 quanta in one visit. |
| GlobalEdf.TasksCarryTheirKey | src/scheduler/gedf_vd.rs:301-307 | A packet's key is its deadline or, under virtual deadlines, the end of a tenth, eight tenths, nine tenths or all of its budget, by class and to the nearest nanosecond; no other key is right. |
| GlobalEdf.KeyWithinBudget | src/scheduler/gedf_vd.rs:301-307 | Real and virtual deadlines lie between a packet's timestamp and its deadline. |
| GlobalEdf.ScaledBudgets | src/scheduler/gedf_vd.rs:174-181 | After clamping, the effective factors are 0.1, 0.8, 0.9 and 1.0. |
| GlobalEdf.NoTaskIsStranded | src/scheduler/gedf.rs:111-151 | In every interleaving, spurious wake-ups included, workers sleep only while awakened workers plus the owed notification cover the heap; so a queued task always has a pending notification or a worker that is awake. |
| GlobalEdf.WokenWorkerCanPop | src/scheduler/gedf.rs:132-140 | A woken worker facing a non-empty heap can always take the mutex and pop an earliest task. |
| GlobalEdf.RunKeepsInv | src/scheduler/gedf.rs:111-151 | Mutual exclusion, coverage of queued tasks, conservation of tasks and the order of shutdown hold in every reachable state. |
| GlobalEdf.ShutdownMissesExactlyCommittedWorkers | src/scheduler/gedf.rs:142-159 | After the final notify_all a worker can still fall asleep if and only if it had seen the running flag set and was about to wait. |
| GlobalEdf.MissedWorkerIsAloneAndSleepsOn | src/scheduler/gedf.rs:146-159 | At most one worker is missed, and apart from spurious wake-ups nothing ever wakes it. |
| GlobalEdf.LostWakeup | src/scheduler/gedf.rs:142-159 | Such a run exists. |
| GlobalEdf.OvertakingIsBounded | src/scheduler/gedf.rs:60-64 | While a task waits, everything popped has a key and an ingress timestamp no later than its key, and pops, unpopped packets and arrivals stamped by then balance exactly. |
| GlobalEdf.NoClassStarves | src/scheduler/gedf.rs:132-151 | Under real and virtual deadlines: once the clock has passed a waiting task's key, at the latest at its deadline, each pop ahead of it uses up one packet stamped by the key and no arrival adds one, so fewer tasks overtake it from then on than were unpopped at that moment. |
| GlobalEdf.OvertakingBeforeTheKey | src/scheduler/gedf.rs:132-151 | At any time, fewer tasks are popped ahead of a waiting task than were unpopped with a stamp by its key plus what has arrived since. |
| GlobalEdf.EveryArrivalIsReceivedInOrder | src/scheduler/gedf.rs:256-284 | In every reachable state the packets of a class have been received in the order of their arrival, each once, and the rest wait in the channel; tasks pushed are queued or popped. |
| GlobalEdf.SharedQueue.TryPop | src/scheduler/gedf.rs:132-140 | Removes an earliest task, or reports an empty heap and changes nothing. |
| GlobalEdf.DispatchPass | src/scheduler/gedf.rs:256-284 | One pass pushes the first packet of every nonempty class and nothing else, highest class first, each with the right real or virtual deadline as its key; the rest stays queued, and the pass reports whether anything was there. |
| LatencyTracking.CachedMaximumIsExact | src/scheduler/cedf.rs:264-297 | After any sequence of recordings the window holds the last n values, the cached maximum is one of them and none exceeds it (0 if there are none), evicted maxima and duplicates included. |
| LatencyTracking.LatencyTracker.RecordLatency | src/scheduler/cedf.rs:264-285 | The in-place update with conditional recomputation is the value-level window step. |
| ClusterPreemption.PreemptionKeepsAccounts | src/scheduler/cedf.rs:929-1088 | Across any preemptions packets are conserved and, for every task, time spent plus stored estimate equals the original estimate plus its overruns. |
| ClusterPreemption.LeastSlackIsMostUrgent | src/scheduler/cedf.rs:65-185 | The slack a task carries is what was left between its entry and its latest start, or 0; so a task of least slack must start, counted from its entry, no later than any other that is not late, and among tasks of one entry time it has the earliest latest start. |
| ClusterPreemption.ExactWithoutOverruns | src/scheduler/cedf.rs:983-991 | If no slice overruns, spent plus stored equals the original estimate for every task. |
| ClusterPreemption.TurnsReplay | src/scheduler/cedf.rs:940-1012 | The clock-exact turns of the slicing loop, one reading after the other, have exactly the effect of their preemptions. |
| ClusterPreemption.ChecksComeEveryInterval | src/scheduler/cedf.rs:942-969 | In every run a turn of the loop looks for a preemption if and only if the processing began with a Medium or Low task and the last look, or the start, is at least 10 us ago. |
| ClusterPreemption.TurnMovesTasks | src/scheduler/cedf.rs:971-1006 | An interruption puts the running task back with the time since its slice began taken off its estimate, and starts the newcomer's slice; any other turn leaves tasks and slice alone. |
| ClusterPreemption.OverrunIsSmall | src/scheduler/cedf.rs:940-991 | An interrupted slice overruns its estimate by less than six clock gaps. |
| ClusterPreemption.PreemptionsAreBounded | src/scheduler/cedf.rs:940-969 | All preemptions of one processing happen before the first task's deadline and at least 10 us apart. |
| ClusterPreemption.HighStartsUninterrupted | src/scheduler/cedf.rs:932-951 | A processing that began with a High (or best-effort) task is never interrupted. |
| ClusterPreemption.InterruptedHighCameInMidway | src/scheduler/cedf.rs:932-1006 | A running High task is interrupted only if it came in by a mid-processing preemption itself. |
| ClusterPreemption.InterruptingHighNeeds | src/scheduler/cedf.rs:929-1006 | For given clock gaps and whatever budget, a High packet is interrupted only if the processing began with a Medium or Low task whose stored estimate lets the first slice reach a 10 us check, and budget remains at the second check. |
| ClusterPreemption.HighIsInterruptedExactlyWhen | src/scheduler/cedf.rs:929-1006 | With whatever clock steps, some run interrupts a High packet if and only if the processing began with a Medium or Low task that has at least 2 ns left and whose budget lasts beyond the earliest possible second check, which is given in closed form. |
| ClusterPreemption.HighIsInterruptedForGapExactlyWhen | src/scheduler/cedf.rs:929-1006 | For given clock gaps and budget enough for both checks, some run interrupts a High packet if and only if the processing began with a Medium or Low task whose first slice can reach a check. |
| ClusterEdf.Worker.TryPop | src/scheduler/cedf.rs:136-139 | Removes a task with least slack. |
| ClusterEdf.Worker.Guard | src/scheduler/cedf.rs:661-767 | Waiting in the guard window either admits one packet of a higher class and requeues the task, or lasts until the threshold is reached, the budget is down to twice the processing time or the channel is disconnected; meanwhile every class is polled to the end (given clock gaps shorter than a slice), and twice the processing time is left before the deadline, up to eight clock gaps. |
| ClusterEdf.Worker.Check | src/scheduler/cedf.rs:951-1006 | A due check is exactly one of the turns the run relation allows: refused by the budget, every class that may interrupt found empty, or a higher class taking over with the remaining work stored. |
| ClusterEdf.Worker.Spin | src/scheduler/cedf.rs:942-1012 | One turn of the slicing loop either ends with the estimate used up or is an allowed turn with that turn's effect on heap, clock and receipts. |
| ClusterEdf.Worker.Process | src/scheduler/cedf.rs:929-1093 | The slicing loop terminates, its turns form an allowed run, the heap is what the preemptions among them leave, the final class is the current task's, and the last slice covers the remaining estimate. |
| ClusterEdf.CompletionKeepsAccounts | src/scheduler/cedf.rs:649-1132 | From pop to completion every packet is queued or finished exactly once, and a finished packet has had at least its original processing time. |
| ClusterEdf.Worker.Accept | src/scheduler/cedf.rs:122-185 | A dispatched packet joins the heap with its full estimate and the slack it has at that moment; the accounts stay exact. |
| ClusterEdf.Worker.Iterate | src/scheduler/cedf.rs:647-1132 | One turn of the worker loop pops a most urgent task, holds its guard window if it is Medium or Low, processes what that leaves by an allowed run of the slicing loop until the last slice is used up, keeps the accounts, offers the finished packet to the channel of its own class, and reports its latency only for Medium and Low. |
| HighDistribution.HighDistributionStats.FindBestChannel | src/scheduler/mc_edf_elastic.rs:101-124 | Finds the first channel with the smallest score, provided scores fit 64 bits. |
| HighDistribution.HighDistributionStats.DispatchHigh | src/scheduler/mc_edf_elastic.rs:654-731 | Up to 32 waiting packets all go to the channel with the best score before any of them is recorded; each is recorded with the time left to its deadline, or 0, and only if it was sent. |
| HighDistribution.OfferEffect | src/scheduler/mc_edf_elastic.rs:127-150 | A packet sent adds one and its slack to its channel's figures and nothing to others; a refused one changes nothing. |
| HighDistribution.ScoresStayTogether | src/scheduler/mc_edf_elastic.rs:654-731 | In every run with slacks of at most S us, no two channel scores differ by more than 32 * (1000 + S). |
| HighDistribution.CountsStayTogether | src/scheduler/mc_edf_elastic.rs:106-124 | Hence 1000 * count_i <= (1000 + S) * (count_j + 32) for all channels. |
| HighDistribution.SpreadIsTight | src/scheduler/mc_edf_elastic.rs:654-731 | A single full batch reaches the bound exactly. |
| SizeClasses.SmallestSufficientClass | src/buffer_pool.rs:56-69 | A request gets the smallest class holding min(hint, 65536) bytes. |
| SizeClasses.IndexOfSize | src/buffer_pool.rs:86-89 | The trailing-zeros index is the position of the class in the table of sizes. |
| BufferPool.InitialHolds | src/buffer_pool.rs:21-36 | The fresh pool has 32 clean buffers of every class. |
| BufferPool.NextKeepsInv | src/buffer_pool.rs:106-274 | Lease, write, freeze, clone and drop keep ownership unique, pooled buffers clean, and the population formula. |
| BufferPool.PoolsFollowDemand | src/buffer_pool.rs:21-274 | After any run: every allocation is in exactly one place, pooled buffers are all-zero at full size, and each class's population is max(32, peak simultaneously outstanding). |
| BufferPool.SharedUntilLastDrop | src/buffer_pool.rs:226-268 | A frozen buffer keeps its contents while a handle is left and returns to the pool exactly once, at drops = handles + clones. |
| BufferPool.LeasedClean | src/buffer_pool.rs:106-116 | A lease gets a fresh token and a buffer of its size class that is all zero. |
| BufferPool.LeaseIsKept | src/buffer_pool.rs:144-274 | Whatever is leased, written, frozen, cloned or dropped under other tokens leaves a lease and its bytes alone. |
| BufferPool.FreezeRoundTrip | src/buffer_pool.rs:160-173 | Every handle reads exactly the first min(len, size) bytes last written before the freeze, whatever happens to other buffers before and after. |
| BufferPool.Pools.AcquireVec | src/buffer_pool.rs:106-116 | Pops the last pooled buffer, or allocates a zeroed one when the pool is empty. |
| BufferPool.Pools.LeaseFor | src/buffer_pool.rs:271-274 | Performs the lease step and returns a fresh token. |
| BufferPool.Pools.WriteTo | src/buffer_pool.rs:160-165 | Changes only the leased buffer's bytes. |
| BufferPool.Pools.FreezeLease | src/buffer_pool.rs:168-173 | Turns the lease into a single shared handle over the valid bytes. |
| BufferPool.Pools.DropOne | src/buffer_pool.rs:176-182 | Removes one handle, or recycles the buffer if it was the last owner. |

## Left out

- UDP sockets, FIONREAD, Tokio tasks, thread pinning and OS priorities: foreign calls; a socket is a source of datagrams.
- The GUI, argument parsing, the metrics server and src/metrics.rs: input/output and statistics.
- src/scheduler/egress_drr.rs: a polling loop around send_to whose order check has an empty body.
- MC-EDF reordering, routing and its moving-average timeouts: routing goes by channel index, the timeouts are tuning values.
- C-EDF find_best_worker: a single argmax over a heuristic score.
- Busy-waits: their real duration depends on the machine; only the processing time they aim at is modelled.
- Binary rounding of f64: 0.9, 1.2, the virtual-deadline factors and the rounding of durations are exact rationals.
- 64-bit and usize wrap-around: counters and times are unbounded; `ReachableBounds` shows that the averages stay below 200 us, and `FindBestChannel` asks that scores fit 64 bits.
- MultiWorkerProtocol.EveryNumberInExactlyOnePlace: the guard window's clock tests are a free choice of the run here (GuardTiming adds the clock), so the theorem covers every timing; shutdown in the middle of a pass is not modelled.
- QuotaLoss.OnlyMediumIsLost: the queue depths a rebalancing sees are arbitrary numbers instead of the shared counters, which covers every value those can have.
- ClusterPreemption.HighIsInterruptedForGapExactlyWhen: for one fixed bound on the clock gaps and a budget that may run out between the two checks, whether a check is affordable depends on every single clock step; HighIsInterruptedExactlyWhen is exact when the steps are free, and InterruptingHighNeeds gives the necessary conditions for a fixed bound.
- Concurrent process_sockets calls on one ingress scheduler: the pipeline starts one.
- Concurrent dispatch into one C-EDF worker while it processes: packets are accepted between turns of the loop; the heap's contents would only grow.
- GlobalEdf: the packet's processing after the pop and its forwarding are those of the other schedulers and are not repeated.
- Buffer identity is a number and handles are counted per buffer; reference aliasing inside one handle group is not represented further.
