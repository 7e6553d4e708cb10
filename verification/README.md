# Vanetza: timed and stateful core

This project models the timed, stateful part of Vanetza and proves properties of whole runs of it:

- the event runtime (`Runtime`), on which everything else is scheduled;
- the contention-based-forwarding packet buffer of EN 302 636-4-1 (`CbfModel`, `CbfRuns`, `CbfHistories`,
  `CbfFates`, `CbfPacketBuffer`) with the lifetime field of its packets (`Lifetimes`);
- the DCC gatekeeper (`FlowModel`, `FlowRuns`, `FlowControl`) and its budgets (`StateMachineBudget`, `FlowSpacing`,
  `BurstBudget`, `LimericBudget`);
- the rate controllers (`Limeric`, `FullyMeshedStateMachine`, `GradualStateMachine`) and the CBR aggregation
  (`CbrAggregator`);
- the LRU cache (`LruCache`).

Each object of the C++ code that changes its fields is a class. Its methods are proved to perform the operations of a
transition system (`State`, `Step`, `Run` or similar pure functions), and the lemmas state what holds after every
sequence of operations. `Sequences` holds lemmas about lists that are shared by several modules.

Time is an integer number of microseconds and loads are exact reals. An absent time stands for
`Clock::time_point::min()` and `max()`. Scope zero of the runtime is the null pointer. A rate control is represented by
the delays it answers with, so the properties of `FlowRuns` hold for any of them. The profiles DP0 to DP3 map onto the
access categories one to one, so queues are numbered by descending priority.

## What turned out to be false of the code

- `CbfPacketBuffer::update` does not reschedule: it keeps the wake-up in time if and only if the new expiry is not
  before the pending wake-up (`CbfRuns.UpdateInTimeIff`); otherwise the packet stays overdue until that wake-up
  (`CbfRuns.OverdueAfterEarlyUpdate`, in a run of a new buffer `CbfHistories.OverdueFromStart`).
- The remaining lifetime of a buffered packet is not the original one minus the time in the buffer, because each update
  stores it in a field of limited precision. The deviation is at most half a step per update
  (`CbfHistories.LifetimeAccounting`), and the field is exact after every update if and only if no update has to round
  (`CbfHistories.ExactIffNeverRounded`). Updates at most 25 ms apart, or at most half a step of the field, stop the
  aging of a packet altogether (`CbfRuns.FrequentUpdatesStopAging`, `CbfHistories.AgelessFromStart`); that is exactly
  when the field keeps its value (`Lifetimes.ShortQueuingIsForgotten`). The three values 3.15 s, 63 s and 630 s do not survive being encoded again
  (`Lifetimes.HeaderRoundTrip`).
- FlowControl may transmit several packets at one instant although the budget demands an interval between them.
  `FlowSpacing.RequestSpacedIff` says which requests are to blame: after a request the spacing survives every calm
  continuation if and only if nothing was queued; or everything queued had expired, and the request is transmitted at
  once or has expired itself; or something queued had not expired, and the request is queued. Both kinds of failure
  occur in runs from the initial state (`FlowSpacing.RequestFirstFromStart`, `FlowSpacing.ExpiryFromStart`).
- For each packet that overflow evicts, the drop hook of FlowControl is told about the arriving packet, so its reports
  are right if and only if the queue had room left (`FlowRuns.EvictionMisreported`).
- The burst budget admits up to 2N - 1 messages within one period, not N (`BurstBudget.BurstLimit`,
  `BurstBudget.BurstLimitAttained`).
- `BurstBudget::burst_messages` resizes a circular buffer, which never lowers its capacity. So the number of messages per
  burst can only be raised, and raising it fills up the buffer, which may close the budget
  (`BurstBudget.SetterRaisesOnly`). Lowering it forgets messages instead: the budget does not limit the messages at one
  instant if the setter is called in between (`BurstBudget.LoweringForgets`).
- `LimericBudget::update` is not idempotent (`LimericBudget.UpdateIsNotIdempotent`); it keeps the interval exactly under
  the condition of `LimericBudget.UpdateKeepsIntervalIff`.
- With dual alpha, a lighter channel may lead to a smaller duty cycle, even from the state set by the constructor
  (`Limeric.LighterLoadLowerDutyCycle`). It does so if and only if the two stations use different alphas in some period
  and this reverses their order within the permitted range (`Limeric.DualAlphaOrderedIff` for one period,
  `Limeric.LighterLoadOrderedIff` for whole runs).
- The destructor of Limeric cancels by scope, but the calculation is scheduled without any scope, so it stays pending
  (`Limeric.Station.Destroy`).
- A cache with capacity zero holds one entry (`LruCache.IndexIsRecent` with `Effective`).

## Model

| member | source | states |
|---|---|---|
| `Runtime.InsertPosition` | vanetza/vanetza/common/manual_runtime.cpp:11-19 | a scheduled event is placed behind all events that are not later, so equal deadlines fire in scheduling order |
| `Runtime.NoEventLost` | vanetza/vanetza/common/manual_runtime.cpp:57-72 | for any callbacks and any number of rounds, every event is exactly one of fired, cancelled or still queued |
| `Runtime.FiresInOrder` | vanetza/vanetza/common/manual_runtime.cpp:57-72 | if callbacks never schedule into the past, deadlines fire in non-decreasing order and none later than now |
| `Runtime.CancelledNeverFires` | vanetza/vanetza/common/manual_runtime.cpp:21-72 | after a cancellation, made before the loop or by a callback in the middle of it, only events scheduled anew can fire for that scope |
| `Runtime.Terminates` | vanetza/vanetza/common/manual_runtime.cpp:57-72 | if callbacks schedule strictly later, the loop ends after at most as many rounds as events were due |
| `Runtime.SameInstantNeverEnds` | vanetza/vanetza/common/manual_runtime.cpp:57-72 | a callback that schedules itself for the same instant keeps the loop going for ever |
| `Runtime.ManualRuntime.ScheduleAt` | vanetza/vanetza/common/manual_runtime.cpp:11-14 | inserts the event and keeps the queue sorted |
| `Runtime.ManualRuntime.CancelScope` | vanetza/vanetza/common/manual_runtime.cpp:21-27 | erases exactly the events of a non-null scope |
| `Runtime.ManualRuntime.Next` | vanetza/vanetza/common/manual_runtime.cpp:29-36 | the earliest deadline of the queue, or none |
| `Runtime.ManualRuntime.FireFirst` | vanetza/vanetza/common/manual_runtime.cpp:60-68 | one round: the event leaves the queue before its callback acts on it |
| `Runtime.ManualRuntime.Trigger` | vanetza/vanetza/common/manual_runtime.cpp:43-72 | runs rounds until every queued deadline is later than the new time, for all callbacks with which the loop ends |
| `Lifetimes.StoredPrecision` | vanetza/vanetza/geonet/lifetime.cpp:45-86 | encoding and decoding changes a duration by at most half a step, and not at all iff it is a multiple of the step |
| `Lifetimes.HeaderRoundTrip` | vanetza/vanetza/geonet/lifetime.cpp:45-86 | a header value survives another encoding iff it is not the largest multiplier of one of the three finer bases |
| `Lifetimes.ReduceNear` | vanetza/vanetza/geonet/pending_packet.hpp:68-85 | each reduction adds at most half a step to the deviation from the ideal lifetime; the returned remainder is not rounded |
| `Lifetimes.ReduceExact` | vanetza/vanetza/geonet/pending_packet.hpp:68-85 | a reduction of an exact lifetime stays exact iff it does not have to round |
| `Lifetimes.ShortQueuingIsForgotten` | vanetza/vanetza/geonet/pending_packet.hpp:68-85 | a reduction leaves the field's value unchanged iff it is at most half a step of the remainder; 25 ms always are |
| `Lifetimes.NeverEnds` | vanetza/vanetza/geonet/pending_packet.hpp:68-85 | any number of such reductions leaves any lifetime as it is |
| `CbfModel.DiscardConsistent` | vanetza/vanetza/geonet/cbf_packet_buffer.cpp:63-80 | a leaving packet keeps packets, timers, bytes and counters in agreement |
| `CbfModel.UpdateConsistent` | vanetza/vanetza/geonet/cbf_packet_buffer.cpp:126-137 | an update keeps packets, timers, bytes and counters in agreement |
| `CbfModel.RelocateKeepsOthers` | vanetza/vanetza/geonet/cbf_packet_buffer.cpp:134-134 | changing one timer does not change the order of the others |
| `CbfModel.InsertSlotPosition` | vanetza/vanetza/geonet/cbf_packet_buffer.cpp:113-118 | a new timer is behind all timers that do not expire later |
| `CbfModel.RelocateInPlace` | vanetza/vanetza/geonet/cbf_packet_buffer.cpp:134-134 | a changed timer keeps its place if its new expiry fits there |
| `CbfModel.AddConsistent` | vanetza/vanetza/geonet/cbf_packet_buffer.cpp:92-124 | adding with head drop and duplicate detection keeps everything in agreement |
| `CbfModel.FlushConsistent` | vanetza/vanetza/geonet/cbf_packet_buffer.cpp:173-197 | flushing keeps everything in agreement |
| `CbfRuns.HeadDropShortest` | vanetza/vanetza/geonet/cbf_packet_buffer.cpp:98-105 | head drop evicts the shortest sufficient prefix of the packet list |
| `CbfRuns.RunByArrival` | vanetza/vanetza/geonet/cbf_packet_buffer.cpp:92-124 | the packet list is in order of arrival in every run, so head drop evicts the oldest packets |
| `CbfRuns.AddInTime` | vanetza/vanetza/geonet/cbf_packet_buffer.cpp:92-124 | adding keeps one wake-up pending at or before the earliest expiry, although it reschedules only if the first timer is another one |
| `CbfRuns.RemoveInTime` | vanetza/vanetza/geonet/cbf_packet_buffer.cpp:63-90 | removing (and fetching) keeps one wake-up pending at or before the earliest expiry |
| `CbfRuns.AddWakes` | vanetza/vanetza/geonet/cbf_packet_buffer.cpp:92-124 | adding reschedules iff the first timer is another one afterwards |
| `CbfRuns.RemoveWakes` | vanetza/vanetza/geonet/cbf_packet_buffer.cpp:82-90 | removing reschedules iff the first timer is removed and others remain |
| `CbfRuns.UpdateInTimeIff` | vanetza/vanetza/geonet/cbf_packet_buffer.cpp:126-137 | an update keeps the wake-up in time iff the new expiry is not before it |
| `CbfRuns.OverdueAfterEarlyUpdate` | vanetza/vanetza/geonet/cbf_packet_buffer.cpp:126-137 | otherwise the packet is overdue until the pending wake-up |
| `CbfRuns.ExpireAllTimers` | vanetza/vanetza/geonet/cbf_packet_buffer.cpp:173-191 | flushing removes exactly the timers that have expired |
| `CbfRuns.ExpireAllLogs` | vanetza/vanetza/geonet/cbf_packet_buffer.cpp:173-203 | flushing hands out exactly the packets whose timer has expired and whose lifetime has not |
| `CbfRuns.RunInvariant` | vanetza/vanetza/geonet/cbf_packet_buffer.cpp:63-211 | in every run: bijection by identifier, byte counter, capacity unless one packet is held, at most one wake-up and exactly one while non-empty, counters, lifetimes, and nothing handed out before its expiry |
| `CbfRuns.RunInTime` | vanetza/vanetza/geonet/cbf_packet_buffer.cpp:82-211 | with prompt updates the wake-up is in time in every reachable state |
| `CbfRuns.NoneOverdue` | vanetza/vanetza/geonet/cbf_packet_buffer.cpp:82-211 | with prompt updates no buffered packet has expired whenever the runtime has nothing left to fire |
| `CbfRuns.RunTight` | vanetza/vanetza/geonet/cbf_packet_buffer.cpp:82-124 | without updates the pending wake-up is exactly for the earliest expiry while packets are buffered |
| `CbfRuns.FrequentUpdatesStopAging` | vanetza/vanetza/geonet/cbf_packet_buffer.cpp:126-137 | updates at varying distances of at most half a step of the field each keep the lifetime for ever, for any base |
| `CbfHistories.LifetimeAccounting` | vanetza/vanetza/geonet/cbf_packet_buffer.cpp:139-203 | the remainder of a leaving packet is its lifetime at entry minus the time since then, up to half a step per update; without rounding it is exact and the packet is handed out iff it is positive |
| `CbfHistories.ExactIffNeverRounded` | vanetza/vanetza/geonet/cbf_packet_buffer.cpp:126-137 | in every run the field is exact after every update since entry iff no update had to round |
| `CbfHistories.LeavingExactIff` | vanetza/vanetza/geonet/cbf_packet_buffer.cpp:139-203 | exact condition under which the remainder of a leaving packet has no deviation |
| `CbfHistories.OverdueFromStart` | vanetza/vanetza/geonet/cbf_packet_buffer.cpp:126-137 | a run of a new buffer in which a packet is overdue although no wake-up is due |
| `CbfHistories.AgelessFromStart` | vanetza/vanetza/geonet/cbf_packet_buffer.cpp:126-137 | runs of a new buffer of any length in which a packet does not age, without any wake-up being due |
| `CbfHistories.CounterMeaning` | vanetza/vanetza/geonet/cbf_counter.cpp:29-37 | a contending counter is one plus the update operations since entry for buffered packets and zero for all others |
| `CbfFates.RemoveMeaning` | vanetza/vanetza/geonet/cbf_packet_buffer.cpp:63-90 | a removed or fetched packet is gone, and all others keep their packet, timer and counter |
| `CbfFates.FlushMeaning` | vanetza/vanetza/geonet/cbf_packet_buffer.cpp:173-197 | exactly the packets whose timer has expired leave by a flush |
| `CbfFates.ExpireAllDelivers` | vanetza/vanetza/geonet/cbf_packet_buffer.cpp:173-203 | a flush hands out each packet with expired timer once if lifetime is left, with that lifetime, and no other packet |
| `CbfFates.ExpireAllOrdered` | vanetza/vanetza/geonet/cbf_packet_buffer.cpp:173-191 | a flush hands out packets in the order of their expiry |
| `CbfFates.ExactlyOneFate` | vanetza/vanetza/geonet/cbf_packet_buffer.cpp:63-203 | in every run each entry of a packet ends as exactly one of buffered, removed, fetched, evicted, delivered or ended, and the callback has seen the packet as often as it was delivered |
| `CbfFates.GoneForGood` | vanetza/vanetza/geonet/cbf_packet_buffer.cpp:63-203 | a packet that has left is neither buffered nor handed out again unless it enters anew |
| `CbfFates.FetchPassesOn` | vanetza/vanetza/geonet/cbf_packet_buffer.cpp:139-159 | a fetched packet is the one that has entered, with its lifetime reduced to what should be left, up to half a step per update and for leaving; without rounding exact iff leaving does not round |
| `CbfFates.RunDelivers` | vanetza/vanetza/geonet/cbf_packet_buffer.cpp:173-203 | each packet handed to the callback is passed on like that, by a wake-up that is not before the latest expiry asked for |
| `CbfRuns.ImmortalCounterMeaning` | vanetza/vanetza/geonet/cbf_counter.cpp:9-27 | an immortal counter is the number of arrivals of a packet over the whole run |
| `CbfPacketBuffer.Buffer.constructor` | vanetza/vanetza/geonet/cbf_packet_buffer.cpp:51-56 | starts in the initial state of the transition system |
| `CbfPacketBuffer.Buffer.ScheduleTimer` | vanetza/vanetza/geonet/cbf_packet_buffer.cpp:205-211 | replaces the pending wake-up by one for the first timer, other scopes unaffected |
| `CbfPacketBuffer.Buffer.RemoveTimer` | vanetza/vanetza/geonet/cbf_packet_buffer.cpp:82-90 | erases the timer and reschedules iff it was the first one and others remain |
| `CbfPacketBuffer.Buffer.RemovePacket` | vanetza/vanetza/geonet/cbf_packet_buffer.cpp:63-80 | performs Remove and reports whether the packet was buffered |
| `CbfPacketBuffer.Buffer.AddPacket` | vanetza/vanetza/geonet/cbf_packet_buffer.cpp:92-124 | performs Add: head drop loop, duplicate detection, and rescheduling by comparing the first timer's identity |
| `CbfPacketBuffer.Buffer.UpdatePacket` | vanetza/vanetza/geonet/cbf_packet_buffer.cpp:126-137 | performs Update |
| `CbfPacketBuffer.Buffer.FetchPacket` | vanetza/vanetza/geonet/cbf_packet_buffer.cpp:139-159 | performs Fetch and returns the packet with reduced lifetime iff that is positive |
| `CbfPacketBuffer.Buffer.FlushExpired` | vanetza/vanetza/geonet/cbf_packet_buffer.cpp:173-197 | performs Flush: loop over expired timers, callback, rescheduling |
| `CbfPacketBuffer.Buffer.GetCounter` | vanetza/vanetza/geonet/cbf_packet_buffer.cpp:168-171 | looks up the counter, zero if there is none |
| `CbfPacketBuffer.TriggerTo` | vanetza/vanetza/common/manual_runtime.cpp:43-72 | the event loop with the buffer and any other objects on it leaves no due event and no expired packet, keeps all invariants, and the other objects run as if they were alone |
| `FlowModel.NextQueue` | vanetza/vanetza/dcc/flow_control.cpp:111-127 | the first queue in priority order among those whose front has the least delay; none iff no front has a finite delay |
| `FlowModel.RanksByPriority` | vanetza/vanetza/dcc/mapping.cpp:10-31 | DP0 has the highest priority and DP3 the lowest one |
| `FlowRuns.ExactlyOneFate` | vanetza/vanetza/dcc/flow_control.cpp:25-148 | every requested packet is exactly one of transmitted once, expired, evicted or queued |
| `FlowRuns.RunFifo` | vanetza/vanetza/dcc/flow_control.cpp:25-101 | transmissions of each access category are in request order, and queued packets come after them, in every run |
| `FlowRuns.AscendingPairs` | vanetza/vanetza/dcc/flow_control.cpp:25-101 | any two transmissions of one category are in request order |
| `FlowRuns.HighestServedIff` | vanetza/vanetza/dcc/flow_control.cpp:111-127 | a trigger serves the highest waiting priority iff no lower one has a shorter delay |
| `FlowRuns.StepNoOvertaking` | vanetza/vanetza/dcc/flow_control.cpp:25-101 | whatever is transmitted by a request, or by a trigger that treats profiles alike, leaves only packets of lower priority, or later ones of the same priority, in the queues |
| `FlowRuns.RunNoOvertaking` | vanetza/vanetza/dcc/flow_control.cpp:25-101 | if triggers treat profiles alike, then in every run a packet that is transmitted after a later request, or still queued after its transmission, has lower priority than it |
| `FlowRuns.RunTimely` | vanetza/vanetza/dcc/flow_control.cpp:38-51 | no expired packet ever leaves by a trigger |
| `FlowRuns.RunExpiry` | vanetza/vanetza/dcc/flow_control.cpp:59-73 | the expiry of a queued packet is the time of its request plus its lifetime |
| `FlowRuns.RunExpires` | vanetza/vanetza/dcc/flow_control.cpp:135-148 | a packet is dropped as expired only by a request or trigger after its expiry |
| `FlowRuns.RunReports` | vanetza/vanetza/dcc/flow_control.cpp:64-67 | the drop hook learns about each expired packet and is told once for each evicted one |
| `FlowRuns.RunArmed` | vanetza/vanetza/dcc/flow_control.cpp:38-73 | with finite delays a trigger is pending whenever a packet is queued |
| `FlowRuns.TriggerProgress` | vanetza/vanetza/dcc/flow_control.cpp:38-51 | each firing on non-empty queues leaves fewer packets behind and a trigger for the rest |
| `FlowRuns.ScheduleNextMeaning` | vanetza/vanetza/dcc/flow_control.cpp:43-57 | a trigger is scheduled for the packet that may be transmitted first, after its delay |
| `FlowRuns.RescheduleMeaning` | vanetza/vanetza/dcc/flow_control.cpp:177-184 | rescheduling replaces all pending triggers by one for the packet that may be transmitted first |
| `FlowRuns.Drains` | vanetza/vanetza/dcc/flow_control.cpp:38-85 | without new requests each firing removes at least one remaining packet until the queues are empty |
| `FlowRuns.FiringEnds` | vanetza/vanetza/dcc/flow_control.cpp:38-57 | with finite delays no more triggers fire in a row than packets were queued and triggers pending, even if all of them are due at once |
| `FlowRuns.StuckWithoutFiniteDelay` | vanetza/vanetza/dcc/flow_control.cpp:111-127 | if all delays are infinite a trigger serves nothing and schedules nothing |
| `FlowRuns.PushWithinLimit` | vanetza/vanetza/dcc/flow_control.cpp:59-68 | a limited queue never exceeds its limit and ends with the new packet |
| `FlowRuns.PushEvicts` | vanetza/vanetza/dcc/flow_control.cpp:64-68 | only as many packets are evicted as the limit demands, the oldest first: the queue grows by one or is cut down to its limit |
| `FlowRuns.RunEvicts` | vanetza/vanetza/dcc/flow_control.cpp:59-73 | in every run a request is evicted only by an arriving one of its category that finds at least a limit of live packets, and the oldest go |
| `FlowRuns.EvictionMisreported` | vanetza/vanetza/dcc/flow_control.cpp:64-67 | the drop hook is told about the evicted packets iff the queue is unlimited or has room left |
| `FlowSpacing.RequestSpacedIff` | vanetza/vanetza/dcc/flow_control.cpp:25-101 | exact condition under which a request preserves the spacing in every calm continuation |
| `FlowSpacing.RunSpaced` | vanetza/vanetza/dcc/flow_control.cpp:25-101 | with one budget of constant interval, consecutive transmissions are at least one interval apart in every calm run |
| `FlowSpacing.RequestBeforeDueTrigger` | vanetza/vanetza/dcc/flow_control.cpp:87-101 | a request before a due trigger leads to two transmissions at one instant |
| `FlowSpacing.ExpiryDoublesTrigger` | vanetza/vanetza/dcc/flow_control.cpp:59-73 | if expiry empties the queues inside a request that is queued, two triggers are pending for the same time |
| `FlowSpacing.DoubledLosesSpacing` | vanetza/vanetza/dcc/flow_control.cpp:25-101 | two pending triggers and calm requests lead to two transmissions at one instant |
| `FlowSpacing.RequestFirstFromStart` | vanetza/vanetza/dcc/flow_control.cpp:25-101 | a run from the initial state that loses the spacing by a request before a due trigger |
| `FlowSpacing.ExpiryFromStart` | vanetza/vanetza/dcc/flow_control.cpp:25-101 | a run from the initial state that loses the spacing by expiry inside a request |
| `FlowSpacing.TwoTriggersTwoTransmissions` | vanetza/vanetza/dcc/flow_control.cpp:38-51 | two due triggers transmit two packets at one instant |
| `FlowControl.Gatekeeper.RequestPacket` | vanetza/vanetza/dcc/flow_control.cpp:25-36 | performs Arrive |
| `FlowControl.Gatekeeper.OnTrigger` | vanetza/vanetza/dcc/flow_control.cpp:38-51 | performs Trigger |
| `FlowControl.Gatekeeper.ScheduleTriggerIn` | vanetza/vanetza/dcc/flow_control.cpp:53-57 | adds a pending trigger in deadline order |
| `FlowControl.Gatekeeper.EnqueuePacket` | vanetza/vanetza/dcc/flow_control.cpp:59-73 | performs Enqueue: eviction, append, and a trigger for the first packet |
| `FlowControl.Gatekeeper.EvictFor` | vanetza/vanetza/dcc/flow_control.cpp:64-67 | evicts as many front packets as the limit demands |
| `FlowControl.Gatekeeper.DequeuePacket` | vanetza/vanetza/dcc/flow_control.cpp:75-85 | performs Dequeue and transmits |
| `FlowControl.Gatekeeper.TransmitImmediately` | vanetza/vanetza/dcc/flow_control.cpp:87-101 | true iff no packet of equal or higher priority waits and the delay is zero |
| `FlowControl.Gatekeeper.IsEmpty` | vanetza/vanetza/dcc/flow_control.cpp:103-109 | true iff all queues are empty |
| `FlowControl.Gatekeeper.FindNext` | vanetza/vanetza/dcc/flow_control.cpp:111-127 | the scan with a running minimum finds NextQueue |
| `FlowControl.Gatekeeper.RemoveExpired` | vanetza/vanetza/dcc/flow_control.cpp:140-146 | splits a queue into live and expired packets, keeping their order |
| `FlowControl.Gatekeeper.DropExpiredPackets` | vanetza/vanetza/dcc/flow_control.cpp:135-148 | performs DropExpired |
| `FlowControl.Gatekeeper.RescheduleTrigger` | vanetza/vanetza/dcc/flow_control.cpp:177-184 | performs Reschedule |
| `FlowControl.Gatekeeper.SetQueueLength` | vanetza/vanetza/dcc/flow_control.cpp:172-175 | sets the limit for packets to come and leaves the queues as they are |
| `FlowControl.TriggerTo` | vanetza/vanetza/common/manual_runtime.cpp:43-72 | the event loop with a gatekeeper and any other objects on it ends although triggers may schedule others for the same instant, leaves nothing due, and performs triggers only |
| `StateMachineBudget.Delay` | vanetza/vanetza/dcc/state_machine_budget.cpp:15-32 | zero iff nothing has been sent or the interval is over, and at most the interval |
| `StateMachineBudget.Budget.GetDelay` | vanetza/vanetza/dcc/state_machine_budget.cpp:15-32 | computes the delay |
| `StateMachineBudget.Budget.Notify` | vanetza/vanetza/dcc/state_machine_budget.cpp:34-37 | remembers the transmission |
| `BurstBudget.DelayIsShortest` | vanetza/vanetza/dcc/burst_budget.cpp:28-45 | the delay is the shortest one that remains in budget |
| `BurstBudget.OpenIff` | vanetza/vanetza/dcc/burst_budget.cpp:28-45 | the budget is open iff during a burst with room left or from the end of its period on; a burst is forgotten exactly after that |
| `BurstBudget.QuietPhase` | vanetza/vanetza/dcc/burst_budget.cpp:28-50 | in every run, after the first message of a burst others pass only within its duration or after its period |
| `BurstBudget.BurstLimit` | vanetza/vanetza/dcc/burst_budget.cpp:28-50 | at most 2N - 1 notifications in any half-open window of one period, in every run that respects the delay |
| `BurstBudget.BurstLimitAttained` | vanetza/vanetza/dcc/burst_budget.cpp:28-50 | that bound is reached by such a run for every capacity |
| `BurstBudget.SetterRaisesOnly` | vanetza/vanetza/dcc/burst_budget.cpp:52-56 | setting the messages per burst takes effect iff it does not lower them; then the buffer is full, which closes the budget iff its front is less than a period old |
| `BurstBudget.LoweringForgets` | vanetza/vanetza/dcc/burst_budget.cpp:28-56 | setting it to zero forgets the burst and still admits as many messages as before, any number of times |
| `BurstBudget.Budget.GetDelay` | vanetza/vanetza/dcc/burst_budget.cpp:28-45 | computes the delay and clears an overdue burst |
| `BurstBudget.Budget.Notify` | vanetza/vanetza/dcc/burst_budget.cpp:47-50 | pushes into the circular buffer, dropping the oldest message if full |
| `BurstBudget.Budget.SetBurstMessages` | vanetza/vanetza/dcc/burst_budget.cpp:52-56 | resizes the circular buffer: removes its last messages, or appends default time points, and never lowers its capacity |
| `Limeric.StaysInRange` | vanetza/vanetza/dcc/limeric.cpp:49-76 | duty cycles stay between the two limits |
| `Limeric.LoadOfInputs` | vanetza/vanetza/dcc/limeric.cpp:31-47 | the buffer holds the last two measurements, and the channel load is the given filter of the inputs alone |
| `Limeric.DutyCycleOfInputs` | vanetza/vanetza/dcc/limeric.cpp:49-76 | what a period does to the duty cycle: nearest permitted value to the one that the filtered load, the gain limits and the chosen alpha ask for |
| `Limeric.Fairness` | vanetza/vanetza/dcc/limeric.cpp:31-76 | two stations hearing the same loads differ by at most (1 - alpha)^n times the initial difference after n periods |
| `Limeric.ConvergesToEquilibrium` | vanetza/vanetza/dcc/limeric.cpp:31-76 | under a steady load every duty cycle approaches the same equilibrium geometrically |
| `Limeric.OffsetBounds` | vanetza/vanetza/dcc/limeric.cpp:51-57 | the offset is bounded by the gain limits, has the sign of the deviation, and is proportional to it in between |
| `Limeric.LighterLoadHigherDutyCycle` | vanetza/vanetza/dcc/limeric.cpp:31-76 | two runs without dual alpha: a channel that is never busier never leads to a smaller duty cycle |
| `Limeric.DualAlphaOrderedIff` | vanetza/vanetza/dcc/limeric.cpp:49-68 | one period keeps the order of two duty cycles iff it does not use different alphas in a way that reverses them within the permitted range |
| `Limeric.ReversedBySwitching` | vanetza/vanetza/dcc/limeric.cpp:49-68 | with alternate alpha >= alpha, a reversal takes the station ahead switching on its own |
| `Limeric.LighterLoadOrderedIff` | vanetza/vanetza/dcc/limeric.cpp:31-76 | two runs, dual alpha or not: the lighter channel never leads to a smaller duty cycle, after any prefix, iff no period reverses the stations |
| `Limeric.DualAlphaReversesStations` | vanetza/vanetza/dcc/limeric.cpp:49-68 | with the default parameters, the higher one of two duty cycles that are within the permitted range becomes the lower one; no run leading to them is given |
| `Limeric.LighterLoadLowerDutyCycle` | vanetza/vanetza/dcc/limeric.cpp:18-76 | two runs from the state set by the constructor in which the lighter channel leads to the smaller duty cycle |
| `Limeric.DualAlphaDominates` | vanetza/vanetza/dcc/limeric.cpp:49-76 | with alternate alpha >= alpha the dual-alpha duty cycle never exceeds the plain one |
| `Limeric.NextSlotAligned` | vanetza/vanetza/dcc/limeric.cpp:78-92 | calculations are aligned to multiples of twice the measurement interval, between half and one and a half of it ahead |
| `Limeric.Station.Measure` | vanetza/vanetza/dcc/limeric.cpp:40-47 | records a measurement; the average follows it until the buffer is full |
| `Limeric.Station.OnPeriod` | vanetza/vanetza/dcc/limeric.cpp:70-92 | performs a calculation and schedules the next one |
| `Limeric.Station.Destroy` | vanetza/vanetza/dcc/limeric.cpp:26-29 | leaves the scheduled calculation pending |
| `LimericBudget.GateOpensInTime` | vanetza/vanetza/dcc/limeric_budget.cpp:26-79 | under any interleaving the gate is closed for 25 ms and open after 1 s |
| `LimericBudget.StartIsLatest` | vanetza/vanetza/dcc/limeric_budget.cpp:42-51 | only notifications start an interval: start and duration are those of the latest one |
| `LimericBudget.NotifyMeaning` | vanetza/vanetza/dcc/limeric_budget.cpp:42-51 | a transmission closes the gate for the nominal interval within the limits |
| `LimericBudget.OpenUpdateMeaning` | vanetza/vanetza/dcc/limeric_budget.cpp:53-74 | an update of an open gate sets the nominal interval and closes it again iff that is not over yet |
| `LimericBudget.ClosedUpdateMeaning` | vanetza/vanetza/dcc/limeric_budget.cpp:53-74 | an update of a closed gate scales the remaining delay by the ratio of nominal to former interval, within the limits |
| `LimericBudget.NoDutyCycle` | vanetza/vanetza/dcc/limeric_budget.cpp:53-74 | without permitted duty cycle the interval is the longest one |
| `LimericBudget.UpdateNeverOpensInThePast` | vanetza/vanetza/dcc/limeric_budget.cpp:53-74 | an update of a closed gate never moves its opening before now |
| `LimericBudget.RepeatedUpdates` | vanetza/vanetza/dcc/limeric_budget.cpp:42-74 | after a transmission any number of updates with the same duty cycle leaves the interval unchanged |
| `LimericBudget.UpdateKeepsIntervalIff` | vanetza/vanetza/dcc/limeric_budget.cpp:53-79 | exact condition under which an update of a closed gate keeps the interval, including intervals at their limits |
| `LimericBudget.UpdateIsNotIdempotent` | vanetza/vanetza/dcc/limeric_budget.cpp:53-74 | two equal updates after a change of the duty cycle give different intervals |
| `LimericBudget.Budget.GetDelay` | vanetza/vanetza/dcc/limeric_budget.cpp:26-35 | remaining time until the gate opens |
| `LimericBudget.Budget.Notify` | vanetza/vanetza/dcc/limeric_budget.cpp:42-51 | starts an interval that is within its limits |
| `LimericBudget.Budget.Recalculate` | vanetza/vanetza/dcc/limeric_budget.cpp:53-74 | performs Update and stays within the limits |
| `FullyMeshedStateMachine.IntervalMonotone` | vanetza/vanetza/dcc/fully_meshed_state_machine.cpp:46-178 | two runs: a channel that is never busier never leads to a longer interval, at any step |
| `FullyMeshedStateMachine.ForgetsThePast` | vanetza/vanetza/dcc/fully_meshed_state_machine.cpp:103-178 | 51 equal samples lead from any history to the state of that load, which then persists |
| `FullyMeshedStateMachine.WindowIsLatest` | vanetza/vanetza/dcc/fully_meshed_state_machine.cpp:103-105 | the buffer holds the latest fifty samples, the latest first |
| `FullyMeshedStateMachine.TransitionMeaning` | vanetza/vanetza/dcc/fully_meshed_state_machine.cpp:103-127 | each state is left iff all of the latest ten samples reach, or all of the latest fifty are below, the limit in question |
| `FullyMeshedStateMachine.SubstateMeaning` | vanetza/vanetza/dcc/fully_meshed_state_machine.cpp:46-77 | the substate counts the thresholds that some of the latest fifty samples reaches, at most four |
| `FullyMeshedStateMachine.IntervalMeaning` | vanetza/vanetza/dcc/fully_meshed_state_machine.cpp:20-79 | 60 ms when relaxed, 100 ms plus 80 ms per substate when active, 460 ms when restrictive |
| `FullyMeshedStateMachine.StateMachine.MinChannelLoad` | vanetza/vanetza/dcc/fully_meshed_state_machine.cpp:146-161 | least of the latest ten samples, zero without samples |
| `FullyMeshedStateMachine.StateMachine.MaxChannelLoad` | vanetza/vanetza/dcc/fully_meshed_state_machine.cpp:163-178 | greatest of the latest fifty samples, zero without samples |
| `FullyMeshedStateMachine.StateMachine.UpdateLoad` | vanetza/vanetza/dcc/fully_meshed_state_machine.cpp:103-127 | performs Update on the window extremes |
| `GradualStateMachine.Target` | vanetza/vanetza/dcc/gradual_state_machine.cpp:22-38 | for every load there is a highest state whose lower limit is at most the load, or the first state |
| `GradualStateMachine.Converges` | vanetza/vanetza/dcc/gradual_state_machine.cpp:22-38 | under constant load that state is reached exactly after the distance to it, at most the number of states minus one, and kept |
| `GradualStateMachine.RunMonotone` | vanetza/vanetza/dcc/gradual_state_machine.cpp:22-38 | pointwise ordered loads lead to ordered states at every step |
| `GradualStateMachine.EtsiIntervalMonotone` | vanetza/vanetza/dcc/gradual_state_machine.hpp:51-71 | with either standard mapping a channel that is never busier never leads to a longer interval |
| `GradualStateMachine.StateMachine.Update` | vanetza/vanetza/dcc/gradual_state_machine.cpp:22-38 | moves by at most one state |
| `GradualStateMachine.StateMachine.constructor` | vanetza/vanetza/dcc/gradual_state_machine.cpp:57-63 | an empty set of states is repaired |
| `CbrAggregator.CollectMean` | vanetza/vanetza/geonet/cbr_aggregator.cpp:16-20 | the running average is the arithmetic mean |
| `CbrAggregator.CollectTopTwo` | vanetza/vanetza/geonet/cbr_aggregator.cpp:22-29 | the two maxima are the two largest values, with two zeros added |
| `CbrAggregator.ValuesMeaning` | vanetza/vanetza/geonet/cbr_aggregator.cpp:58-66 | each value is collected as often as recent extended entries share it over one hop or two hops |
| `CbrAggregator.NotBeforeMeaning` | vanetza/vanetza/geonet/timestamp.cpp:81-98 | timestamps less than half of their range apart are ordered as without wrap-around |
| `CbrAggregator.SelectionMeaning` | vanetza/vanetza/geonet/cbr_aggregator.cpp:31-38 | the largest value iff the mean exceeds the target, the second largest otherwise |
| `CbrAggregator.VisitingOrderIrrelevant` | vanetza/vanetza/geonet/cbr_aggregator.cpp:50-71 | the location table may be visited in any order |
| `CbrAggregator.Aggregator.Aggregate` | vanetza/vanetza/geonet/cbr_aggregator.cpp:50-71 | one-hop and two-hop values of the entries that are recent enough; the global value is the greatest of them and the former local one |
| `LruCache.IndexIsRecent` | vanetza/vanetza/common/lru_cache.hpp:49-90 | after any history the index is the list of most recently used keys, as many as fit, and the entries are those keys |
| `LruCache.RecentMeaning` | vanetza/vanetza/common/lru_cache.hpp:49-57 | that list holds each used key once, ordered by last use |
| `LruCache.UnmodifiedIsGenerated` | vanetza/vanetza/common/lru_cache.hpp:64-75 | entries that have never been assigned hold the generated value |
| `LruCache.CachedIff` | vanetza/vanetza/common/lru_cache.hpp:49-90 | a key is cached iff fewer other keys than fit have been used since its last use |
| `LruCache.NeverUsedNotCached` | vanetza/vanetza/common/lru_cache.hpp:49-90 | a key that has never been used is not cached |
| `LruCache.WrittenValueSurvives` | vanetza/vanetza/common/lru_cache.hpp:49-90 | an assigned value is kept while fewer other keys than fit are used |
| `LruCache.Cache.Get` | vanetza/vanetza/common/lru_cache.hpp:49-57 | makes the key the most recent one and returns its value |
| `LruCache.Cache.Put` | vanetza/vanetza/common/lru_cache.hpp:49-57 | makes the key the most recent one and assigns its value |
| `LruCache.Cache.Add` | vanetza/vanetza/common/lru_cache.hpp:64-75 | generates an entry, evicting the least recent one if full |
| `LruCache.Cache.Refresh` | vanetza/vanetza/common/lru_cache.hpp:77-82 | moves the key to the front |
| `LruCache.Cache.Remove` | vanetza/vanetza/common/lru_cache.hpp:84-90 | drops the least recently used entry |

## Left out

- Runtime.ManualRuntime.Trigger: does not cover callbacks with which the loop never ends (`Runtime.SameInstantNeverEnds`), because a method has to terminate; the lemmas about `Iterate` hold for any callbacks.
- CbfPacketBuffer.TriggerTo: callbacks of other objects do not call the buffer, and their part of the loop has to end; the runs of `CbfRuns` allow any operation between two wake-ups.
- FlowControl.TriggerTo: callbacks of other objects do not make requests, and their part of the loop has to end; the runs of `FlowRuns` allow any operation between two triggers.
- CbfPacketBuffer.Buffer.AddPacket: the iterator saved before head drop is compared as the identity of a list node that is never reused; the code compares an iterator that head drop may have invalidated.
- CbfPacketBuffer.Buffer.FlushExpired: the timer callback does not call back into the buffer.
- FlowRuns.RunArmed: the rate control gives the same answer when it is asked twice at one instant without a notification in between.
- LimericBudget.Budget.Notify: for a duty cycle of zero the conversion of an infinite duration gives an arbitrary number.
- Floating point rounding, NaN, overflow of 64 bit times, and the tolerance of `UnitInterval::operator==`.
- Memory management: iterators, smart pointers and the order of destruction.
- CbfCounterFading and SoftStateMap: counters that expire.
- BurstBudget.BurstLimit: the number of messages per burst is fixed during a run; `BurstBudget.LoweringForgets` shows what happens otherwise.
- BurstBudget.Budget.SetBurstMessages: the behaviour of `boost::circular_buffer::resize` is that of its documentation, as Boost is not part of the repository.
- ManualRuntime::reset, which fires callbacks outside the queue.
- State names, message rates and other accessors, which read one field each.
- Router, Repeater, LocationTable and the geometry of forwarding decisions.
- Fixed-size header codecs, ASN.1 wrappers, security, facilities, and the socktap, simulator and web applications.
