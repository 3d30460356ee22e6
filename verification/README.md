# Verification of the scheduling core

A Dafny model of the request-scheduling platform, with proofs about every run of
it. The subject is the path of a request: it is submitted, its output length is
predicted, it waits in a priority queue with lazy deletion, ages, is dequeued by a
worker, is forwarded to the backend and answers its client, unless it is cancelled,
times out, or the scheduler has switched to first-come-first-served. Beside this
core stand four smaller kernels: the decoder stack, the early-stopping loop, the
preparation of the training samples, and the percentile of the benchmark reports.

`dafny verify dfyconfig.toml` checks the whole project.

## How it is built

| layer | files | content |
|---|---|---|
| queue as a state machine | `Wrappers`, `Requests`, `LazyQueue` | atomic steps of the lazy-deletion queue; a popped item is any first item of a bag; runs |
| laws of its runs | `QueueLaws`, `NewestCopies`, `EagerQueue`, `AgingErasure` | structure, exact delivery counts, which copy is popped first, equivalence with an eager queue, inertness of the C++ and Go aging |
| real queues | `HeapArray`, `WaitWindow`, `PriorityQueue`, `CppQueue`, `GoEngine` | array heaps with sifting, and the three queue objects, whose methods take the steps of the machine |
| scheduler | `Aging`, `Scheduler`, `Tables`, `TickLaws`, `CallBook`, `SchedulerObjects` | policies, effect of each operation, a tick request by request, the FCFS and SJF objects and the record of calls their books must agree with |
| gateway as a state machine | `Gateway` | clients, workers, condition variable, forwards, aging ticks, reloads; one step per piece of code between two awaits, and one per visit of the aging loop |
| laws of its runs | `GatewayLaws`, `ClientLaws`, `QueueInGateway`, `FallbackLaws`, `GatewayInvariants`, `GatewayCopies`, `DispatchOrder`, `Overtaking`, `Passing`, `AgingRuns`, `CancelRuns` | conservation, wakeups, one outcome per client, the latch, no overtaking and when there is, starvation bound, cancels undone by a tick |
| runs that show a law is needed or met | `AgingAwaits`, `WitnessRuns` | runs from the start that meet the conditions above or show what happens without them; where a tick is involved, other tasks run only while the aging loop awaits |
| kernels | `OracleSjf`, `DecoderStack`, `EarlyStopping`, `Dataset`, `Percentile`, `Sequences`, `Numbers` | |

The clock is a number that never decreases, priorities and times are `real`, request
ids are compared for equality only and are fresh in the gateway (uuid4 in the code),
the predictor is any partial function, `log1p` and `exp` are any monotone functions
with the right value at 0. The mutable `priority` attribute of a request is kept in a
table of the scheduler, keyed by id. Each section under a lock is one step.

## What the code does not do

Where the proofs follow the code away from what its documentation or its names
promise, the exact condition is proved, or each hypothesis is shown to be needed.

- A re-prioritised request leaves its old copy in the heap and deliverable
  (`update_priority` adds and then removes the cancelled mark). A request updated k
  times is delivered k + 1 times by a drain. A successful cancel stops at most one of
  the copies; over a drained run it prevents delivery if and only if the request was
  updated neither before nor after it (`QueueLaws.CancelLaw`, `QueueLaws.DrainLaw`,
  with a run for each kind of update: `QueueLaws.CancelledYetDelivered`,
  `QueueLaws.RevivedYetDelivered`).
- A client's cancel between the snapshot of an aging tick and the visit of the request,
  whatever happens in between, is undone if and only if no copy of the request is popped
  meanwhile and the visit lowers its priority (`CancelRuns.TickUndoesCancel`). It happens
  when the tick awaits the queue for an earlier request (`WitnessRuns.CancelUndone`).
- docs/architecture.md:45 says aging prevents starvation. In Python it keeps every later
  submission that goes to the heap from passing an aged request, under each of the three
  policies (`Overtaking.NoOvertaking`, `AgingRuns.AgedOutOfReach`). A later submission can
  pass a waiting request if and only if it goes to the fallback or is not behind it in
  the order of dispatch when it arrives (`Passing.PassedIff`,
  `WitnessRuns.FallbackPasses`). In C++ and Go aging has no effect on dispatch at all
  (`AgingErasure.AgingIsInert`, `AgingErasure.AgingDoesNotPreventStarvation`).
- Requests still in the heap when the fallback latch is set, once the dequeuers that
  began before it have returned, are never served, aged or not
  (`FallbackLaws.StrandedByLatch`, `FallbackLaws.StrandingHappens`). As long as no wakeup
  was lost this is the exact condition: otherwise some run pops the heap
  (`FallbackLaws.ServedIffNotAbandoned`).
- A timeout that hits a dequeuer already notified can leave an item in the heap while
  another dequeuer sleeps. The wakeup invariant holds throughout a run if and only if no
  timeout swallows a notification on which a sleeper relies (`GatewayLaws.WakefulIffSafe`,
  `GatewayLaws.LostWakeup`).
- A configuration reload that comes while a tick awaits the queue, after the visit of one
  request and before that of the next, can let the second overtake
  (`WitnessRuns.ReloadOvertakes`). It can if and only if the visit still to come, under
  the new configuration, takes the second out from behind the first
  (`Passing.ReloadLetsPass`). The invariant that the first is ahead, now and once the tick
  has visited both, holds throughout a run if and only if no reload is of this kind
  (`Overtaking.AheadIffHarmless`); `NoOvertaking` admits every such run.
- The queue refines an eager one as long as ids are not reused and no update raises a
  priority, as in every gateway run; each of the two conditions is needed
  (`EagerQueue.RaisingBreaksRefinement`, `EagerQueue.ReuseBreaksRefinement`).
- A cancelled request stays in the queue of the FCFS scheduler and is still handed out
  (`SchedulerObjects.FCFSScheduler.Cancel`).
- The split of the samples is a partition if and only if the cut points are in order,
  which negative ratios can violate (`Dataset.SplitIsPartition`,
  `Dataset.NegativeRatioLeaks`).

## Model

| member | source | states |
|---|---|---|
| `QueueLaws.RunKeepsSound` | python/scheduler/priority_queue.py:51-119 | in every run cancel marks are on pending ids only and every pending id has a copy in the heap (is itself there if no pass rewrote the table); an empty heap leaves nothing pending and no mark |
| `QueueLaws.RunKeepsBalance` | python/scheduler/priority_queue.py:51-130 | the statistics balance: depth + dequeued + cancelled = enqueued + updates, in every run |
| `QueueLaws.CopiesLaw` | python/scheduler/priority_queue.py:51-119 | per id and from any state, heap copies + deliveries + discards = earlier copies + enqueues + successful updates, in every run, ids reused or not |
| `QueueLaws.LifeCycle` | python/scheduler/priority_queue.py:51-119 | an id enqueued once is pending exactly until a copy of it is first popped; at most one copy is discarded, none without a cancel |
| `QueueLaws.MarkSwallowsOne` | python/scheduler/priority_queue.py:68-74 | a cancel mark stays until it has discarded exactly one copy, and nothing of the request is delivered before |
| `QueueLaws.CancelLaw` | python/scheduler/priority_queue.py:95-119 | after a successful cancel of an id enqueued once, whatever updates follow, at most one copy is discarded and, once drained, deliveries + discards = 1 + updates before + updates after; none is delivered if and only if there was no update before or after |
| `QueueLaws.DrainLaw` | python/scheduler/priority_queue.py:64-119 | a drain delivers an uncancelled id updated k times exactly k + 1 times; never more than that in any run |
| `QueueLaws.CancelledYetDelivered` | python/scheduler/priority_queue.py:95-119 | for every item and lower priority, a run in which the request is cancelled with success and delivered afterwards |
| `QueueLaws.RevivedYetDelivered` | python/scheduler/priority_queue.py:95-119 | for every item and lower priority, a run in which an update after the successful cancel clears the mark and the request is delivered |
| `NewestCopies.AgedCopyFirst` | python/scheduler/priority_queue.py:64-119 | in every run from the empty queue in which ids are not reused while a copy remains and no update raises a priority, the first copy popped of a pending request is its latest entry |
| `EagerQueue.LazyRefinesEager` | python/scheduler/priority_queue.py:51-119 | in every such run, with cancels and updates in any order, what a client observes is a run of the eager queue, which removes, replaces and takes a minimum at once; both end with the same requests to serve |
| `EagerQueue.EagerIsRealised` | python/scheduler/priority_queue.py:51-119 | conversely every eager run with fresh ids whose updates are of requests held and do not raise a priority is what a client observes of some lazy run |
| `EagerQueue.RaisingBreaksRefinement` | python/scheduler/priority_queue.py:102-119 | for every item and higher priority, a run that raises it and then delivers the old copy, which no eager queue does |
| `EagerQueue.ReuseBreaksRefinement` | python/scheduler/priority_queue.py:51-100 | for every two items with one id, a run that cancels the first and enqueues the second, which is then not to be served although the eager queue holds it |
| `AgingErasure.AgingIsInert` | cpp/src/priority_queue.cpp:49-102 | a C++ or Go run is possible if and only if it is possible with its aging passes erased, with the same events, heap and marks |
| `AgingErasure.DispatchIsEager` | go/internal/api/scheduler.go:75-133 | with fresh ids and no update, in all three queues and whatever aging runs, the enqueues, cancels and deliveries form an eager run |
| `AgingErasure.AgingDoesNotPreventStarvation` | go/internal/api/scheduler.go:151-166 | for any aging passes and any number of shorter newcomers there is a run that serves them all and never the request before them |
| `HeapArray.HeapPush` | python/scheduler/priority_queue.py:59 | pushing keeps heap order and adds exactly the item |
| `HeapArray.HeapPop` | python/scheduler/priority_queue.py:69 | popping returns an item no other precedes, removes exactly it and keeps heap order |
| `PythonQueue.PriorityQueue.Enqueue` | python/scheduler/priority_queue.py:51-62 | the object takes the enqueue step and stays a heap with sound tables |
| `PythonQueue.PriorityQueue.Dequeue` | python/scheduler/priority_queue.py:68-81 | one pass discards cancelled minima and delivers the next minimum; it finds nothing, so that the caller waits or times out, only when nothing is pending and no mark is left; the wait-time window holds exactly the latest waits of all deliveries that it should |
| `WaitWindow.WindowSizeIs` | python/scheduler/priority_queue.py:75-78 | how many that are after n deliveries: all up to 10000, then 5000 + (n - 10001) mod 5001 |
| `PythonQueue.PriorityQueue.Cancel` | python/scheduler/priority_queue.py:95-100 | succeeds exactly on pending ids and marks them |
| `PythonQueue.PriorityQueue.UpdatePriority` | python/scheduler/priority_queue.py:102-119 | succeeds exactly on pending ids; pushes a copy with the old time, replaces the entry and clears the mark |
| `CppQueue.PriorityQueue.Enqueue` | cpp/src/priority_queue.cpp:49-59 | the enqueue step, with the prediction or else max_tokens as priority |
| `CppQueue.PriorityQueue.Dequeue` | cpp/src/priority_queue.cpp:63-84 | from the state in which the wait ends, ready or timed out: the pops of one dequeue; no result only when the heap is drained; the wait-time window holds the latest 10000 waits, or all if fewer |
| `CppQueue.PriorityQueue.Cancel` | cpp/src/priority_queue.cpp:86-91 | succeeds exactly on pending ids and marks them |
| `CppQueue.PriorityQueue.ApplyAging` | cpp/src/priority_queue.cpp:93-102 | rewrites the priority of every pending entry and nothing in the heap: lowered by a thousand times the factor per second of waiting, at most by the cap, to no less than 1 |
| `CppQueue.PriorityQueue.Acquire` | cpp/src/priority_queue.cpp:131-134 | is an aging pass followed by a dequeue, a legal run of the machine |
| `GoHeap.PriorityHeap.Swap` | go/internal/api/scheduler.go:32-36 | exchanges two slots and keeps every item's index equal to its slot |
| `GoHeap.PriorityHeap.Push` | go/internal/api/scheduler.go:37-41 | adds exactly the item, keeps indices and heap order |
| `GoHeap.PriorityHeap.Pop` | go/internal/api/scheduler.go:42-50 | returns an item of least priority with index -1; the rest keep indices and heap order |
| `GoEngine.Engine.Submit` | go/internal/api/scheduler.go:75-87 | the enqueue step with the prediction or else MaxTokens as priority, which the pending entry keeps as its prediction |
| `GoEngine.Engine.Acquire` | go/internal/api/scheduler.go:93-102 | the pops of one pass under the mutex; waits only when nothing is pending |
| `GoEngine.Engine.Cancel` | go/internal/api/scheduler.go:125-133 | succeeds exactly on pending ids and marks them |
| `GoEngine.Engine.AgingTick` | go/internal/api/scheduler.go:151-166 | rewrites the priority of every pending request, to its prediction less one per second since submission and at most 500, and nothing in the heap |
| `Aging.OlderDropsMore` | python/scheduler/aging.py:31-55 | for every policy and configuration, within a tick an older request drops at least as much as a younger one |
| `Aging.DropIsPolicys` | python/scheduler/aging.py:31-55 | by how much a visit lowers: the lesser of the cap and factor * wait, factor * log1p(wait) * 100, or factor * (exp(wait / 5) - 1) * 50 with the wait counted up to 10 s, if that is above 0.01, else not at all |
| `Aging.LogarithmicEffective` | python/scheduler/aging.py:44-46 | the logarithmic policy lowers a priority if and only if the wait is above the one with log1p = 0.0001 / factor |
| `Aging.ExponentialEffective` | python/scheduler/aging.py:53-55 | the exponential policy lowers a priority if and only if the wait is above the one with exp(wait / 5) = 1 + 0.0002 / factor, and never if that is not before 10 s |
| `Aging.ClosedForm` | python/scheduler/sjf_scheduler.py:124-132 | re-applied boosts compound to the priority minus the sum of the effective drops, more than 0.01 each |
| `Aging.LinearReaches` | python/scheduler/aging.py:35-37 | an explicit number of visits takes a priority below any threshold; only an active configuration lowers one at all |
| `CallBook.OpenMeaning` | python/scheduler/fcfs_scheduler.py:19-41 | an id is open after a record of calls if and only if some call submitted it and no later one completed or cancelled it |
| `SchedulerObjects.FCFSScheduler.Submit` | python/scheduler/fcfs_scheduler.py:19-22 | keeps first-in-first-out over the whole history (submitted = taken + queued, as sequences), the id becomes open, and every counter is the number of calls it counts |
| `SchedulerObjects.FCFSScheduler.Acquire` | python/scheduler/fcfs_scheduler.py:24-27 | hands out the earliest submission not handed out before; waits exactly when all were |
| `SchedulerObjects.FCFSScheduler.Complete` | python/scheduler/fcfs_scheduler.py:29-34 | closes this id and no other in the record of calls, which the books match (an id is booked if and only if submitted and neither completed nor cancelled since); the queue order is kept |
| `SchedulerObjects.FCFSScheduler.Cancel` | python/scheduler/fcfs_scheduler.py:36-41 | succeeds exactly on ids submitted and neither completed nor cancelled since, closes them, and still leaves the request to be handed out in its turn |
| `SchedulerObjects.SJFScheduler.Submit` | python/scheduler/sjf_scheduler.py:61-84 | the priority is the prediction, or max_tokens if it failed; a failed prediction latches the fallback if there is one; latched, the fallback queue takes the request and the heap is untouched, otherwise the heap takes exactly the item with that priority; scheduled = enqueued in the heap + scheduled by the fallback, listed ids are unique |
| `SchedulerObjects.SJFScheduler.Acquire` | python/scheduler/sjf_scheduler.py:86-90 | latched: the oldest fallback request; else a dequeue's delivery |
| `SchedulerObjects.SJFScheduler.Complete` | python/scheduler/sjf_scheduler.py:92-99 | unlists this request and no other, keeps the heap untouched, closes the id in the fallback, whose two counters always equal the own ones; a success adds one to the completions, a failure one to the errors |
| `SchedulerObjects.SJFScheduler.Cancel` | python/scheduler/sjf_scheduler.py:101-105 | unlists this request and no other, cancels in both queues, answers for the heap; the fallback queue keeps its order |
| `SchedulerObjects.SJFScheduler.AgingTick` | python/scheduler/sjf_scheduler.py:123-132 | each request listed before is cancelled if late, else lowered by exactly what its policy says, with one copy more in the heap, or left; every other request is left alone |
| `TickLaws.TickEffect` | python/scheduler/sjf_scheduler.py:123-132 | a tick is independent visits: on each request it does what one visit does, on a request not listed nothing (priority, entry, mark, copies, listing) |
| `GatewayLaws.Conservation` | python/scheduler/gateway.py:155-197 | in every reachable state: scheduled + updates = heap + fallback queue + discards + forwards in flight + completed + errors |
| `GatewayLaws.SleepersLaw` | python/scheduler/priority_queue.py:51-119 | over every run, sleepers = those before + dequeues that found nothing - timeouts - pushes that met a sleeper; notified = those before + such pushes - resumed - timed out; so exactly the pushes notify, one sleeper each |
| `GatewayLaws.WakefulStep` | python/scheduler/priority_queue.py:51-93 | every step keeps the wakeup invariant, a timeout of a notified dequeuer if and only if no sleeper relied on it |
| `GatewayLaws.WakefulIffSafe` | python/scheduler/priority_queue.py:51-93 | over every run from such a state, the wakeup invariant holds after every prefix if and only if no timeout of a notified dequeuer takes a notification a sleeper relied on |
| `GatewayLaws.NoLostWakeup` | python/scheduler/priority_queue.py:51-93 | if every timeout is safe in this sense, in particular if timeouts hit un-notified dequeuers only, no item sits in the heap while all dequeuers sleep |
| `GatewayLaws.LostWakeup` | python/scheduler/priority_queue.py:84-91 | a run that ends so when a notified dequeuer times out |
| `ClientLaws.OneOutcome` | python/scheduler/gateway.py:105-133 | a client's future is set, to whatever value, once if it ends settled and never otherwise, and does not change once settled, in every run |
| `ClientLaws.OutcomeDecided` | python/scheduler/gateway.py:127-133 | what a client holds at the end is decided by the step that settled it: the body b if and only if that was the reply b, the failure if and only if a failed forward reported, the timeout if and only if it timed out |
| `ClientLaws.SettledOnce` | python/scheduler/gateway.py:105-133 | every settled client was settled by such a step of the run |
| `ClientLaws.CancelFollowsTimeout` | python/scheduler/gateway.py:125-133 | over every run a client cancels at most once, exactly if it timed out, and a client about to cancel has no other outcome |
| `ClientLaws.OneCompletionPerForward` | python/scheduler/gateway.py:163-197 | per request, forwards started = forwards in flight + complete calls; the completions counter is the number of successful calls and the errors counter that of failed ones, in the scheduler and in its fallback |
| `ClientLaws.ReportsFollow` | python/scheduler/gateway.py:181-195 | per request, replies = answered forwards still to report + reports of success; reported failures = failures still to be told to the client + failures told |
| `FallbackLaws.FallbackIsFifo` | python/scheduler/fcfs_scheduler.py:19-41 | the latch is never reset; queued + submitted = taken + still queued, as sequences, whatever is cancelled |
| `FallbackLaws.EachRoutedOnce` | python/scheduler/sjf_scheduler.py:79-84 | per request: enqueues in the heap + submissions to the fallback = 1 if the run admits its client, else 0 |
| `FallbackLaws.StrandedByLatch` | python/scheduler/sjf_scheduler.py:86-90 | latched and without an old dequeuer, no run ever pops the heap, which only grows |
| `FallbackLaws.ServedIffNotAbandoned` | python/scheduler/sjf_scheduler.py:86-90 | from every state without a lost wakeup and with a non-empty heap, some run pops the heap if and only if the scheduler is not latched or a dequeuer from before is left |
| `FallbackLaws.StrandingHappens` | python/scheduler/sjf_scheduler.py:61-90 | for every two requests, a run from the start after which the first, still listed and pending, is stranded in this way |
| `QueueInGateway.GatewayRunsQueue` | python/scheduler/sjf_scheduler.py:61-132 | what a gateway run does to its queue is a legal run of the queue, so every queue law applies |
| `QueueInGateway.EnqueuedOnce` | python/scheduler/gateway.py:105-120 | a gateway run enqueues each id at most once |
| `QueueInGateway.ClientCopies` | python/scheduler/gateway.py:105-161 | the exact copy count, per client, of every gateway run |
| `GatewayInvariants.RunKeepsOk` | python/scheduler/sjf_scheduler.py:61-132 | in every run the pending entry of a request carries its current priority, no copy a smaller one and every copy its enqueue time, and listed requests are unmarked and unique |
| `GatewayCopies.GatewayRefinesEager` | python/scheduler/sjf_scheduler.py:61-132 | what every gateway run, cancels and aging included, shows of its queue is a run of the eager queue with the same requests left to serve |
| `GatewayCopies.FirstForwardIsNewest` | python/scheduler/sjf_scheduler.py:86-132 | after any gateway run a dequeue that serves a pending, unmarked request serves its latest copy, at its current aged priority |
| `Overtaking.NoOvertaking` | python/scheduler/sjf_scheduler.py:120-132 | a request no older, submitted to the heap behind a listed request in the order of dispatch (a higher priority, or the same and enqueued later), is never forwarded, by whatever worker or queue, while that one waits, in any run whose reloads are harmless |
| `Overtaking.FailedPredictionWaits` | python/scheduler/sjf_scheduler.py:68-84 | without a fallback a request whose prediction failed never passes a waiting one of priority below its max_tokens |
| `Passing.PassedIff` | python/scheduler/sjf_scheduler.py:61-90 | a later submission can be forwarded while the listed request waits, in some run whose reloads are harmless, if and only if it goes to the fallback or is not behind in the order of dispatch |
| `Overtaking.AheadIffHarmless` | python/scheduler/sjf_scheduler.py:113-132 | over every run the invariant that the older request is ahead, now and after the visits the tick still has to make, holds after every prefix if and only if each reload between the visits of the two in one tick keeps it |
| `Passing.ReloadLetsPass` | python/scheduler/sjf_scheduler.py:113-132 | while both wait and the older is ahead, a reload lets the later be forwarded first in some continuation if and only if it comes between their visits and makes the visit of the later one take it out from behind |
| `WitnessRuns.SceneArises` | python/scheduler/sjf_scheduler.py:61-90 | the situation of NoOvertaking arises: two submitted requests, the shorter one forwarded while both wait |
| `WitnessRuns.FallbackPasses` | python/scheduler/sjf_scheduler.py:61-90 | a run from the start in which the later, longer request is forwarded by the fallback while the first waits in the abandoned heap |
| `WitnessRuns.ReloadOvertakes` | python/scheduler/sjf_scheduler.py:113-132 | a run from the start, with task switches at awaits only, in which a reload between two visits lets the later request be forwarded while the first waits |
| `AgingRuns.PriorityOverRun` | python/scheduler/sjf_scheduler.py:120-132 | over any run without reload a request's priority is its earlier one minus the drops of its visits |
| `AgingRuns.TickVisitsSnapshot` | python/scheduler/sjf_scheduler.py:120-132 | whatever happens during a tick, by its end it has visited exactly the requests listed at its start, in order, as of that time |
| `AgingRuns.AgedOutOfReach` | python/scheduler/sjf_scheduler.py:120-132 | under any policy, after 100 (p - 1) effective visits no later request of priority at least 1 that goes to the heap is forwarded while the aged one waits, in any run whose reloads are harmless |
| `AgingRuns.LateVisitsAge` | python/scheduler/aging.py:31-55 | which visits are effective: under any policy all from the first wait with an effect on, under an active linear policy all after 0.01 / factor seconds |
| `WitnessRuns.AgedSceneArises` | python/scheduler/sjf_scheduler.py:120-132 | the hypotheses of AgedOutOfReach are met by a run from the start, under every policy with an effect |
| `CancelRuns.TickUndoesCancel` | python/scheduler/sjf_scheduler.py:101-132 | a cancel between snapshot and visit, with any steps in between, is undone if and only if no copy of the request is popped meanwhile and the visit, not late, lowers the priority |
| `WitnessRuns.CancelUndone` | python/scheduler/sjf_scheduler.py:101-132 | a run from the start, with task switches at awaits only, in which a client gives up while the tick awaits the queue for another request; afterwards its request is pending, unmarked and can be forwarded |
| `OracleSjf.TotalWaitMeaning` | python/benchmark/sjf.py:102-104 | the total waiting time adds, for each job, the service times before it |
| `OracleSjf.AscendingIsOptimal` | python/scheduler/sjf_scheduler.py:135-150 | an ascending order of jobs waits no longer in total than any permutation |
| `OracleSjf.DrainIsSorted` | python/scheduler/priority_queue.py:64-81 | a drain without marks serves the contents of the heap, each once, in dispatch order |
| `OracleSjf.OracleIsOptimal` | python/scheduler/sjf_scheduler.py:135-150 | a batch drained by the oracle scheduler waits no longer than in any other order, submission order included |
| `DecoderStack.LayerForward` | vllm_port/smollm3.py:316-359 | in both forms a layer takes the value of (hidden, residual) to that of the textbook block, and returns the output of the MLP and the sum after the attention |
| `DecoderStack.ModelForward` | vllm_port/smollm3.py:436-451 | the stack computes the final norm of the textbook fold in both forms; only the fused form without layers has no meaningful result |
| `EarlyStopping.Train` | python/predictor/trainer.py:101-145 | the checkpoint is of the first epoch with the least finite loss run; the run stops at the first exhausted epoch, at min(epochs, best + max(1, patience)) |
| `Dataset.Deduplicate` | python/predictor/dataset.py:200-208 | keeps, in order, exactly the first sample of each digest |
| `Dataset.SplitIsPartition` | python/predictor/dataset.py:210-228 | for any ratios, the split is a partition if and only if the cut points are in order |
| `Dataset.SplitSizes` | python/predictor/dataset.py:217-228 | with non-negative ratios that leave room, the training and validation parts have n times their ratio, rounded down, in the order of the permutation; the rest is for the test |
| `Dataset.NegativeRatioLeaks` | python/predictor/dataset.py:210-228 | for every batch of at least two samples, ratios for which every sample is in the test split and all but one are in the training split too |
| `Dataset.NoLeakage` | python/training/train.py:28-36 | with non-negative ratios deduplicated samples are partitioned and no digest is in two splits |
| `Percentile.RankCorrect` | python/benchmark/metrics.py:44-49 | the result is the k-th smallest of n data for the integer k with k <= n p < k + 1, taken between 1 and n: at least k are at most it, fewer than k below it, it is one of them; without data it is 0 |
| `Percentile.RankDetermines` | python/benchmark/metrics.py:44-49 | at most one value has that rank |
| `Percentile.OrderIndependent` | python/benchmark/metrics.py:44-49 | the order of the data does not matter |
| `Percentile.Monotone` | python/benchmark/metrics.py:44-49 | a larger p gives no smaller result |

## Left out

- The gateway is a state machine on values, not an object: its workers and forwards are interleaved tasks, and a step is what one of them does between two awaits. The FCFS and SJF schedulers and the queues are objects.
- PythonQueue.PriorityQueue.Dequeue: one pass under the lock; the wait between passes and its timeout are steps of the gateway machine (`GatewayLaws`), not of this method.
- The average and the maximum that `stats` computes from the wait times.
- CppQueue.PriorityQueue.Dequeue: how long the wait before the pops takes, and what other threads do during it, is not modelled.
- GoEngine.Engine.Acquire: waiting, the context and its goroutine are not modelled; context expiry can swallow a signal, so only what happens under the mutex is stated.
- GoEngine.Engine.AgingTick: a request is shared by pointer, so the request handed out shows its aged priority; the model keeps that priority in the pending table only.
- FCFS getters that wait for a submission are not counted; an acquire happens when there is something to take.
- asyncio internals (when an await of a free lock switches tasks, cancellation races inside `wait_for`) and the shutdown of the workers.
- Streaming answers, HTTP routes, metrics, proxying, configuration files.
- Float rounding of priorities and times; SHA-256, which is any digest function; NaN except in the training losses.
- Feature extraction, the MLP and its exports, feature statistics of the split, weight loading.
- The Go command and its handlers, audit, patch and plotting scripts, deployment files.
