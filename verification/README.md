# Thunderbolt, verified

Thunderbolt is a C++ task runtime and a small game-world simulation that runs on it. Its
guarantees are concurrent ones: every task runs once and after its dependencies, no waiting
thread sleeps through its wakeup, no pool slot is lost, and a frame comes out the same
whatever the schedule. This project states those guarantees about a model of the runtime and
proves them. `dafny verify dfyconfig.toml` checks everything.

## How it is modelled

Concurrent code is a state machine. One step is one access to one atomic word, one section
under one lock, or one operation on a condition variable, taken by whichever thread the
schedule picks; every interleaving of any number of threads is a run. Memory is sequentially
consistent: the fences of the source are there to restore exactly that at the places where it
matters. Histories that no step looks at (who holds a slot, which dependencies are done) are
part of the states, so the theorems can speak about them.

Sequential code keeps its shape: classes with the source's fields, methods with its loops,
each tied by its contract to a function or to the state machine, and the theorems are about
those.

The layers, lowest first:

- **Work-stealing deque** (`AbpDeque`, `DequeMachine`). The owner and its thieves, access by
  access, over a bounded ring with a history of the abstract deque; and the class, whose
  uninterrupted calls are runs of that machine.
- **Task lifetime** (`RuntimeModel`, `RuntimeInvariant`, `RuntimeFrames`, `RuntimeLinks`,
  `RuntimeSteps`, `RuntimeMoves`, `RuntimeTheorems`, `RuntimeProgress`, `RuntimeFinish`,
  `RuntimeReturns`, `RuntimeSlots`; `SuccessorList` for the list inside a slot). Submission in its three forms, pool exhaustion and inline runs,
  throwing constructors, registration racing completion, slot release word by word, recycled
  generations, and completion queries, in about forty kinds of step. The invariant names, for
  every declared dependency, whether it is unscanned, attached or released, and ties the
  slot's words to that.
- **Waiting** (`WaitingModel`, `WaitingInvariant`, `WaitingSteps`, `WaitingTheorems`). The
  table of awaited indices with its overflow count, the slot-by-slot scan, the mutex and the
  condition variable, for `wait(handle)` and `wait_all()`. Of a completion query it assumes
  only what `RuntimeTheorems.CompletionAnswersAreSound` proves.
- **Parking** (`ParkingModel`, `ParkingTheorems`). The sleeping-counter handshake of the
  workers and the destructor, with the check for work that is not atomic.
- **Slot pool** (`SlotPoolModel`, `SlotPoolTheorems`, `SlotPool`). Any number of pools and
  threads; sharded lists, thread caches, refill, spill, rebinding, pools destroyed under a
  cache; and the loops in place.
- **Dispatch** (`ReadyQueues`, `DispatchModel`, `DispatchTheorems`, `DispatchOrder`). Where a
  ready handle is until a worker gets it, and which handle a worker gets, look by look: local deques, overflow, batch drain with put-back, stealing, static
  inboxes. `Basics.Inserts` and `Basics.Removes` say what a dispatcher does to the bag of ready
  work; both dispatchers, and the ready tasks of `RuntimeModel`, are shown to do just that.
- **Task graphs** (`GraphModel`, `TaskGraph`, `GraphTheorems`). Kahn's algorithm in place,
  orders against cycles, submission, and what the runtime makes of it.
- **Dynamic partitioning** (`ParallelFor`, `ClaimLoops`). The shared cursor in 64-bit
  arithmetic: when the chunks cover the range, and when the claim loops end.
- **The frame** (`FrameModel`, `StageMachine`, `FrameTheorems`, `Systems`, `World`). The
  stages' read and write footprints, the interleaved claims and writes of a tick, the double
  buffer, many ticks. The numerical kernels are parameters.
- **JSON** (`JsonText`, `JsonTheorems`, `JsonWriter`, `JsonCalls`). The benchmark writer, a parser
  for the grammar of sections 4, 5 and 7 of RFC 8259 that knows nothing of the writer, and the
  calls that write a given tree, which know nothing of either.

## What was found

- `parallel_for` computes its chunk count as `count + grain - 1` over `grain`. A grain close to
  the largest 64-bit value, meant as "one chunk", wraps that sum: no task is submitted and the
  call returns without having called the body (`ParallelFor.HugeGrainRunsNothing`).
  `ParallelFor.CoversExactlyWhenItFits` gives the exact condition for correct coverage.
- The same cursor is a plain 64-bit word that each task reads until it sees a value at or past
  the end. Close to the top of the range it can step over all such values and start again from
  the bottom, and then no task ever stops: `parallel_for` over [2^64 - 4, 2^64 - 1) with a grain
  of two does (`ClaimLoops.TopOfTheRangeNeverEnds`). `ClaimLoops.LoopsEndExactlyWhen` gives the
  exact condition, in terms of the end, the beginning and the lowest bit of the grain.
- A thread blocked in `wait_all()` can be left asleep for good when the last decrement of
  `outstanding_` is made by an inline or throwing submission, because those paths do not notify
  (`WaitingTheorems.InlinePathStrands` is such a run). `WaitingTheorems.StrandedExactlyWhen` says
  of every run whether it strands a given caller, `WaitingTheorems.StrandingStep` which step does
  it, and `WaitingTheorems.NobodyStrandedWithoutInlineRuns` that none does where nothing runs
  inline or throws.
- NPC perception says that ties go to the lower index (engine/core/Systems.cpp:81-82). The code
  keeps the first of equally near neighbours that it meets, counting up from the entity and round
  the end of the list (`FrameModel.NearestIsNearest`). And in a crowd no larger than the window
  of 24 the scan comes round to the entity itself (`FrameModel.NeighboursComeRound`).
- The declaration of `TaskGraph::add_edge` (thunderbolt/core/taskgraph/TaskGraph.hpp:42) says
  that duplicate edges collapse to one dependency. The code keeps and counts each of them on
  both sides; the model follows the code, and the result is the same order.

## Model

| member | source | states |
|---|---|---|
| PowersOfTwo.MaskIsModulo | thunderbolt/core/executor/AbpDeque.hpp:51-59 | masking with a power of two minus one is the remainder, so `i & mask` names the ring slot of logical index `i` |
| AbpDeques.AbpDeque.constructor | thunderbolt/core/executor/AbpDeque.hpp:51-59 | the capacity is a power of two, at least the request and less than twice it; the deque starts empty |
| AbpDeques.AbpDeque.Push | thunderbolt/core/executor/AbpDeque.hpp:68-84 | alone, appends exactly when fewer than capacity items are in, and takes the shared words where the step machine takes them |
| AbpDeques.AbpDeque.Pop | thunderbolt/core/executor/AbpDeque.hpp:89-119 | alone, returns and removes the newest item, or nothing exactly when empty |
| AbpDeques.AbpDeque.Steal | thunderbolt/core/executor/AbpDeque.hpp:122-145 | alone, returns and removes the oldest item, or Empty exactly when empty; never Abort |
| DequeMachine.EveryItemHandedOutOnce | thunderbolt/core/executor/AbpDeque.hpp:68-145 | in every interleaving of one owner and any thieves: pushed = handed out + live + in the owner's hands as multisets, and all operations take effect in one order as on a plain deque, last-element race included |
| DequeMachine.SuccessfulClaimHoldsTheItemAtTop | thunderbolt/core/executor/AbpDeque.hpp:122-145 | a thief whose compare-and-swap will succeed has read exactly the item at logical index `t`, however speculatively it read |
| DequeMachine.PushNeverOverwritesLive | thunderbolt/core/executor/AbpDeque.hpp:68-84 | a push that looked at a stale `top` still writes to a slot that no live index uses |
| DequeMachine.PushRefusedOnlyWhenFull | thunderbolt/core/executor/AbpDeque.hpp:68-74 | push returns false only when every ring slot was taken at the moment it looked |
| DequeMachine.StealEmptyMeansNothingLeftToTake | thunderbolt/core/executor/AbpDeque.hpp:122-132 | a thief that answers Empty was looking at a deque with nothing left for thieves |
| DequeMachine.StealAbortMeansTopMoved | thunderbolt/core/executor/AbpDeque.hpp:134-144 | a thief that answers Abort lost to somebody who took the item it wanted |
| RuntimeTheorems.EveryTaskRunsOnceAfterItsDependencies | thunderbolt/runtime/RuntimeBase.cpp:131-202 | over every run: a submission is enqueued at most once and its body starts at most once, pool path or inline, and only after the bodies of all its declared dependencies have returned |
| RuntimeTheorems.PendingCountsGuardUnscannedAndAttached | thunderbolt/runtime/RuntimeBase.cpp:152-200 | while a task has its slot, `pending_dependencies` is the guard plus the edges not yet scanned plus the edges attached to a predecessor |
| RuntimeTheorems.AttachedEdgeHasOneEntry | thunderbolt/runtime/RuntimeBase.cpp:317-347 | an attached edge has exactly one entry, in the open list of its predecessor or in the hands of the thread completing it |
| RuntimeTheorems.ListedEntryIsAttached | thunderbolt/core/task/Task.hpp:69-84 | conversely, an entry in an open list belongs to a waiting task that depends on that very predecessor and still has its slot |
| RuntimeTheorems.NoDependentIsLost | thunderbolt/runtime/RuntimeBase.cpp:302-347 | whenever something is outstanding and no submission or completion is in progress, some task is queued or executing |
| RuntimeTheorems.Descend | thunderbolt/api/ITaskRuntime.hpp:66-72 | from any unsettled task, down its unreleased dependencies, which were all submitted earlier, to one that can run |
| RuntimeTheorems.ClaimedTaskIsQueued | thunderbolt/runtime/RuntimeBase.cpp:229-285 | a worker that took a handle always finds that task, still Queued, and nobody else has it |
| RuntimeTheorems.DependentAlwaysResolves | thunderbolt/runtime/RuntimeBase.cpp:302-315 | the null branch of `release_dependent` is never taken: no dependent is recycled before it is released |
| RuntimeTheorems.OutstandingIsExact | thunderbolt/runtime/RuntimeBase.cpp:65-129 | `outstanding_` is the number of counted submissions not yet settled on any of the five paths, never negative; at zero every body has returned, save those whose construction threw |
| RuntimeTheorems.DroppedIsInPlace | thunderbolt/runtime/RuntimeBase.cpp:90-129 | only `submit_emplace` can give up a submission it has counted |
| RuntimeTheorems.ReadyIsABag | thunderbolt/runtime/RuntimeBase.hpp:108 | in every step the ready tasks gain the one that is handed to `enqueue_ready`, lose the one a worker acquires, or stay as they are: the bag both dispatchers provide |
| RuntimeTheorems.CompletionAnswersAreSound | thunderbolt/runtime/RuntimeBase.cpp:411-435 | with its three separate reads interleaved with release and reacquire, `is_complete` answers true only after the body returned, and always answers true if it could have when it was called |
| RuntimeTheorems.CompletionIsStable | thunderbolt/core/task/TaskPool.cpp:270-330 | once a handle reads complete it reads complete ever after, whatever is recycled |
| RuntimeTheorems.StepKeepsInv | thunderbolt/runtime/RuntimeBase.cpp:65-435 | every access of every operation keeps the whole invariant |
| RuntimeMoves.RegisterKeeps | thunderbolt/core/task/Task.hpp:69-84 | a registration that succeeds leaves the edge attached and its entry at the end of the list, which is open and still that predecessor's, and keeps the whole invariant |
| RuntimeSteps.ClosedMeansDone | thunderbolt/core/task/Task.hpp:88-122 | a list found closed under a generation that still matches belongs to a task whose body has returned, so a refused registration may count the dependency as satisfied |
| RuntimeProgress.NoCallIsStuck | thunderbolt/runtime/RuntimeBase.cpp:65-435 | in every reachable state every call in progress can itself make its next access |
| RuntimeReturns.CallGoesForward | thunderbolt/runtime/RuntimeBase.cpp:65-435 | submissions, completions and queries return: each access of a call is its last or leaves fewer of a bounded number, unless it waits to run inline behind its dependencies |
| RuntimeFinish.EveryRunCanFinish | thunderbolt/runtime/RuntimeBase.cpp:65-347 | every run can be carried on to one in which nothing is outstanding and every body submitted so far has returned, save those whose construction threw |
| RuntimeFinish.SettleOne | thunderbolt/runtime/RuntimeBase.cpp:131-347 | a task whose dependencies are settled can be brought to its end by the agent that has it, or by any idle one if it is ready, whatever everybody else has left undone |
| RuntimeFinish.ReadyCanBeTaken | thunderbolt/runtime/ThunderboltRuntime.cpp:380-409 | in every reachable state every ready task can be taken by every agent that is in no call |
| RuntimeProgress.FreeSlotCanBeTaken | thunderbolt/core/task/TaskPool.cpp:214-235 | a submission can take any slot that is free |
| RuntimeSlots.NoSlotIsLost | thunderbolt/core/task/TaskPool.cpp:270-319 | every slot is free, with the unsettled task whose handle still names it, or in the hands of one agent that is taking it or giving it back; when nothing is outstanding or in hand, all are free |
| SuccessorLists.Successors.TryAdd | thunderbolt/core/task/Task.hpp:69-84 | registers at the end, inline or spilled, if and only if the list is open and the generation is the expected one |
| SuccessorLists.Successors.Take | thunderbolt/core/task/Task.hpp:88-104 | closes the list and hands over everything registered, in order, inline and spilled |
| SuccessorLists.Successors.Reset | thunderbolt/core/task/Task.hpp:116-122 | a released slot's list is empty and stays closed |
| SuccessorLists.Successors.Open | thunderbolt/core/task/Task.hpp:127-133 | an acquired slot's list is empty and open |
| WaitingTheorems.NoHandleWaiterIsStranded | thunderbolt/runtime/RuntimeBase.cpp:333-408 | while a thread sleeps un-notified in `wait(handle)` on a complete handle, the thread that completed that task is inside `complete` at a point from which it must reach `notify_all`, full table and moving overflow included |
| WaitingTheorems.CompleterArrives | thunderbolt/runtime/RuntimeBase.cpp:363-408 | each access of that thread brings it nearer or is the `notify_all` that wakes the sleeper; only the mutex can hold it up |
| WaitingTheorems.MutexIsReleased | thunderbolt/runtime/RuntimeBase.cpp:511-517 | whoever holds the completion mutex releases it within a bounded number of its own accesses |
| WaitingTheorems.MutexHolderIsFree | thunderbolt/runtime/RuntimeBase.cpp:511-517 | and nothing stops it from making them |
| WaitingTheorems.WaitReturnsAfterTheBody | thunderbolt/runtime/RuntimeBase.cpp:478-519 | `wait(handle)` returns only once that task's body has returned |
| WaitingTheorems.CallReturns | thunderbolt/runtime/RuntimeBase.cpp:363-408 | `wait` on a complete handle, `wait_all` once nothing is outstanding or it has seen so, and `complete` at any time, return: each access of the caller is its last or leaves fewer of a bounded number |
| WaitingTheorems.CallGoesOn | thunderbolt/runtime/RuntimeBase.cpp:478-565 | and it can always make that access, save where it takes the mutex while another holds it |
| WaitingTheorems.OthersDoNotDelay | thunderbolt/runtime/RuntimeBase.cpp:478-565 | no access of another thread sets it back, save new work under a `wait_all` that has not seen zero |
| WaitingTheorems.CellPassedOverIsInUse | thunderbolt/runtime/RuntimeBase.cpp:456-467 | a waiter passes over a table cell, towards the overflow count, only while another waiter in place is using it |
| WaitingTheorems.NobodyWaitsNobodyWoken | thunderbolt/runtime/RuntimeBase.cpp:349-408 | with nobody waiting `complete` ends without touching the mutex or anybody else |
| WaitingTheorems.PlacesAreExclusive | thunderbolt/runtime/RuntimeBase.cpp:456-474 | waiters never share a table cell, and a waiter's cell names its own index until it leaves |
| WaitingTheorems.NothingIsLeftBehind | thunderbolt/runtime/RuntimeBase.cpp:456-519 | with no waiter in place the table is empty and all three counts are zero |
| WaitingTheorems.StrandedOnlyByInlinePath | thunderbolt/runtime/RuntimeBase.cpp:349-408 | a committed or sleeping `wait_all` caller has a notifier on its way whenever `complete` took the count to zero; only the other decrements can strand it |
| WaitingTheorems.StrandingStep | thunderbolt/runtime/RuntimeBase.cpp:204-227 | in every reachable state an access strands a caller if and only if it is the decrement of an inline or throwing submission, the count stands at one, the caller is committed to sleep, and no completion that saw zero is on its way |
| WaitingTheorems.StrandedExactlyWhen | thunderbolt/runtime/RuntimeBase.cpp:521-565 | a run ever strands a caller if and only if it contains such a decrement |
| WaitingTheorems.NobodyStrandedWithoutInlineRuns | thunderbolt/runtime/RuntimeBase.cpp:90-129 | where no submission runs inline or throws, no `wait_all` caller is ever stranded |
| WaitingTheorems.ZeroerArrives | thunderbolt/runtime/RuntimeBase.cpp:349-408 | the completion that took the count to zero goes on to notify |
| WaitingTheorems.InlinePathStrands | thunderbolt/runtime/RuntimeBase.cpp:204-227 | a run in which a submission counted while a task still holds a slot runs inline, outlives it, makes the last decrement, and leaves a `wait_all` caller asleep with nobody in the runtime to wake it |
| WaitingTheorems.WaitAllSawIdle | thunderbolt/runtime/RuntimeBase.cpp:521-565 | `wait_all` returns only after a moment within the call at which nothing was outstanding |
| WaitingTheorems.IdleMeansAllDone | thunderbolt/runtime/RuntimeBase.cpp:521-565 | at such a moment every counted submission is over and every issued task's body has returned |
| ParkingTheorems.NoWakeupIsLost | thunderbolt/runtime/ThunderboltRuntime.cpp:137-152 | no reachable state has a queued handle while all workers are parked un-notified and no thread is between publishing and `notify_one` |
| ParkingTheorems.ParkedWorkerHasNothing | thunderbolt/runtime/ThunderboltRuntime.cpp:325-370 | a parked worker's own deques are empty, although its check looks at one deque at a time |
| ParkingTheorems.WakerArrives | thunderbolt/runtime/ThunderboltRuntime.cpp:137-152 | while all workers are parked, a publisher's every access brings it nearer to `notify_one`, which then releases a worker |
| ParkingTheorems.WakerGoesOn | thunderbolt/runtime/ThunderboltRuntime.cpp:137-152 | and it can always make that access, save where it locks a sleep mutex that is held |
| ParkingTheorems.SleepMutexIsReleased | thunderbolt/runtime/ThunderboltRuntime.cpp:348-370 | whoever holds the sleep mutex, worker, publisher or destructor, releases it within a bounded number of its own steps |
| ParkingTheorems.SleepMutexHolderIsFree | thunderbolt/runtime/ThunderboltRuntime.cpp:348-370 | and nothing stops it from making them |
| ParkingTheorems.ParkReturns | thunderbolt/runtime/ThunderboltRuntime.cpp:348-370 | each access of a worker in `park_worker` leaves fewer of a bounded number, and after the last it is back at work |
| ParkingTheorems.ParkGoesOn | thunderbolt/runtime/ThunderboltRuntime.cpp:348-370 | and only the mutex, where it takes it, or not having been notified, can keep it from that access |
| ParkingTheorems.WorkCanBeTaken | thunderbolt/runtime/ThunderboltRuntime.cpp:282-323 | a worker back at work can take a handle whenever there is one |
| ParkingTheorems.ShutdownWakesEveryone | thunderbolt/runtime/ThunderboltRuntime.cpp:65-80 | after the destructor's `notify_all` no worker is asleep un-notified or on its way into sleep |
| SlotPoolTheorems.EverySlotInOnePlace | thunderbolt/core/task/TaskPool.cpp:60-162 | through any interleaving of acquire, release, refill, spill, rebind and drain by many threads over many pools, each slot of a live pool is in exactly one free list, thread cache or task, once |
| SlotPoolTheorems.NothingForeign | thunderbolt/core/task/TaskPool.cpp:65-87 | nothing but a pool's own slots is ever on its lists or in a cache for it, dead pools and late drains included |
| SlotPoolTheorems.ExhaustionBound | thunderbolt/core/task/TaskPool.cpp:89-138 | when a thread finds all lists and its own cache empty, the tasks hold at least the capacity minus two batches per other caching thread; a batch is at most a sixty-fourth of the capacity |
| SlotPoolTheorems.FailedScanMissesNoSlot | thunderbolt/core/task/TaskPool.cpp:142-161 | when the lists are looked at one after the other, amid any other operations, a scan that finds each empty implies that every slot was in a cache or with a task at some moment of the scan |
| SlotPoolModel.BatchFor | thunderbolt/core/task/TaskPool.cpp:174-178 | caching is on exactly when asked for and the pool has at least 1024 slots; the batch is at most 64 and at most a sixty-fourth of the capacity |
| SlotPools.TaskPool.constructor | thunderbolt/core/task/TaskPool.cpp:174-196 | the slots are dealt over sixteen lists as the specification function deals them |
| SlotPools.TaskPool.TakeFrom | thunderbolt/core/task/TaskPool.cpp:101-104 | moves slots from the back of a list into an empty cache until a batch is there or the list is empty |
| SlotPools.TaskPool.RefillCache | thunderbolt/core/task/TaskPool.cpp:89-107 | refills from the first non-empty list, starting at home |
| SlotPools.RefillFindsAny | thunderbolt/core/task/TaskPool.cpp:89-107 | a refill comes back empty-handed exactly when every list is empty |
| SlotPools.ScanStartsAtHome | thunderbolt/core/task/TaskPool.cpp:89-104 | the list a scan settles on is the scanning thread's own if anything is there, and otherwise the next one up, and round, that has anything |
| SlotPools.TaskPool.SpillCache | thunderbolt/core/task/TaskPool.cpp:109-122 | the older half goes to the home list in order, the younger half moves down |
| SlotPools.DrainCache | thunderbolt/core/task/TaskPool.cpp:65-81 | the cache's slots go to the live pool they belong to, and to no pool if it is dead |
| SlotPools.RebindCache | thunderbolt/core/task/TaskPool.cpp:83-87 | drains into the previous pool and leaves the new one as it was |
| SlotPools.TakeFreeSlot | thunderbolt/core/task/TaskPool.cpp:124-162 | gives the cache's newest slot, refilled if need be, or the last of the first non-empty list; fails only when every list is empty |
| SlotPools.GiveSlot | thunderbolt/core/task/TaskPool.cpp:300-318 | a released slot ends up on top of the releasing thread's cache, which never exceeds two batches, or on its home list |
| DispatchTheorems.EveryEntryInOnePlace | thunderbolt/runtime/ThunderboltRuntime.cpp:90-135 | every handle given to `enqueue_ready` is in exactly one queue, of its own priority, or in one worker's hands, through overflow, drain and put-back |
| DispatchTheorems.DispatchRefinesBag | thunderbolt/runtime/ThunderboltRuntime.cpp:154-323 | each step inserts one new entry into the bag of ready handles, removes one and hands it to a worker, or leaves the bag alone |
| DispatchOrder.OwnPopIsFirst | thunderbolt/runtime/ThunderboltRuntime.cpp:154-180 | `pop_local` takes from the worker's own deques an entry than which none there is more urgent, or less urgent on an aging turn, and the newest of its deque, although it looks at one deque at a time while thieves are at work |
| DispatchOrder.GlobalPopIsFirst | thunderbolt/runtime/ThunderboltRuntime.cpp:203-242 | from the global queue a worker takes the oldest of the most urgent, of the least urgent on an aging turn, and every extra of a drain is the oldest of the most urgent |
| DispatchOrder.InboxPopIsFirst | thunderbolt/runtime/ThunderboltRuntime.cpp:182-201 | in the static mode it takes the oldest of the most urgent in its own inbox |
| DispatchOrder.StolenIsOldest | thunderbolt/runtime/ThunderboltRuntime.cpp:244-280 | a thief takes the oldest handle in the deque it looks at |
| DispatchOrder.SpillsOnlyWhenFull | thunderbolt/runtime/ThunderboltRuntime.cpp:110-132 | no deque holds more than its capacity, and a worker spills or puts back only what its full deque would not take |
| DispatchOrder.AcquiresInOrder | thunderbolt/runtime/ThunderboltRuntime.cpp:282-323 | a worker drains, steals or gives up only with nothing in its own deques, and steals, or begins with its own deques on an aging turn, only if the global queue was empty; a static worker gives up only on an empty inbox |
| DispatchOrder.AgingTurns | thunderbolt/api/SchedulerMode.hpp:43-55 | a turn is an aging turn if and only if the mode is the aging mode and the worker's pop is an eighth one |
| DispatchOrder.PopsAreCounted | thunderbolt/runtime/ThunderboltRuntime.cpp:154-242 | a worker's pops are those from its inbox, its own deques and the global queue, not the extras of a drain and not thefts |
| DispatchOrder.CallEnds | thunderbolt/runtime/ThunderboltRuntime.cpp:90-323 | every call of `enqueue_ready` and `acquire_next` ends |
| DispatchOrder.CallGoesOn | thunderbolt/runtime/ThunderboltRuntime.cpp:90-323 | and can always take its next step; a thief looking at a deque with something in it can take that |
| DispatchOrder.WorkerCanAcquire | thunderbolt/runtime/ThunderboltRuntime.cpp:282-323 | a worker in no call can begin `acquire_next` |
| DispatchOrder.NoWorkerTwiceARound | thunderbolt/runtime/ThunderboltRuntime.cpp:90-106 | the static mode picks no worker twice within a round of as many submissions as there are workers |
| DispatchTheorems.HandedOutOnce | thunderbolt/runtime/ThunderboltRuntime.cpp:282-323 | an entry handed out stays with the one worker that got it |
| ReadyQueues.GlobalQueue.Push | thunderbolt/core/executor/GlobalQueue.hpp:28-32 | the bag grows by the handle, at the back of its priority, and the count stays the total |
| ReadyQueues.GlobalQueue.PopWithPriority | thunderbolt/core/executor/GlobalQueue.hpp:60-79 | the oldest handle of the highest non-empty priority, or of the lowest on an aging turn, with its priority; nothing only if all are empty |
| ReadyQueues.StandardDispatch.EnqueueReady | thunderbolt/runtime/StandardRuntime.cpp:60-70 | the bag grows by the handle |
| ReadyQueues.StandardDispatch.PopLocked | thunderbolt/runtime/StandardRuntime.cpp:72-86 | removes from the bag the oldest handle of the most urgent non-empty priority; nothing only if the bag is empty |
| ReadyQueues.OneAgingTurnPerInterval | thunderbolt/api/SchedulerMode.hpp:43-62 | any eight consecutive pops of the aging mode contain exactly one aging turn |
| TaskGraphs.TaskGraph.AddEdge | thunderbolt/core/taskgraph/TaskGraph.cpp:16-34 | adds one to the multiplicity of exactly that edge, on both adjacency lists; self-edges and unknown nodes change nothing |
| TaskGraphs.TaskGraph.TopologicalOrder | thunderbolt/core/taskgraph/TaskGraph.cpp:36-75 | every node once with every predecessor before its successors, or empty exactly when the graph is empty or has a cycle |
| TaskGraphs.TaskGraph.IsAcyclic | thunderbolt/core/taskgraph/TaskGraph.cpp:77 | true if and only if there is no cycle |
| GraphModel.OrderedIsAcyclic | thunderbolt/core/taskgraph/TaskGraph.cpp:36-75 | a graph with such an order has no closed walk |
| GraphModel.StuckIsCyclic | thunderbolt/core/taskgraph/TaskGraph.cpp:71-73 | nodes that each wait for one of themselves contain a cycle: the nodes Kahn's algorithm leaves over do |
| TaskGraphs.Relax | thunderbolt/core/taskgraph/TaskGraph.cpp:61-67 | a successor was still missing a predecessor when its count is taken down, duplicates counted as often as on the other side |
| TaskGraphs.TaskGraph.Submit | thunderbolt/core/taskgraph/TaskGraph.cpp:79-116 | an acyclic graph leads to exactly one submission per node, its own body behind the handles of its predecessors, all returned earlier; a cyclic one leads to none |
| TaskGraphs.TaskGraph.SubmitAndWait | thunderbolt/core/taskgraph/TaskGraph.cpp:118-127 | false exactly for a cyclic graph; otherwise every node's handle is waited for |
| GraphTheorems.GraphRunsInOrder | thunderbolt/core/taskgraph/TaskGraph.cpp:79-116 | on the runtime, amid any other work and from the moment a node's own submission begins: its body does not start twice or before its predecessors' bodies have returned, completed, recycled or inline predecessors included, and whenever nothing is outstanding it has run |
| ParallelFor.Prepare | thunderbolt/api/ITaskRuntime.hpp:166-171 | an empty range is nothing to do; a grain of zero becomes one |
| ParallelFor.TasksAreCapped | thunderbolt/api/ITaskRuntime.hpp:180-185 | one claiming task a worker, fewer only if there are fewer chunks, one if no workers are configured |
| ParallelFor.EveryElementOnce | thunderbolt/api/ITaskRuntime.hpp:163-217 | under any interleaving the claimed chunks tile the range exactly once, and the final cursor is `begin + (batch_count + task_count) * grain` |
| ParallelFor.CoversExactlyWhenItFits | thunderbolt/api/ITaskRuntime.hpp:163-217 | a call that returns has covered every element exactly once if and only if neither the rounding up nor a cursor value that is read exceeds 64 bits |
| ParallelFor.HugeGrainRunsNothing | thunderbolt/api/ITaskRuntime.hpp:177-183 | a range of ten with the largest grain submits no task |
| ParallelFor.ClaimLoopsEnd | thunderbolt/api/ITaskRuntime.hpp:197-212 | where the arithmetic does not wrap, every claim and every return of the body lowers a bounded count |
| ClaimLoops.LoopsEndExactlyWhen | thunderbolt/api/ITaskRuntime.hpp:197-212 | for every call: some bound holds the claim loops under every schedule if and only if no task is submitted or the end is at most 2^64 minus the lowest bit of the grain plus the beginning modulo that bit |
| ClaimLoops.FittingStops | thunderbolt/api/ITaskRuntime.hpp:177-212 | so they end wherever the coverage condition holds |
| ClaimLoops.SomeClaimStops | thunderbolt/api/ITaskRuntime.hpp:197-212 | under that condition some value of the cursor is at or past the end |
| ClaimLoops.NoClaimStops | thunderbolt/api/ITaskRuntime.hpp:197-212 | without it none ever is |
| ParallelFor.ClaimAlone | thunderbolt/api/ITaskRuntime.hpp:197-212 | the claim loop of a single task covers the range by itself |
| ParallelFor.SubmitAndWait | thunderbolt/api/ITaskRuntime.hpp:164-217 | the caller submits as many claiming tasks as `task_count` says and waits for each of their handles |
| FrameTheorems.FinishedStageIsFrame | engine/core/Simulation.cpp:55-107 | in every state of every tick: once the claiming tasks of a chain have returned, it has written the frame function's value for every entity, whatever the other chains are doing |
| FrameTheorems.NoEntityShared | engine/core/Systems.hpp:3-15 | in no state of any tick are two tasks of a chain at work on the same entity |
| FrameTheorems.TickEnds | engine/core/Simulation.cpp:79-91 | no schedule makes a tick longer than a number fixed by the entity counts and the worker count |
| FrameTheorems.TickGoesOn | engine/core/Simulation.cpp:79-91 | and until all its tasks have returned some task can go on |
| FrameModel.VehicleChainIsFrame | engine/core/Systems.cpp:40-47 | the vehicle chain overwrites every field, whatever the buffer held: the result is a function of the previous frame |
| FrameModel.NpcChainIsFrame | engine/core/Systems.cpp:58-167 | the same for the NPC chain, whose only reads of other entities are in the previous frame |
| FrameModel.AircraftChainIsFrame | engine/core/Systems.cpp:239-318 | the same for the aircraft chain |
| FrameTheorems.ScheduleDoesNotMatter | engine/core/Simulation.cpp:131-183 | for every worker count and every interleaving of claims and writes across the three chains, the finished tick has written exactly the frame function's value |
| FrameTheorems.ParallelTicksAreFrames | engine/core/Simulation.cpp:131-183 | n parallel ticks, each with its own worker count and schedule and into the buffer of two frames ago, are n applications of the frame function |
| FrameTheorems.FusingChangesNothing | engine/core/Systems.hpp:70-95 | the fused chains give what the same stages give with a barrier after each |
| Systems.UpdateVehiclePhysics | engine/core/Systems.cpp:169-237 | applies the physics stage to its range and nothing else, sub-step loop included |
| Systems.UpdateNpcPerception | engine/core/Systems.cpp:58-97 | applies the perception stage to its range and nothing else, window loop included |
| FrameModel.NearestIsNearest | engine/core/Systems.cpp:68-91 | that stage finds the first of the nearest neighbours in the window, or the entity itself at the far distance if none is nearer |
| FrameModel.DetailFallsWithDistance | engine/core/Systems.cpp:8-33 | the level of detail and the number of sub-steps by distance, and that neither grows with it |
| Systems.UpdateNpcChain | engine/core/Systems.hpp:82-88 | the four stages in order on one range are the chain on that range |
| Worlds.World.constructor | engine/core/World.cpp:52-109 | both buffers start as the seeded state, in which each entity is a function of the seed and its index |
| Worlds.SeededInBounds | engine/core/World.cpp:52-109 | wherever the draws fall in their ranges, every seeded entity is inside the world and every field in its bounds |
| Worlds.World.TickSerial | engine/core/Simulation.cpp:185-211 | the serial tick leaves the frame function's value in the current buffer, the previous frame in the other, and the tick counter one higher |
| Worlds.World.Simulate | engine/core/Simulation.cpp:185-211 | n serial ticks are n applications of the frame function to the state they started from |
| JsonTheorems.RoundTrip | thunderbolt/benchmarks/harness/Json.hpp:24-173 | the text of any tree of objects, arrays, strings, integers and literals parses to that tree |
| JsonTheorems.ValueRoundTrip | thunderbolt/benchmarks/harness/Json.hpp:24-173 | so does the text of any value in place, read up to where it ends |
| JsonTheorems.CharsRoundTrip | thunderbolt/benchmarks/harness/Json.hpp:128-149 | escaping is undone by the grammar of section 7, for every character |
| JsonTheorems.ObjectSpelled | thunderbolt/benchmarks/harness/Json.hpp:24-110 | the text of an object, character by character |
| JsonTheorems.ArraySpelled | thunderbolt/benchmarks/harness/Json.hpp:50-126 | the text of an array, character by character |
| JsonTheorems.QuoteSpelled | thunderbolt/benchmarks/harness/Json.hpp:128-149 | how a quotation mark, a backslash and a line feed are written |
| JsonWriters.JsonWriter.EndObject | thunderbolt/benchmarks/harness/Json.hpp:40-47 | closing a container completes the text of its value at its place in the tree |
| JsonWriters.JsonWriter.FieldString | thunderbolt/benchmarks/harness/Json.hpp:63-66 | a keyed string is one more member of the open object |
| JsonWriters.LeadMeans | thunderbolt/benchmarks/harness/Json.hpp:151-160 | what `separate` writes before an entry is a comma unless it is the first of its container, and a new line at its depth |
| JsonWriters.WriteAll | thunderbolt/benchmarks/harness/Json.hpp:24-173 | any well-nested sequence of calls rooted at one object writes a text that parses to the tree it describes |
| JsonCalls.CallsDescribeTheTree | thunderbolt/benchmarks/harness/Json.hpp:24-126 | for every object the writer can write, the calls for it, read off the tree alone, are well nested and describe that very tree |
| JsonCalls.TreeDeterminesTheCalls | thunderbolt/benchmarks/harness/Json.hpp:24-126 | and every complete sequence of calls is the one read off the tree it describes |

## Left out

- Weak memory: accesses are sequentially consistent; that the fences and orderings of the source give that is assumed, not shown.
- Wrap-around of the 32-bit generation, of deque indices, and of the counters of pops and of static submissions: all are unbounded here.
- Compositions across layers: the deque, the pool, dispatch and waiting are proved separately; RuntimeModel takes a free slot and a ready handle in one step each, as SlotPoolTheorems and DispatchTheorems justify, and DispatchModel's deques are the atomic sequences of DequeMachine.
- SlotPoolTheorems.ExhaustionBound: bounds the slots held at one moment, so it takes the acquisition as atomic; a scan that visits the lists one after the other can miss slots released behind it, and FailedScanMissesNoSlot says what it does establish.
- RuntimeTheorems.EveryTaskRunsOnceAfterItsDependencies: says that the bodies of the dependencies have returned, not that their handles already read complete, which a late registration can beat.
- Static mode in the parking property: an inbox is drained only by its owner, while `notify_one` may wake another worker.
- Fairness: there is no bound on how long low-priority work waits under continuing arrivals, and no scheduler fairness is assumed; progress is stated as steps that can be taken and counts that go down.
- Help-on-wait: a worker that waits runs other tasks; a deadlock between such nested waits is not excluded, because arbitrary bodies can build one.
- `parallel_for` bodies that throw: a throwing body ends its task's claim loop.
- Numerical kernels (physics, random numbers, the state hash): parameters of the model, over exact reals; only what they read and write is modelled. Entities are records here where the source keeps one array per field.
- Systems.UpdateNpcDecision: looks a neighbour up only if its index is in range, which after perception it is; the source does not check.
- The debug assertions on self-edges, unknown nodes and cyclic graphs: the release behaviour is modelled.
- `live_count`, statistics counters, task priorities and flags as data, `TaskFunction` storage, exception printing.
- JSON doubles, and in the parser the fractions and exponents of section 6 and surrogate pairs: text is a sequence of Unicode characters, whose UTF-8 bytes the writer passes through.
- Thread creation, affinity, CPU topology, clocks, profiling, benchmark statistics, command-line drivers, the Taskflow variants and the build files.
