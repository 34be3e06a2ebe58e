# boost-task in Dafny

A verified model of the concurrent core of boost-task: the spin mutex and condition variable
with the barrier on top, the fast semaphore, the work-stealing deque, the watermarked priority
queue, the two-lock bounded channel, futures with promises and packaged tasks, and the thread
pool that puts the semaphore, the queue and the deques together.

Check everything with `dafny verify dfyconfig.toml`.

## How it is built

Every concurrent component comes in two forms.

* A **step machine** (`Condition`, `Barrier`, `FastSemaphore`, `DequeRace`, `PrioQueue`, `Pool`,
  `BoundedChannel`, `Future`). A state holds the fields of the C++ object, where each of any
  number of threads stands, and a history that the program itself does not keep (commands
  published and whom they released, values accepted and taken, tokens posted). A step is one
  access to an atomic, one lock operation, or, where one mutex guards everything, one critical
  section. Atomics are sequentially consistent, which is what their default ordering gives.
  An inductive invariant is proved for every step of every thread, and the results are
  statements about all finite runs and every state in them.
* An **object** (`ConditionObject`, `BarrierObject`, `SemaphoreObject`, `QueueObject`,
  `ChannelObject`, `FutureObject`, `PoolObject`, `SpinMutex`): a class with the fields of the
  C++ class, whose methods make the next access of a thread and update the fields in place. Each
  method is proved against the step relation: it makes a step of the machine, unless the thread
  needs a mutex that is taken or has another exactly stated reason to wait, and then nothing
  changes. `Execute` lets any schedule drive the object and returns what it went through: one
  state a turn, each the step of the thread whose turn it was, or the same state if that thread
  had to wait. Without the turns at which nothing changed that is a run of the step machine, so
  all the results about runs hold of the object. The bounded channel's nodes are linked objects.

The work-stealing deque is the class `WorkStealingDeque.Wsq` over a growable array when its
operations are taken one at a time, and the machine `DequeRace` when they interleave.

`PoolShutdown` follows a shutdown of the pool to its end: the workers can always leave, and it is
known exactly what they leave behind. `PoolExits` says how long each of them can take in any run,
whatever the other threads do.

The `...Calls` modules (`ConditionCalls`, `ChannelCalls`, `FutureCalls`, `PoolCalls`,
`SemaphoreCalls`, `DequeCalls`) follow a call from its first access to its return, interleaved with
anything: what it was given is what it has done, exactly once, and what it returns tells what it
has done. Their results count the steps of the run that did it, so they hold of every way a call
can go.

`WaitNotify` closes the gap between the layers: the spin condition variable, access by access,
refines the textbook condition variable, whose wait and notify the barrier, the channel and the
future are modelled with.

`Counting`, `Runs`, `Locks`, `Masks` and `Options` hold what the components share: counting and
summing over threads, induction over runs, mutual exclusion, index masks.

## What the code does not do

Three promises turn out not to hold as they stand. Each has a concrete run and the exact
condition under which the promise is kept.

* A `put` into a full `wsq` can slip through the fast path while a thief has tentatively
  advanced `head_idx_`, and loses the oldest item (`DequeRace.FullArrayLosesItem`). It takes that
  path exactly then (`FullFastPathIff`). What follows the write of a fast-path put loses nothing,
  as long as no other put does the same, if and only if the array was not full
  (`FastPutKeepsIff`): after a write into a full array the owner's own next `try_take` shows the
  loss (`FullWriteLoses`). So a call of `put` can lose an item, then or later, if and only if the
  array is full when it is called and there is a thief (`PutLosesIff`). Whoever calls `put` only
  while `tail < head_idx_ + mask_`, which is the test of line 38 made strict, is safe whatever the
  thieves do meanwhile (`StrictTestSafe`).
* `shutdown` is documented to join the workers when all pending tasks are processed
  (`doc/shutdown.qbk:14`). The exit test of a worker looks at the global queue only, so a task that
  was put back into a worker's own deque can stay there (`ShutdownRun.ShutdownLeavesTask`). When
  shutdown has returned, an accepted task is not complete if and only if some worker passed its
  exit test while its own deque held a task and no thief emptied that deque afterwards
  (`PoolShutdown.ShutdownLeavesIff`). Looking ahead: once the shutdown is announced and the global
  queue is drained, it can still return with a task left behind if and only if not every accepted
  task is complete by then (`PoolShutdown.ShutdownMayLeaveIff`). The global queue itself is always
  drained, and nothing is left if no task needed a second run (`Pool.RestInDeques`).
* A ready future has exactly one of a value and an exception unless `set_exception` was given an
  empty exception pointer, and in that case it has neither (`Future.ValueOrException`,
  `Future.EmptyExceptionRun`).

The fast semaphore lets a wait pass when it finds the counter at 0 and starts the kernel
semaphore at the initial count as well, so completed waits can outnumber initial count plus posts
(`FastSemaphore.WaitPassesUnpaid`). `FastSemaphore.AdmissionExact` says by how much,
`UnpaidExactly` that a wait which finds the counter at 0 is the only access that gives anything
away, and `BoundBreaks` that the bound is never safe: from every reachable state of an active
semaphore a single thread that waits and posts can break it.

## Model

| member | source | states |
|---|---|---|
| Condition.ExactlyOneBaton | include/boost/task/spin/condition.hpp:113-255 | in every reachable state, for any number of threads, `enter_mtx_` is locked iff exactly one of: a thread in its entry section, a notifier inside `notify_`, a consumer with its unlock pending, a timed-out thread that won `try_lock`, or a command in flight |
| Condition.PublishSucceeds | src/spin/condition.cpp:26-34 | a notifier about to compare-exchange `cmd_` always finds SLEEPING, so its loop never repeats |
| Condition.ExactRelease | include/boost/task/spin/condition.hpp:135-161 | over whole runs each NOTIFY_ONE releases exactly one of the threads waiting when it was published and each NOTIFY_ALL exactly all of them; every wait begun is waiting, released once or timed out; every release leads to one return |
| Condition.WaitersExact | include/boost/task/spin/condition.hpp:115-161 | `waiters_` is the number of registered threads, and no `fetch_sub` finds it at 0 |
| Condition.NotificationCovers | src/spin/condition.cpp:18-34 | a notification that ends while somebody sleeps was published, and its record covers every sleeper |
| Condition.NotificationNotLost | include/boost/task/spin/condition.hpp:112-120 | atomic unlock-and-wait: a notification that ends after a thread gave up the caller's mutex finds it released, timed out, or among those it was published for |
| Condition.TimeoutSwallowsNothing | include/boost/task/spin/condition.hpp:206-220 | a thread leaving after a time-out finds no command in flight, no notifier at work and every earlier command complete |
| Condition.NotifyAllDrains | include/boost/task/spin/condition.hpp:148-157 | during NOTIFY_ALL nobody starts to wait, the waiters only get fewer, and none is left when `cmd_` returns to SLEEPING |
| Condition.HandOffMoves | include/boost/task/spin/condition.hpp:122-163 | whenever `enter_mtx_` is locked some thread has a step that does not need the caller's mutex and decreases a measure |
| Condition.HandOff | include/boost/task/spin/condition.hpp:122-163 | from every invariant state the threads inside unlock `enter_mtx_` by themselves within a bounded number of steps |
| Condition.HandOffFromRun | include/boost/task/spin/condition.hpp:122-163 | the same from every reachable state, within 14 steps a thread |
| WaitNotify.Refines | include/boost/task/spin/condition.hpp:112-255 | every access of wait, timed_wait and notify_ is one step, or none, of the textbook condition variable: give up the mutex and sleep at once, owe one wake-up, wake all sleepers, time out only while no wake-up is owed |
| WaitNotify.RefinesRun | src/spin/condition.cpp:15-50 | every run of the spin condition variable is a run of the textbook one |
| WaitNotify.DroppedForNobody | src/spin/condition.cpp:20-24 | a notification is dropped only when nobody sleeps |
| Condition.NextInv | include/boost/task/spin/condition.hpp:112-255 | every access of every thread in wait, timed_wait and notify_ keeps the invariant |
| ConditionCalls.WaitExact | include/boost/task/spin/condition.hpp:112-255 | a call of wait or timed_wait that has returned gave up the caller's mutex once and owns it again; it was released by a command exactly once, which is when it returns true, or timed out exactly once; an untimed wait was released |
| ConditionCalls.NotifyExact | src/spin/condition.cpp:15-50 | a call of notify_one or notify_all that has returned published just its own command, to all who waited then, or found nobody waiting and published nothing |
| ConditionCalls.NotifyReleases | src/spin/condition.cpp:44-50 | once `cmd_` is SLEEPING again, the command a notify_all has published released exactly those who waited then, and that of a notify_one exactly one of them |
| SpinMutex.Mutex.TryLock | src/spin/mutex.cpp:66-71 | succeeds exactly when the mutex was unlocked; locked afterwards either way |
| SpinMutex.Mutex.Unlock | src/spin/mutex.cpp:73-75 | unlocked afterwards, whoever had locked it |
| Locks.GuardsMove | include/boost/task/spin/bounded_channel.hpp:182-199 | for the scoped locks of the channel and the barrier: a thread that enters a critical section only when the lock is free, and frees it on leaving, keeps owner and critical section in one-to-one correspondence |
| ConditionObject.Cond.CompareExchange | include/boost/task/spin/condition.hpp:138-139 | what `compare_exchange_strong` sees and stores |
| ConditionObject.Cond.Await | include/boost/task/spin/condition.hpp:115-133 | the accesses of entering and spinning in wait and timed_wait, against the step relation; a thread that needs a taken mutex stays |
| ConditionObject.Cond.TakeCommand | include/boost/task/spin/condition.hpp:135-158 | the accesses under `check_mtx_`, against the step relation |
| ConditionObject.Cond.Depart | include/boost/task/spin/condition.hpp:215-254 | the accesses of leaving wait and timed_wait, against the step relation |
| ConditionObject.Cond.NotifyWaiters | src/spin/condition.cpp:15-35 | the accesses of `notify_`, which ends with `enter_mtx_` still locked, against the step relation |
| ConditionObject.Threads.Advance | include/boost/task/spin/condition.hpp:112-255 | a thread makes a step of the machine, the call or the time-out that its turn says, unless a mutex it needs is taken or its call is not possible |
| ConditionObject.Threads.Execute | include/boost/task/spin/condition.hpp:112-255 | under any schedule the object goes through one state a turn, each the step of the thread whose turn it is or, exactly when that thread has to wait, no change; collapsed, this is a run of the step machine |
| Barrier.NobodyLeavesEarly | src/spin/barrier.cpp:23-41 | with exactly `initial` participants nobody leaves round k before all have arrived in it |
| Barrier.RoundsTogether | src/spin/barrier.cpp:23-41 | completed rounds of any two threads differ by at most one |
| Barrier.OneLeaderPerRound | src/spin/barrier.cpp:28-34 | in every round exactly one thread, the one that flipped `cycle_`, gets true; the one-bit `cycle_` never confuses two rounds |
| Barrier.NobodyStranded | src/spin/barrier.cpp:32-38 | after the notification only threads of the round under way sleep, and never all of them |
| Barrier.AllArrived | src/spin/barrier.cpp:28-31 | when `current_` reaches 0 every thread has arrived in the current round |
| BarrierObject.Cyclic.Create | src/spin/barrier.cpp:15-21 | a barrier for nobody is refused; otherwise it starts in the initial state |
| BarrierObject.Cyclic.Enter | src/spin/barrier.cpp:26-31 | the accesses from the call to the flip, against the step relation |
| BarrierObject.Cyclic.Stay | src/spin/barrier.cpp:37-40 | the accesses of the wait loop and the return, against the step relation |
| BarrierObject.Cyclic.NotifyAll | src/spin/barrier.cpp:32-33 | every sleeper wakes, nobody else moves, the notifier returns true |
| BarrierObject.Cyclic.Step | src/spin/barrier.cpp:23-41 | thread t makes a step of the machine, except that it waits exactly when it has to lock `mtx_` while somebody owns it |
| BarrierObject.Cyclic.Execute | src/spin/barrier.cpp:23-41 | under any schedule the object goes through one state a turn, each the step of the thread whose turn it is or, exactly when that thread has to wait, no change; collapsed, this is a run of the step machine |
| FastSemaphore.SemaphoreAccounts | src/fast_semaphore.cpp:28-66 | `sem_count_` is initial plus posts minus decrements; threads committed to the kernel semaphore never exceed tokens available or promised plus the deficit |
| FastSemaphore.NoLostWakeup | src/fast_semaphore.cpp:28-52 | threads stay blocked without a token in sight only if more waits have begun than tokens were ever given, by at least their number |
| FastSemaphore.TryWaitExact | src/fast_semaphore.cpp:54-66 | a whole call of try_wait, interleaved with anything, takes from the counter exactly once, a positive count, if it answers true and never otherwise; it answers false only if during the call the semaphore was inactive or its count not positive |
| FastSemaphore.DeactivateFreesAll | src/fast_semaphore.cpp:68-72 | once a deactivate has done its `fetch_add`, kernel tokens cover all blocked threads whatever raced with it, and while one is blocked somebody can move |
| FastSemaphore.InactiveNeverBlocks | src/fast_semaphore.cpp:47-51 | after the store of deactivate no thread commits to the kernel semaphore, ever |
| FastSemaphore.AdmissionExact | src/fast_semaphore.cpp:15-52 | exactly how many waits get through for given posts and initial count |
| FastSemaphore.BoundBreaks | src/fast_semaphore.cpp:28-52 | from every reachable state in which the semaphore is active and a thread is outside it, that thread alone, by waiting and posting, reaches a state with more completed waits than initial count plus posts |
| FastSemaphore.UnpaidExactly | src/fast_semaphore.cpp:47-47 | a wait that finds the counter at 0 at its `fetch_sub` passes unpaid, and no other access of anybody gives anything away or takes it back |
| FastSemaphore.WaitPassesUnpaid | src/fast_semaphore.cpp:47-47 | a run in which a wait on a fresh semaphore of count 0 passes at once |
| SemaphoreCalls.WaitExact | src/fast_semaphore.cpp:40-52 | a call of wait that has returned took exactly one from the counter; it got through at an attempt that found a positive count or, after as many attempts as it was to make, because the count was not negative, with a kernel token, or because the semaphore was inactive |
| SemaphoreCalls.PostExact | src/fast_semaphore.cpp:28-38 | a call of post that has returned added its count to the counter exactly once, and delivered a kernel token for each wait it made up for |
| SemaphoreCalls.DeactivateExact | src/fast_semaphore.cpp:68-72 | when a call of deactivate has returned the semaphore is inactive and kernel tokens cover all blocked threads |
| SemaphoreObject.KernelSemaphore.Post | src/fast_semaphore.cpp:36-37 | the kernel counter grows by the count |
| SemaphoreObject.KernelSemaphore.TryWait | src/fast_semaphore.cpp:51-51 | takes a token exactly when there is one |
| SemaphoreObject.Semaphore.Create | src/fast_semaphore.cpp:15-23 | a negative count is refused; otherwise counter and kernel semaphore start at it |
| SemaphoreObject.Semaphore.TryWait | src/fast_semaphore.cpp:54-66 | the accesses of try_wait, against the step relation |
| SemaphoreObject.Semaphore.Wait | src/fast_semaphore.cpp:40-52 | the accesses of wait, against the step relation; without a kernel token the thread stays |
| SemaphoreObject.Semaphore.Post | src/fast_semaphore.cpp:28-38 | the accesses of post and of deactivate, which ends in one, against the step relation |
| SemaphoreObject.Semaphore.Step | src/fast_semaphore.cpp:28-72 | a thread makes a step of the machine, or starts the call it is given, unless it is blocked without a token or has nothing to start |
| SemaphoreObject.Semaphore.Execute | src/fast_semaphore.cpp:28-72 | under any schedule the object goes through one state a turn, each the step of the thread whose turn it is or, exactly when that thread has to wait, no change; collapsed, this is a run of the step machine |
| Masks.AndMask | src/detail/wsq.cpp:40-40 | bitwise and with a mask one below a power of two is the remainder by that power |
| Masks.SlotsDistinct | src/detail/wsq.cpp:53-54 | indices less than the capacity apart never share a slot |
| WorkStealingDeque.ViewAppend | src/detail/wsq.cpp:40-41 | writing behind the newest item appends to the contents |
| WorkStealingDeque.ViewTake | src/detail/wsq.cpp:73-79 | what the owner finds in the newest slot is the newest item, the rest is untouched |
| WorkStealingDeque.ViewSteal | src/detail/wsq.cpp:103-109 | what a thief finds in the oldest slot is the oldest item, the rest is untouched |
| WorkStealingDeque.ViewGrown | src/detail/wsq.cpp:51-59 | copied to the front of twice the room the items keep their order |
| WorkStealingDeque.InitialSizeIsPow2 | src/detail/wsq.cpp:16-19 | the initial size is a power of two, so the first mask is one below it |
| WorkStealingDeque.Wsq.constructor | src/detail/wsq.cpp:15-24 | empty, with the initial capacity |
| WorkStealingDeque.Wsq.Size | src/detail/wsq.cpp:30-32 | the number of queued items, at most the capacity |
| WorkStealingDeque.Wsq.Empty | src/detail/wsq.cpp:26-28 | true exactly when nothing is queued |
| WorkStealingDeque.Wsq.Put | src/detail/wsq.cpp:34-65 | appends, doubles the capacity exactly when the array is full, and posts once |
| WorkStealingDeque.Wsq.Append | src/detail/wsq.cpp:61-62 | the item becomes the newest; nothing else changes |
| WorkStealingDeque.Wsq.Grow | src/detail/wsq.cpp:51-59 | twice the room, the same items in the same order, capacity still a power of two |
| WorkStealingDeque.Wsq.TryTake | src/detail/wsq.cpp:67-95 | removes and returns the newest item, or fails exactly when there is none |
| WorkStealingDeque.Wsq.TrySteal | src/detail/wsq.cpp:97-118 | removes and returns the oldest item, or fails exactly when there is none |
| WorkStealingDeque.Wsq.Exchange | src/detail/wsq.cpp:78-78 | swaps one slot with the caller's item |
| DequeRace.NothingLostNothingTwice | src/detail/wsq.cpp:35-118 | however owner and thieves interleave, without a fast-path write into a full array every item put is in the deque or was handed out exactly once, and the items never exceed the slots |
| DequeRace.EndsOfTheDeque | src/detail/wsq.cpp:67-118 | the owner gets the newest and a thief the oldest item, and both at once only if there are two |
| DequeRace.FastPutKeepsIff | src/detail/wsq.cpp:38-42 | after a fast-path write nothing is ever lost, in any continuation without another write into a full array, iff the array was not full at the write |
| DequeRace.FullWriteLoses | src/detail/wsq.cpp:38-42 | from every state with a write into a full array under way, the owner's own next steps lose an item |
| DequeRace.PutLosesIff | src/detail/wsq.cpp:35-42 | a call of put can lose an item, in some interleaving with thieves up to its fast-path write and some continuation without another such write, iff the array is full when put is called and there is a thief |
| DequeRace.StrictTestSafe | src/detail/wsq.cpp:38-38 | a put that is called while `tail < head_idx_ + mask_` finds room at its write whatever the thieves do in between |
| DequeRace.FullFastPathIff | src/detail/wsq.cpp:38-38 | the test sends a put into a full array down the fast path exactly when a thief has tentatively advanced `head_idx_` |
| DequeRace.RoomLeads | src/detail/wsq.cpp:38-41 | a put called with room finds room at its write, however thieves interleave |
| DequeRace.RoomStays | src/detail/wsq.cpp:38-41 | room before a put has written is still there after every step up to its write |
| DequeRace.FullArrayLosesItem | src/detail/wsq.cpp:37-42 | a run that fills the array and then loses an item to the fast path |
| DequeRace.SafeInv | src/detail/wsq.cpp:35-118 | every other access of owner and thieves keeps the invariant |
| DequeCalls.PutExact | src/detail/wsq.cpp:34-65 | a call of put that has returned put the item it was given behind the newest one, once |
| DequeCalls.TakeExact | src/detail/wsq.cpp:67-95 | a call of try_take past its first test took the newest item or found the deque empty, exactly one of the two and once |
| DequeCalls.TakeTestExact | src/detail/wsq.cpp:70-72 | a try_take that fails at its first test found the deque empty |
| DequeCalls.StealExact | src/detail/wsq.cpp:97-118 | a call of try_steal that has got `mtx_` took the oldest item, or found none but one that the owner was about to take, exactly one of the two and once |
| PrioQueue.NoStrandedProducer | include/boost/task/bounded_prio_queue.hpp:113-171 | while a producer sleeps un-notified the queue is active and, with lwm < hwm, above the low watermark, or, with lwm = hwm, size plus notified producers is at least hwm |
| PrioQueue.QueueConserves | include/boost/task/bounded_prio_queue.hpp:113-168 | every accepted item is in the queue or was taken, once, and the size never exceeds hwm |
| PrioQueue.InactiveForever | include/boost/task/bounded_prio_queue.hpp:125-126 | along every run a deactivated queue stays inactive, accepts nothing and gains nothing |
| PrioQueue.TakesDescend | include/boost/task/bounded_prio_queue.hpp:153-157 | along every run, takes without a put accepted between them come out by priority, and each is at least as high as what is left |
| PrioQueue.TopExists | include/boost/task/bounded_prio_queue.hpp:155-157 | a non-empty queue has a top |
| PrioQueue.NextInv | include/boost/task/bounded_prio_queue.hpp:113-213 | every critical section keeps bounds, watermark rule and conservation |
| PrioQueue.PutExact | include/boost/task/bounded_prio_queue.hpp:113-145 | each section of put pushes and records the very item it was given exactly on an active queue with room; it is refused exactly on an inactive queue or when its time is over; otherwise it sleeps |
| PrioQueue.TakeExact | include/boost/task/bounded_prio_queue.hpp:153-168 | try_take removes the item it hands out, one of the highest, and at or below the low watermark wakes one producer or all |
| PrioQueue.CloseExact | include/boost/task/bounded_prio_queue.hpp:208-213 | deactivate makes the queue inactive, notifies every sleeper and leaves the items |
| QueueObject.BoundedPrioQueue.Create | include/boost/task/bounded_prio_queue.hpp:174-203 | crossed watermarks are refused; otherwise it starts in the initial state |
| QueueObject.BoundedPrioQueue.PutRest | include/boost/task/bounded_prio_queue.hpp:117-128 | what put_ does once the producer is awake: sleep, refuse or push |
| QueueObject.BoundedPrioQueue.Put | include/boost/task/bounded_prio_queue.hpp:233-237 | put up to its first sleep, against the step relation |
| QueueObject.BoundedPrioQueue.Resume | include/boost/task/bounded_prio_queue.hpp:119-128 | a producer that wakes up, notified or not, in time or not, against the step relation |
| QueueObject.BoundedPrioQueue.NotifyProducers | include/boost/task/bounded_prio_queue.hpp:158-166 | one sleeper or all of them become notified |
| QueueObject.BoundedPrioQueue.TryTake | include/boost/task/bounded_prio_queue.hpp:153-168 | nothing from an empty queue, else an item of highest priority, with the watermark wake-ups |
| QueueObject.BoundedPrioQueue.Deactivate | include/boost/task/bounded_prio_queue.hpp:208-213 | inactive, with every sleeper notified |
| QueueObject.BoundedPrioQueue.Serve | include/boost/task/bounded_prio_queue.hpp:113-251 | each call makes its critical section; nothing happens exactly when there is nobody to wake up or nothing to take |
| QueueObject.BoundedPrioQueue.Execute | include/boost/task/bounded_prio_queue.hpp:113-251 | under any sequence of calls the object goes through one state a call, each the critical section of that call; collapsed, this is a run of the step machine |
| Pool.NoSleepingPool | include/boost/task/detail/worker.hpp:36-45 | with a non-empty global queue and nobody inside a post, all running workers are blocked on the semaphore only if a kernel token is there |
| Pool.ActivePoolRuns | include/boost/task/detail/worker.hpp:163-170 | no worker leaves its loop while the queue is active |
| Pool.ShutdownDrains | include/boost/task/detail/pool_base.hpp:136-145 | once a worker has left its loop, and not by shutdown_now, every item the global queue accepted was taken, each by one worker, and the queue is empty and inactive |
| Pool.ShutdownJoins | include/boost/task/detail/pool_base.hpp:143-144 | when shutdown returns all workers have left their loops |
| Pool.ExitForever | include/boost/task/detail/worker.hpp:36-36 | a worker that has left its loop never comes back |
| Pool.EmptyForever | include/boost/task/detail/worker.hpp:163-170 | the drained queue stays empty |
| Pool.ShutdownNeverStuck | include/boost/task/detail/pool_base.hpp:140-144 | after either flag is set, while a worker has not left, some worker is not blocked or a token is there or about to be posted |
| PoolShutdown.SomeCloser | include/boost/task/detail/worker.hpp:36-45 | while a worker has not left, some worker or poster has a step that decreases a measure |
| PoolShutdown.ShutdownEnds | include/boost/task/detail/pool_base.hpp:140-144 | from every reachable state with a flag set the workers, with the threads inside a post, can all leave: some chain of a bounded number of their own steps, in which every task is complete after its run, takes them there |
| PoolExits.StepsBounded | include/boost/task/detail/worker.hpp:163-179 | as soon as `shtdwn_` is set and the global queue drained, or `shtdwn_now_` is set, every worker makes at most 4k + 12 steps of its own in every run, k being the spin count, whatever anybody else does |
| PoolExits.StepsPerTask | include/boost/task/detail/worker.hpp:36-52 | from the moment a flag is set, in every run, the number of a worker's own steps is bounded by the spin count and the number of tasks it has run while the global queue was not empty |
| PoolExits.NoStepLeft | include/boost/task/detail/pool_base.hpp:140-144 | once a flag is set, a reachable state in which no worker and nobody inside the semaphore has a step has all workers out of their loops |
| PoolShutdown.DistanceBound | include/boost/task/detail/worker.hpp:36-45 | that bound: one lap of the loop for every task and the way out of the semaphore for every thread |
| Pool.EveryTaskAccounted | include/boost/task/detail/worker.hpp:38-51 | every accepted task is in the global queue, complete, in a worker's hands or in a deque |
| Pool.RestInDeques | include/boost/task/detail/worker.hpp:163-170 | when shutdown has returned, what is not complete lies in the deques, and nothing does if no task was ever put back |
| PoolShutdown.ExitBranch | include/boost/task/detail/worker.hpp:163-170 | a worker leaves only at `shutdown__()` with an empty global queue, or at `shutdown_now__`, and its own deque stays as it is |
| PoolShutdown.DequeNeverGrows | include/boost/task/detail/worker.hpp:36-52 | a deque never grows after its worker has left |
| PoolShutdown.ShutdownLeavesIff | include/boost/task/detail/worker.hpp:163-170 | when shutdown has returned, an accepted task is not complete iff some worker made its exit step with a task in its own deque and no thief emptied that deque afterwards |
| PoolShutdown.WorkerMayLeave | include/boost/task/detail/worker.hpp:47-51 | from every reachable state with the flag set, the queue drained and a worker at work, shutdown can return with that worker's task in its deque |
| PoolShutdown.ShutdownMayLeaveIff | include/boost/task/detail/worker.hpp:163-170 | from every reachable state with the flag set and the queue drained, shutdown can return with a task left behind iff not every accepted task is complete yet |
| Pool.NextInv | include/boost/task/detail/worker.hpp:34-53 | every step of workers, submitters and closers keeps the invariant |
| PoolCalls.ShutdownFlags | include/boost/task/detail/pool_base.hpp:136-145 | a call of shutdown raises `shtdwn_` and never `shtdwn_now_`, shutdown_now the other way round, before it joins the workers; no second call begins |
| PoolCalls.FlagsFromCalls | include/boost/task/detail/pool_base.hpp:136-145 | a flag is up only if the call that raises it has been made |
| PoolCalls.ShutdownCall | include/boost/task/detail/pool_base.hpp:136-145 | when a call of shutdown has returned on a pool with a worker, all workers have left, the global queue is empty and inactive, every task it ever accepted was taken, and what is not complete lies in the workers' own deques |
| PoolCalls.SubmitExact | include/boost/task/bounded_prio_queue.hpp:113-129 | a call of submit that has returned put the very task into the queue once and posted one token for it; or the queue accepted nothing, and is inactive |
| PoolCalls.ClosedRefuses | include/boost/task/detail/pool_base.hpp:136-138 | on a closed pool no call of submit or of a shutdown begins |
| PoolCalls.RunsCounted | include/boost/task/detail/worker.hpp:47-51 | the ledger counts the runs after which a task was complete, and those after which it was put back, once each |
| PoolCalls.SleepsExact | include/boost/task/detail/worker.hpp:36-45 | a worker goes to sleep only if, on its lap from the exit tests, it found its own deque empty and, after that, the global queue |
| ShutdownRun.ShutdownLeavesTask | include/boost/task/detail/worker.hpp:163-170 | a run in which shutdown returns with an accepted task left in a deque |
| PoolObject.ThreadPool.Look | include/boost/task/detail/worker.hpp:163-179 | the exit tests, against the step relation |
| PoolObject.ThreadPool.TakeOwn | include/boost/task/detail/worker.hpp:146-147 | a task comes out of the worker's own deque exactly when there is one |
| PoolObject.ThreadPool.TakeGlobal | include/boost/task/detail/worker.hpp:143-144 | taking from the global queue, against the step relation, recording the taker |
| PoolObject.ThreadPool.StealWork | include/boost/task/detail/worker.hpp:149-161 | one task moves out of another worker's deque, or the worker goes to wait on the semaphore |
| PoolObject.ThreadPool.RunTask | include/boost/task/detail/worker.hpp:47-51 | a complete task is counted, any other goes into the worker's own deque and is posted for |
| PoolObject.ThreadPool.Leave | include/boost/task/bounded_prio_queue.hpp:125-128 | how a submitter leaves put_: the post for an accepted item begins while `mtx_` is owned |
| PoolObject.ThreadPool.Offer | include/boost/task/detail/pool_base.hpp:204-204 | queue_.put up to its first sleep, against the step relation |
| PoolObject.ThreadPool.WakeUp | include/boost/task/bounded_prio_queue.hpp:119-128 | a sleeping submitter resumes, against the step relation |
| PoolObject.ThreadPool.Enter | include/boost/task/detail/pool_base.hpp:136-138 | submit or the shutdown that is called begins, on a pool that is not closed |
| PoolObject.ThreadPool.CloseBoth | include/boost/task/detail/pool_base.hpp:140-141 | the queue is deactivated and the deactivate of the semaphore begins |
| PoolObject.ThreadPool.Finish | include/boost/task/detail/pool_base.hpp:143-144 | the flag of the shutdown that was called is raised; the join ends when all workers have left |
| PoolObject.ThreadPool.Move | include/boost/task/detail/worker.hpp:34-53 | a thread makes a step of the machine as its turn says, except that it stays exactly when it waits for a lock, a token, a notification or the workers, or is at its end |
| PoolObject.ThreadPool.Execute | include/boost/task/detail/pool_base.hpp:136-206 | under any schedule the object goes through one state a turn, each the step of the thread whose turn it is or, exactly when that thread has to wait, no change; collapsed, this is a run of the step machine |
| BoundedChannel.ChannelFifo | include/boost/task/spin/bounded_channel.hpp:180-258 | under any interleaving the values taken followed by the values in the linked nodes are the values accepted, in order; a consumer between swap and pop holds the first one itself |
| BoundedChannel.TakeReturnsTaken | include/boost/task/spin/bounded_channel.hpp:246-257 | the value a take is about to return is the one it took |
| BoundedChannel.ConsumerApart | include/boost/task/spin/bounded_channel.hpp:114-120 | a consumer at the head finds a value and a successor in a node that no producer writes or owns |
| BoundedChannel.ChannelBounds | include/boost/task/spin/bounded_channel.hpp:98-120 | `count_` stays between 0 and hwm, never underflows, and the list never holds more than hwm values |
| BoundedChannel.CompleteDrain | include/boost/task/spin/bounded_channel.hpp:228-245 | a take returns false only when the channel is inactive and every accepted value has been taken |
| BoundedChannel.ClosedForever | include/boost/task/spin/bounded_channel.hpp:165-172 | once deactivate has stored the state nothing is accepted any more and nobody sleeps in put or take |
| BoundedChannel.NextInv | include/boost/task/spin/bounded_channel.hpp:165-311 | every access of producers, consumers and deactivating threads keeps the invariant |
| ChannelCalls.PutExact | include/boost/task/spin/bounded_channel.hpp:180-201 | a call of put that has returned put the value it was given behind all others, once; or it has thrown, on an inactive channel, and put nothing |
| ChannelCalls.TakeExact | include/boost/task/spin/bounded_channel.hpp:228-311 | a call of take or try_take that has returned a value removed exactly that one, the first of those left; one that has failed removed none: try_take found the channel empty, take found it inactive and drained |
| ChannelCalls.StopExact | include/boost/task/spin/bounded_channel.hpp:165-172 | when a call of deactivate has returned the channel is inactive |
| ChannelCalls.SleepsExact | include/boost/task/spin/bounded_channel.hpp:186-241 | put goes to sleep only on an active channel that it finds full, take only on an active channel that it finds empty |
| ChannelObject.Channel.Create | include/boost/task/spin/bounded_channel.hpp:123-140 | crossed watermarks are refused; otherwise it starts with one blank node |
| ChannelObject.Channel.Decide | include/boost/task/spin/bounded_channel.hpp:186-193 | the accesses of put up to its decision that only read are the step relation |
| ChannelObject.Channel.Ask | include/boost/task/spin/bounded_channel.hpp:184-193 | those that lock or unlock the tail mutex are the step relation; the thread waits exactly when it has to lock a tail mutex that is owned |
| ChannelObject.Channel.Append | include/boost/task/spin/bounded_channel.hpp:195-197 | the value is written into the tail node, the fresh node linked behind it, and the tail moved |
| ChannelObject.Channel.Publish | include/boost/task/spin/bounded_channel.hpp:198-199 | counting the value and unlocking, against the step relation |
| ChannelObject.Channel.Peek | include/boost/task/spin/bounded_channel.hpp:101-102 | the accesses of take and try_take that ask `empty_` are the step relation; the thread waits exactly when the tail mutex is owned |
| ChannelObject.Channel.Enter | include/boost/task/spin/bounded_channel.hpp:230-245 | their other accesses up to the decision are the step relation; the thread waits exactly when it has to lock a head mutex that is owned |
| ChannelObject.Channel.Remove | include/boost/task/spin/bounded_channel.hpp:246-247 | the value is swapped out of the head node and the head moved to its successor |
| ChannelObject.Channel.Release | include/boost/task/spin/bounded_channel.hpp:118-119 | counting the value off, the watermark test and the return, against the step relation |
| ChannelObject.Channel.Stop | include/boost/task/spin/bounded_channel.hpp:165-172 | the accesses of deactivate are the step relation; the thread waits exactly when it has to lock a mutex that is owned |
| ChannelObject.Channel.Tell | include/boost/task/spin/bounded_channel.hpp:248-256 | a notification wakes all its sleepers, or those it reaches, and nobody else |
| ChannelObject.Channel.Step | include/boost/task/spin/bounded_channel.hpp:165-311 | a thread makes a step of the machine, except that it waits exactly when it needs a mutex that somebody owns |
| ChannelObject.Channel.Execute | include/boost/task/spin/bounded_channel.hpp:165-311 | under any schedule the object goes through one state a turn, each the step of the thread whose turn it is or, exactly when that thread has to wait, no change; collapsed, this is a run of the step machine |
| Future.SingleAssignment | include/boost/task/spin/future.hpp:72-121 | a result is stored at most once, the task body entered at most once, and a ready future shows that one result |
| Future.SettledForever | include/boost/task/spin/future.hpp:793-825 | a stored result never changes, a ready future never becomes unready, and the body is not entered any more |
| Future.ValueOrException | include/boost/task/spin/future.hpp:138-142 | a ready future has exactly one of value and exception iff it was not finished by set_exception with an empty pointer |
| Future.EmptyExceptionRun | include/boost/task/spin/future.hpp:816-825 | a run that ends ready with neither |
| Future.GetsAgree | include/boost/task/spin/future.hpp:207-211 | all callers of get get the result that was stored |
| Future.BrokenPromiseLeft | include/boost/task/spin/future.hpp:749-760 | an owner destroyed before a result or a start leaves the future ready with broken_promise; such a task never enters its body |
| Future.DroppedIsReady | include/boost/task/spin/future.hpp:749-760 | however ~promise returns, the future is ready |
| Future.NoWaiterLeft | include/boost/task/spin/future.hpp:72-121 | a waiter of a ready future sleeps only until the notification that is about to come |
| Future.StartedIsServed | include/boost/task/spin/future.hpp:946-967 | a started task without a result is in the hands of a thread; one with a result from its body entered it exactly once |
| Future.NextInv | include/boost/task/spin/future.hpp:72-136 | every access of owner, task and waiters keeps the invariant |
| FutureCalls.FinishExact | include/boost/task/spin/future.hpp:749-825 | set_value and set_exception leave what they were given, ~promise and owner_destroyed a broken promise, and a task what its body ended with: stored once by a call that says so; otherwise the future was done, or the task started |
| FutureCalls.RunExact | include/boost/task/spin/future.hpp:946-996 | a call of run that has returned entered the body once and stored what that ended with; or the task had been started, and it has not entered it |
| FutureCalls.GetExact | include/boost/task/spin/future.hpp:98-136 | a wait or get that has returned found the future done, with the result stored; or its time was over, if it had one, on a future not done; or its callback threw; it looked for a callback once, and fired it exactly if there was one and the future was not done |
| FutureCalls.GetReturnsGiven | include/boost/task/spin/future.hpp:207-211 | every get that has returned a value or exception returned the one given to the call that finished the future |
| FutureObject.FutureBase.Own | include/boost/task/spin/future.hpp:749-967 | set_value, set_exception, ~promise and owner_destroyed up to their decision are the step relation, waiting exactly to lock an owned mtx |
| FutureObject.FutureBase.RunTask | include/boost/task/spin/future.hpp:946-996 | run and do_run are the step relation, with the result or exception of the body, waiting exactly to lock an owned mtx |
| FutureObject.FutureBase.Finish | include/boost/task/spin/future.hpp:138-189 | storing the result, setting done and unlocking, against the step relation |
| FutureObject.FutureBase.BeginWait | include/boost/task/spin/future.hpp:98-112 | entering a wait, and releasing mtx exactly if there is a callback to fire, are the step relation, waiting exactly to lock an owned mtx |
| FutureObject.FutureBase.DoCallback | include/boost/task/spin/future.hpp:83-106 | firing the callback with mtx released and locking it again, also after a throw, are the step relation, waiting exactly to lock an owned mtx |
| FutureObject.FutureBase.Await | include/boost/task/spin/future.hpp:113-136 | waiting until done, in time or not, and taking the outcome are the step relation, waiting exactly to lock an owned mtx |
| FutureObject.FutureBase.NotifyAll | include/boost/task/spin/future.hpp:72-81 | every sleeping waiter wakes and nobody else moves |
| FutureObject.FutureBase.Step | include/boost/task/spin/future.hpp:72-136 | activity t makes a step of the machine as its turn says, except that it waits exactly when it has to lock an owned mtx |
| FutureObject.FutureBase.Execute | include/boost/task/spin/future.hpp:72-136 | under any schedule the object goes through one state a turn, each the step of the thread whose turn it is or, exactly when that thread has to wait, no change; collapsed, this is a run of the step machine |

## Left out

- Interruption: `interruption_point` can throw out of a wait with the thread still counted, so the condition variable, the channel and the pool are modelled without it; shutdown_now does not interrupt.
- Clocks: whether a time is over is a free choice of the model; a timed acquisition of `enter_mtx_` succeeds, as the code asserts.
- Fairness and liveness beyond what the table says: a run is any interleaving, and no thread is forced to move; a worker that keeps finding incomplete tasks while the global queue is not empty never leaves.
- The kernel semaphore is a counter, and a kernel post of 0 has no effect; a post of a negative count, which throws before any access, is not a call of the model.
- Unsigned wrap-around of `head_idx_`, `tail_idx_`, `waiters_` and the counters: they are unbounded numbers here.
- Barrier, channel and future use the wait and notify of the textbook condition variable, which `WaitNotify` proves the spin one to refine, with spurious wake-ups on top; the machines are not composed into one. The priority queue waits on a condition variable of the thread library, which is taken as such.
- DequeRace: growing the array under `mtx_` is one step, and the interleaved deque is modelled on values; update in place is what `WorkStealingDeque.Wsq` treats.
- Pool: a work-stealing deque counts its tasks, which ones they are is `DequeRace`; a scan for victims may miss any deque, because the scan of the code can.
- Nodes of the channel are never freed: reference counts are not part of this model.
- Timed put and take of the channel, whose timed put returns false after any wait; condition waits with a predicate.
- Future: move-assignment of promises, which drops a future without finishing it; lazy creation of the shared state, which is not synchronised; external waiters of several futures at once.
- A task that submits to its own pool from inside a worker (`runs_in_pool` in `submit`): submitters are threads outside the pool, so a worker that blocks in put on a full queue is not part of this model.
- Call stacks: what a wait callback or a task body does to the same future is done by another activity, which allows more interleavings than the code has.
- `count_down_event` and `manual_reset_event`, whose counting and exclusion do not hold under races of their setters and last waiters.
- `bounded_fifo`, `unbounded_fifo`, `unbounded_channel`: the list algorithm of the bounded channel with a weaker deactivation.
- Static pools, async, forks, contexts, fibers, intrusive reference counts, meta-functions: plumbing around the parts above.
