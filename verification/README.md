# xcoro concurrency core: models and proofs

xcoro is a C++20 coroutine library. This project models the part of it whose correctness depends on
interleavings, and its ring buffer, and proves what that code is for.

**The waiter handshake.** A coroutine that has to wait for a `mutex`, a `condition_variable` or a
`counting_semaphore` leaves a heap-allocated `waiter_state` in a queue. The coroutine that is still inside
`await_suspend`, a waker (`unlock`, `notify_*`, `release`) and a cancel callback race on its three atomics.
`Handshake` holds the atomic operations. `LockModel` is a step machine for one mutex with one condition
variable, `SemaphoreModel` one for a semaphore: any number of coroutines, cancellation tokens, calls and
waiters, each atomic operation and each action under an internal lock a step of its own, and nothing assumed
about who steps next. A waiter that `unlock`, `notify` or `release` has popped and not yet tried to claim is
*in hand*, and still the front of its queue; a cancel can claim it there. The machine of the lock contains
both handshakes of `cv.wait`: the condition variable's own and the one on the mutex waiter that
`lock_or_enqueue` pushes. Variables called history in the models are read by no step.

The invariants are in `LockInvariant` and `SemaphoreInvariant`, their preservation in `LockSteps` and
`SemaphoreInvariant`; the refinement of a simple machine (an optional owner, a FIFO of unclaimed lock waiters, a
FIFO of sleepers) is in `LockRefinement`; `LockWaiters` says what a step can do to a waiter. What a caller is
promised is in `LockTheorems`, `LockNotifications`, `LockCancellation` and `LockProgress`, and in
`SemaphoreTheorems`, `SemaphoreCancellation` and `SemaphoreProgress`. `LockCalls` and `SemaphoreCalls` tie the states
of a run to the calls that user code made in it; `LockAlone` and `SemaphoreAlone` say what a call does when nobody
interferes.

**Other protocols.** `ThreadPoolModel` (workers, sleeping and waking, `stop`, the queues), `EventModel`
(`manual_reset_event`, down to the links of its lock-free list), `CancellationModel` (callbacks against
requests), `WhenAll` (the latch) and `WhenAny`, whose machine contains the machine of the event.

**The same objects in place.** `WaiterStates`, `Mutexes`, `ConditionVariables`, `Semaphores`, `ThreadPool`,
`ManualResetEvents`, `CancellationStates` and the classes at the end of `WhenAll` and `WhenAny` hold the
source's fields and run its loops without interference, each method proved against a function: `WaitQueue`
says what a waker does to a queue of waiters, `ThreadPoolCore` is what the step machine of the pool works on.
`LockSolo` and `SemaphoreRelease` prove that an unlock, notify or release call of the step machine that is left
alone computes what the method computes. `ByteRing` and `ByteBuffers` are `byte_buffer` over an array, and
`ByteBufferRuns` says what a client may rely on over a sequence of operations.

`dafny verify dfyconfig.toml` checks everything.

## Model

| member | source | states |
|---|---|---|
| LockTheorems.RunRefines | include/xcoro/mutex.hpp:24-192 | Every run of lock, try_lock, unlock, wait, notify and cancel, seen as owner, unclaimed lock waiters and unclaimed sleepers, is a run of the simple machine |
| LockRefinement.StepRefines | include/xcoro/condition_variable.hpp:73-175 | Each concrete step is a stutter or one acquire, hand-off, release, join, notification or cancellation, taking effect at the claim, at the write of `locked_` or at the enqueue |
| LockTheorems.WaitReturnsOwning | include/xcoro/condition_variable.hpp:73-114 | On every path through cv.wait, the coroutine reaches await_resume owning the mutex, and nobody else does, whether it returns or throws |
| LockTheorems.OwnershipConserved | include/xcoro/mutex.hpp:24-60 | `locked_` holds iff some coroutine has the lock or has been handed it; there is never a second one; while it is free there is no live waiter, queued or in hand |
| LockTheorems.LockOutcome | include/xcoro/mutex.hpp:102-147 | A lock attempt about to end owns the mutex iff it is not going to throw operation_cancelled |
| LockTheorems.ThrowsIff | include/xcoro/mutex.hpp:110-147 | await_resume of lock and of wait throws iff cancellation was seen before queueing or a cancel callback won the claim |
| LockTheorems.SeenBeforeQueueing | include/xcoro/condition_variable.hpp:65-77 | Cancellation is seen before queueing iff the test in await_ready or the one in await_suspend finds the token cancelled |
| LockTheorems.ClaimedAndParked | include/xcoro/mutex.hpp:75-94 | A waiter that is claimed while its coroutine is parked always has a winner with a step left towards the resume |
| LockTheorems.LeavesOnce | include/xcoro/condition_variable.hpp:38-57 | Across every step a claim is never undone or moved to the other party, and a coroutine leaves a waiter once: by being told not to park, or by one owed resume after it has parked, never both |
| LockTheorems.NoStrayResume | include/xcoro/mutex.hpp:185-192 | No handle is resumed while its coroutine is not suspended |
| LockTheorems.NoLostNotification | include/xcoro/condition_variable.hpp:79-107 | A waiting coroutine is queued or in hand unclaimed, or claimed; its wait returns normally iff the claim was a notification |
| LockNotifications.NotifiedByAwaken | include/xcoro/condition_variable.hpp:130-169 | A step makes one more sleeper notified exactly when it is a notify claim of the oldest one; no other step changes which are |
| LockNotifications.NotificationsMatchReturns | include/xcoro/condition_variable.hpp:79-169 | In every run, the notifications that found a sleeper are as many as the waits that returned normally and those notified and still on their way back |
| LockCancellation.RequestReaches | include/xcoro/mutex.hpp:123-139 | When the token of a coroutine that is parked unclaimed in lock or wait is requested, its callback is registered and enabled, and claims the waiter for cancellation |
| LockCancellation.ThrowsOnlyOnRequest | include/xcoro/condition_variable.hpp:86-114 | A lock or wait that has queued throws only if its own token was requested |
| LockCalls.RunsMatchCalls | include/xcoro/mutex.hpp:98-158 | In every run each coroutine is inside the call it made last, with the token it gave, or back in user code; requested tokens are those requested, and coroutines those created |
| LockCalls.ThrowersWereCancelled | include/xcoro/condition_variable.hpp:65-114 | In every run, a lock or wait that is about to throw was called with a token that a step of the run has requested |
| LockCalls.CancelledCallsEnd | include/xcoro/condition_variable.hpp:86-107 | When the library has come to rest, a coroutine whose lock or wait was given a requested token is in user code, or queues for the mutex after its wait |
| LockAlone.TryLockTakes | include/xcoro/mutex.hpp:24-31 | try_lock takes the mutex iff no coroutine has it, and changes nothing else |
| LockAlone.LockCancelled | include/xcoro/mutex.hpp:102-106 | lock with a requested token ends after await_ready and changes nothing |
| LockAlone.LockTakes | include/xcoro/mutex.hpp:102-108 | lock on a free mutex takes it, whole state given |
| LockAlone.LockQueues | include/xcoro/mutex.hpp:110-140 | lock on a held mutex parks the coroutine, last in the queue, callback registered iff there is a token, whole state given |
| LockAlone.WaitCancelled | include/xcoro/condition_variable.hpp:65-77 | wait with a requested token ends with the mutex still held and changes nothing |
| LockAlone.WaitQueuesFirst | include/xcoro/condition_variable.hpp:79-84 | wait joins the queue, last, and only then calls unlock |
| LockAlone.RegistersAndParks | include/xcoro/condition_variable.hpp:86-104 | From the registration on the coroutine parks, its callback registered iff there is a token |
| LockAlone.UnlockAlone | include/xcoro/mutex.hpp:33-55 | An undisturbed unlock call makes the oldest unclaimed waiter the owner and keeps those behind it queued; if all are claimed the mutex is free |
| LockAlone.NotifyAllAlone | include/xcoro/condition_variable.hpp:150-162 | An undisturbed notify_all call claims every unclaimed sleeper and changes nothing else |
| LockAlone.NotifyOneAlone | include/xcoro/condition_variable.hpp:130-143 | An undisturbed notify_one call claims the oldest unclaimed sleeper and no other |
| LockTheorems.NotifyOneMissesNobody | include/xcoro/condition_variable.hpp:130-148 | notify_one ends without a claim only when no coroutine waits unclaimed, so a cancelled waiter never absorbs it |
| LockTheorems.NothingStranded | include/xcoro/mutex.hpp:33-60 | When no call is in progress, every coroutine is in user code or parked unclaimed, and lock waiters wait behind an owner who is in user code |
| LockSolo.SoloUnlockServes | include/xcoro/mutex.hpp:33-55 | Left alone, an unlock call of the machine grants the oldest unclaimed waiter and no other, and frees the mutex iff there is none, as the method Unlock is proved to do |
| LockSolo.SoloNotifyServes | include/xcoro/condition_variable.hpp:130-162 | Left alone, notify_one claims the oldest unclaimed waiter and no other, notify_all claims all, and neither touches the mutex in doing so |
| LockProgress.InternalRunsAreBounded | include/xcoro/mutex.hpp:110-192 | However the parties are scheduled, the number of steps the library can take by itself from a state is bounded by a measure of that state |
| LockProgress.Settles | include/xcoro/condition_variable.hpp:73-169 | From every reachable state the library alone reaches a state where no call is in progress and nobody is parked unclaimed on a requested token |
| LockSteps.StepInv | include/xcoro/mutex.hpp:24-192 | The invariant behind all of these is kept by every step of every party |
| SemaphoreTheorems.PermitsConserved | include/xcoro/semaphore.hpp:35-96 | Clamped initial count and released units equal the count, the successful acquisitions and the units dropped at max(); the acquisitions are those reported and those of exactly the coroutines on their way to return |
| SemaphoreTheorems.NoIdlePermit | include/xcoro/semaphore.hpp:186-194 | A positive count means that the queue is empty and that every waiter there ever was has been claimed |
| SemaphoreTheorems.ThrowsIff | include/xcoro/semaphore.hpp:134-176 | acquire throws iff cancellation was seen before queueing or a cancel callback won, and iff it has no permit |
| SemaphoreTheorems.SeenBeforeQueueing | include/xcoro/semaphore.hpp:134-145 | Cancellation is seen before queueing iff one of the two tests finds the token cancelled |
| SemaphoreTheorems.ClaimedAndParked | include/xcoro/semaphore.hpp:110-129 | As for the mutex: a claimed parked waiter has a winner that still acts for it |
| SemaphoreTheorems.LeavesOnce | include/xcoro/semaphore.hpp:110-129 | Across every step a claim is for good, and a coroutine leaves a waiter once, by being told not to park or by one owed resume |
| SemaphoreTheorems.NoStrayResume | include/xcoro/semaphore.hpp:76-80 | No handle is resumed while its coroutine is not suspended |
| SemaphoreTheorems.RunRefines | include/xcoro/semaphore.hpp:35-194 | Every run is a run of a counter with a FIFO of sleepers, each unit going to the oldest sleeper, else to the count, else dropped |
| SemaphoreTheorems.NothingStranded | include/xcoro/semaphore.hpp:43-81 | When no call is in progress a parked coroutine is unclaimed and the count is zero, and every permit taken has been reported |
| SemaphoreProgress.InternalRunsAreBounded | include/xcoro/semaphore.hpp:43-194 | However the parties are scheduled, the number of steps the library can take by itself from a state is bounded by a measure of that state |
| SemaphoreProgress.Settles | include/xcoro/semaphore.hpp:43-194 | From every reachable state the library alone reaches a state where no call is in progress and nobody is parked unclaimed on a requested token |
| SemaphoreCancellation.RequestReaches | include/xcoro/semaphore.hpp:153-170 | When the token of a coroutine that is parked unclaimed in acquire is requested, its callback is registered and enabled, and claims the waiter for cancellation |
| SemaphoreCancellation.ThrowsOnlyOnRequest | include/xcoro/semaphore.hpp:153-180 | An acquire that has queued throws only if its own token was requested |
| SemaphoreCalls.RunsMatchCalls | include/xcoro/semaphore.hpp:43-180 | In every run each coroutine is inside the acquire it called last, with its token, or in user code; and units given out and pending are the sum of what release was called for |
| SemaphoreCalls.DropsOnlyAtMax | include/xcoro/semaphore.hpp:67-73 | A unit is dropped only by a release that finds the count at max() and the queue empty |
| SemaphoreCalls.ThrowersWereCancelled | include/xcoro/semaphore.hpp:134-180 | In every run, an acquire that is about to throw was called with a token that a step of the run has requested |
| SemaphoreCalls.CancelledCallsEnd | include/xcoro/semaphore.hpp:153-170 | When the library has come to rest, a coroutine whose acquire was given a requested token is in user code |
| SemaphoreAlone.TryAcquireTakes | include/xcoro/semaphore.hpp:35-42 | try_acquire takes a permit iff there is one |
| SemaphoreAlone.AcquireCancelled | include/xcoro/semaphore.hpp:134-140 | acquire with a requested token ends after await_ready and changes nothing |
| SemaphoreAlone.AcquireTakes | include/xcoro/semaphore.hpp:134-142 | acquire while there is a permit takes it and returns, whole state given |
| SemaphoreAlone.AcquireQueues | include/xcoro/semaphore.hpp:143-172 | acquire without a permit parks the coroutine, last in the queue, callback registered iff there is a token, whole state given |
| SemaphoreRelease.ReleaseInTwo | include/xcoro/semaphore.hpp:43-75 | With no cancel in between, release(a + b) and release(a) then release(b) lead to the same whole state of the machine |
| SemaphoreRelease.SoloServes | include/xcoro/semaphore.hpp:50-75 | Left alone, a release call of the machine leaves the queue, the waiters and the count that the method Release is proved to leave |
| SemaphoreRelease.ReleaseCallServes | include/xcoro/semaphore.hpp:43-75 | The same from the call release(update) on |
| Semaphores.ReleaseInTwo | include/xcoro/semaphore.hpp:43-75 | The same law for what Release computes: waiters popped and granted, handles in order, count |
| Semaphores.UnitsAccounted | include/xcoro/semaphore.hpp:67-73 | Below max() no unit is lost or made up, none goes over max() while there is room, and none is stored while an unclaimed waiter remains |
| Semaphores.CountingSemaphore.Release | include/xcoro/semaphore.hpp:43-81 | The nested loops pop and grant the oldest unclaimed waiters, return the handles of those parked in order, and store the rest up to max() |
| Semaphores.CountingSemaphore.constructor | include/xcoro/semaphore.hpp:23-96 | The initial count is clamped to 0..max() |
| Semaphores.CountingSemaphore.TryAcquire | include/xcoro/semaphore.hpp:35-42 | Takes a permit iff there is one |
| Semaphores.CountingSemaphore.EnqueueWaiter | include/xcoro/semaphore.hpp:186-194 | Takes a permit if there is one, else queues at the end; the count and the queue are never both non-empty |
| WaitQueue.TakesOldest | include/xcoro/semaphore.hpp:52-66 | Popping for n units takes exactly the n oldest unclaimed waiters, or all of them, and keeps the order of the others |
| WaitQueue.UnclaimedPositions | include/xcoro/semaphore.hpp:52-66 | The unclaimed waiters are those at the positions whose waiter is unclaimed, in order, each once |
| WaitQueue.StopsAtClaim | include/xcoro/semaphore.hpp:52-66 | Popping stops right behind the last waiter it has claimed, unless they ran out |
| WaitQueue.GrantsOnlyPopped | include/xcoro/mutex.hpp:38-49 | Exactly the popped waiters are granted, and a waiter claimed before is not touched |
| WaitQueue.WokenAreParkedHandles | include/xcoro/semaphore.hpp:57-62 | The handles to resume are those of the granted waiters that had parked, in queue order |
| WaitQueue.WokenPositions | include/xcoro/semaphore.hpp:57-62 | The handles to resume are those at the popped positions whose waiter was unclaimed and had parked, in order, each once |
| WaitQueue.PopsIsGrantFirst | include/xcoro/mutex.hpp:38-49 | What a waker of the machines does to the waiters of its queue is what the methods are proved to do to theirs |
| WaitQueue.PoppedTwice | include/xcoro/semaphore.hpp:52-66 | Popping for a + b is popping for a and then for b |
| WaiterStates.WaiterState.TryMarkResumed | include/xcoro/mutex.hpp:75-77 | Only the first caller wins, and the handshake invariant is kept |
| WaiterStates.WaiterState.TryMarkSuspended | include/xcoro/mutex.hpp:79-84 | The coroutine parks unless a winner has told it not to, in which case that winner owes it nothing |
| WaiterStates.WaiterState.ShouldResumeNow | include/xcoro/mutex.hpp:86-94 | The winner owes a resume iff the coroutine has parked |
| WaiterStates.WaiterState.CancelCallback | include/xcoro/mutex.hpp:125-136 | The callback resumes the handle iff it won the claim and the coroutine had parked; otherwise it changes nothing |
| WaiterStates.ClaimFront | include/xcoro/mutex.hpp:38-49 | The pop loop claims the oldest unclaimed waiter, if any, and changes no other |
| Mutexes.Mutex.TryLock | include/xcoro/mutex.hpp:24-31 | Takes the lock iff it is free |
| Mutexes.Mutex.Unlock | include/xcoro/mutex.hpp:33-60 | The lock goes to the oldest unclaimed waiter and is freed iff there is none; the handle to resume is that waiter's iff it has parked |
| Mutexes.Mutex.EnqueueWaiter | include/xcoro/mutex.hpp:161-169 | Takes a free lock, else queues at the end |
| Mutexes.Mutex.LockOrEnqueue | include/xcoro/mutex.hpp:171-183 | The caller has the lock, or a parked waiter of its own is last in the queue |
| Mutexes.Mutex.LockAndResume | include/xcoro/mutex.hpp:185-192 | The handle is resumed iff the lock was free |
| ConditionVariables.ConditionVariable.EnqueueWaiter | include/xcoro/condition_variable.hpp:172-175 | The waiter is queued last |
| ConditionVariables.ConditionVariable.NotifyOne | include/xcoro/condition_variable.hpp:130-148 | The oldest unclaimed waiter is notified; if parked, it is resumed, with the mutex, iff the mutex was free, and else queued for it, parked, last; nobody else is resumed or queued |
| ConditionVariables.ConditionVariable.NotifyAll | include/xcoro/condition_variable.hpp:150-169 | All unclaimed waiters are notified; of the parked ones, in queue order, the first is resumed if the mutex was free, nobody if it was held, and the others are queued for it in order |
| ThreadPoolTheorems.NoLostWakeup | include/xcoro/thread_pool.hpp:207-250 | While tasks are pending a worker is awake or a notification is in flight; when the exit condition holds and a worker sleeps, a notify_all is in flight |
| ThreadPoolTheorems.CountersExact | include/xcoro/thread_pool.hpp:162-269 | `pending_tasks_` is the length of all queues and `active_workers_` the number of workers running a task; with tasks pending every worker finds one whatever the random start, so the !got_task branch is dead |
| ThreadPoolTheorems.TasksConserved | include/xcoro/thread_pool.hpp:162-269 | As multisets, accepted handles are those queued, running and finished; once a worker has exited all accepted handles have finished |
| ThreadPoolTheorems.AcceptsWhatIsOffered | include/xcoro/thread_pool.hpp:162-189 | In every run the accepted handles are the live ones that were enqueued before the first stop |
| ThreadPoolTheorems.Progress | include/xcoro/thread_pool.hpp:191-250 | Open or closed, every step of the pool but an enqueue, a stop and a spurious wake-up decreases a lexicographic measure |
| ThreadPoolTheorems.NoEndlessRun | include/xcoro/thread_pool.hpp:47-66 | There is no infinite run of such steps |
| ThreadPoolTheorems.StuckOnlyWhenDone | include/xcoro/thread_pool.hpp:47-66 | The pool has no such step left only when every accepted handle has finished, with all workers asleep, or exited if it is closed |
| ThreadPoolCore.ScanStepOf | include/xcoro/thread_pool.hpp:280-285 | Whatever the start, each worker comes up in the scan |
| ThreadPoolCore.ScanComplete | include/xcoro/thread_pool.hpp:270-293 | The scan from any start finds a victim if any other worker has a task |
| ThreadPoolCore.ScanSound | include/xcoro/thread_pool.hpp:280-290 | What the scan finds is another worker with a task |
| ThreadPoolCore.ScanIsFirst | include/xcoro/thread_pool.hpp:280-292 | The scan settles on the first queue with a task, other than the thief's, in the order start, start + 1, ..., going round, and on none iff there is none |
| ThreadPoolCore.ChooseFinds | include/xcoro/thread_pool.hpp:251-269 | Own queue, global queue and stealing together find a task iff one is queued |
| ThreadPoolCore.ChoiceIsTook | include/xcoro/thread_pool.hpp:258-268 | What the step machine's choice takes is the worker's newest task, else the oldest global one, else the oldest of the first victim, and nothing else changes |
| ThreadPool.WorkStealingQueue.TryPopBottom | include/xcoro/thread_pool.hpp:120-128 | Takes the newest task of the deque, if any |
| ThreadPool.WorkStealingQueue.TryStealTop | include/xcoro/thread_pool.hpp:129-137 | Takes the oldest task of the deque, if any |
| ThreadPool.Pool.Enqueue | include/xcoro/thread_pool.hpp:162-189 | Accepts a live handle iff the pool is open; a worker's own schedule goes to the end of its queue, everything else to the end of the global queue, and no other queue changes |
| ThreadPool.Pool.TryStealLocked | include/xcoro/thread_pool.hpp:270-293 | Steals the oldest task of the first other queue that has one, going round from start; fails, changing nothing, iff all are empty |
| ThreadPool.Pool.TryTakeTaskLocked | include/xcoro/thread_pool.hpp:251-269 | The newest own task; if there is none, the oldest global one; if there is none, what it can steal; nothing else changes |
| ThreadPool.Pool.TakeTurn | include/xcoro/thread_pool.hpp:213-232 | The locked part of a worker's turn: exit iff closed, drained and idle, or such a task moved from pending to active |
| ThreadPool.Pool.FinishTurn | include/xcoro/thread_pool.hpp:237-243 | The worker is no longer active, and is told to wake the others iff all may exit |
| ThreadPool.Pool.CloseLocked | include/xcoro/thread_pool.hpp:47-57 | Acceptance ends, and only the first call goes on |
| EventTheorems.ListBeforeSet | include/xcoro/manual_reset_event.hpp:18-34 | Until the event is set, the list from `state_` is finite, without duplicates, the only list that can be read from there, and holds exactly the awaiters whose compare-exchange succeeded |
| EventTheorems.ParksAlone | include/xcoro/manual_reset_event.hpp:18-34 | An undisturbed await on an event that is not set parks as the new head, whole state given |
| EventTheorems.PassesOnceSet | include/xcoro/manual_reset_event.hpp:17-34 | Once the event is set, an awaiter gets through in at most three steps of its own, without parking, wherever it is |
| EventTheorems.ResumeOrder | include/xcoro/manual_reset_event.hpp:47-60 | The detached list is resumed newest first, each awaiter once and no other; no node is read after its coroutine was resumed |
| EventTheorems.NobodyStranded | include/xcoro/manual_reset_event.hpp:18-60 | Once the event is set and no set() walks, no awaiter is parked, whatever failed or competed |
| EventTheorems.WalkBegins | include/xcoro/manual_reset_event.hpp:47-52 | The exchange leaves a walk over the whole list, with two steps for each awaiter and one more ahead, or none if there is nobody or the event was set |
| EventTheorems.WalkEnds | include/xcoro/manual_reset_event.hpp:51-60 | A walking set() ends after exactly that many steps of its own, however the others are scheduled, and then every awaiter it detached has been resumed in order and nobody is parked |
| EventTheorems.OneWalker | include/xcoro/manual_reset_event.hpp:47-60 | At most one set() call ever walks a list |
| EventTheorems.StaysSet | include/xcoro/manual_reset_event.hpp:44-60 | A set event stays set, and nobody parks on it any more |
| ManualResetEvents.ManualResetEvent.AwaitSuspend | include/xcoro/manual_reset_event.hpp:18-34 | After any number of spurious failures the awaiter is the new head of the list, or the event was set |
| ManualResetEvents.ManualResetEvent.Set | include/xcoro/manual_reset_event.hpp:47-60 | The walk resumes the list newest first although every resumed node is overwritten arbitrarily |
| CancellationTheorems.OneRequestWins | include/xcoro/cancellation_state.hpp:60-78 | At most one request_cancellation call returns true |
| CancellationTheorems.RunsAtMostOnce | include/xcoro/cancellation_state.hpp:15-32 | Every callback runs at most once, and only after a request |
| CancellationTheorems.RunsExactlyOnceUnlessErased | include/xcoro/cancellation_state.hpp:38-78 | When the winning request has returned, a callback has run exactly once, unless it was removed from the list, and then not at all |
| CancellationTheorems.ErasedNeverRuns | include/xcoro/cancellation_state.hpp:50-58 | A callback that remove_callback found in the list never runs |
| CancellationTheorems.RefusedRunsInline | include/xcoro/cancellation_token.hpp:71-86 | A callback refused by try_add_callback is run once, by its registrar |
| CancellationTheorems.RegistersAlone | include/xcoro/cancellation_state.hpp:38-48 | Undisturbed, registering before any request lists the callback, last |
| CancellationTheorems.RegistersLate | include/xcoro/cancellation_token.hpp:71-86 | Registering after a request runs the callback once, at once |
| CancellationTheorems.DeregisterTakesOut | include/xcoro/cancellation_state.hpp:50-58 | Deregistering takes the callback, and no other, out of the list |
| CancellationTheorems.RequestsAlone | include/xcoro/cancellation_state.hpp:60-70 | The first request sets the flag and takes the whole list; a later one returns false |
| CancellationStates.CallbackState.Invoke | include/xcoro/cancellation_state.hpp:18-26 | After any number of calls the callback has run once |
| CancellationStates.CancellationState.TryAddCallback | include/xcoro/cancellation_state.hpp:38-48 | Appends iff no cancellation was requested |
| CancellationStates.CancellationState.RemoveCallback | include/xcoro/cancellation_state.hpp:50-58 | The loop takes out the first occurrence, and nothing else |
| CancellationStates.EraseMembers | include/xcoro/cancellation_state.hpp:50-58 | Exactly the given callback is gone, and the list stays without duplicates |
| CancellationStates.CancellationState.RequestCancellation | include/xcoro/cancellation_state.hpp:60-78 | Only the first request runs the listed callbacks, each once, and it leaves the list empty |
| CancellationStates.CancellationRegistration.Register | include/xcoro/cancellation_token.hpp:71-86 | The callback is listed and held by the registration, or has run here and the registration is empty |
| CancellationStates.CancellationRegistration.Deregister | include/xcoro/cancellation_registration.hpp:36-42 | The callback leaves the list and the registration is empty |
| CancellationStates.CancellationRegistration.MoveFrom | include/xcoro/cancellation_registration.hpp:27-34 | The assigned-to callback leaves its list, the other registration's moves over, self-assignment changes nothing |
| CancellationStates.MoveKeepsOther | include/xcoro/cancellation_registration.hpp:27-34 | When both are registered with one state, only the assigned-to one's callback is taken out |
| WhenAll.LatchExact | include/xcoro/when_all.hpp:20-47 | The latch counts the children that have not notified it, plus one until try_await has run |
| WhenAll.ContinuesOnceAllStored | include/xcoro/when_all.hpp:118-122 | The parent goes on once, inline or resumed by a notifier that finds it suspended, and only after all n results are stored |
| WhenAll.NotStranded | include/xcoro/when_all.hpp:159-172 | When all children have notified the latch and the parent cannot step, it has gone on |
| WhenAll.ResultsFinal | include/xcoro/when_all.hpp:174-176 | A stored result never changes |
| WhenAll.StoredIsWhatCame | include/xcoro/when_all.hpp:174-176 | In every state of a run a child's result is what it finished with, and empty before |
| WhenAll.FinishesOnce | include/xcoro/when_all.hpp:174-176 | A child finishes once |
| WhenAll.RunsEnd | include/xcoro/when_all.hpp:118-122 | A when_all over n children takes at most 3n + 3 steps, whatever the order |
| WhenAll.ThrowsLowest | include/xcoro/when_all.hpp:124-126 | Of the stored results, the rethrown exception is that of the lowest failing index, whatever the completion order; there is none iff all are values |
| WhenAll.RethrowsLowestFailure | include/xcoro/when_all.hpp:118-126 | When the parent goes on, every child has finished, and the rethrown exception is the one with which the child of the lowest failing index finished; none iff all finished with a value |
| WhenAll.WhenAllLatch.TryAwait | include/xcoro/when_all.hpp:32-34 | The latch counts the unfinished children and itself; the caller stays suspended iff a child is unfinished |
| WhenAll.WhenAllLatch.NotifyAwaitableCompleted | include/xcoro/when_all.hpp:36-42 | Resumes the awaiting coroutine iff this was the last unfinished child and try_await has run |
| WhenAll.AwaitAll | include/xcoro/when_all.hpp:84-122 | When k of n children finish while they are started, the coroutine stays suspended iff k < n, and none of those k resumes it |
| WhenAny.OnePublisher | include/xcoro/when_any.hpp:104-175 | At most one child is past the claim, and it is the first claimer |
| WhenAny.OutcomeFinal | include/xcoro/when_any.hpp:104-143 | The first claim, what is stored and what is returned never change |
| WhenAny.SetAfterStore | include/xcoro/when_any.hpp:147-175 | The event is set only after the first claimer's result or exception is stored |
| WhenAny.ReadsFirst | include/xcoro/when_any.hpp:218-233 | The parent reads the first claimer's index and outcome and never an empty result |
| WhenAny.OutcomeIsReal | include/xcoro/when_any.hpp:147-175 | In every run the index and outcome that are claimed, stored and returned are those with which an awaitable of the run completed |
| WhenAny.CancelsAfterOutcome | include/xcoro/when_any.hpp:235-248 | Cancellation is requested exactly when the outcome is fixed, and only by the cancellation overloads |
| WhenAny.NobodyStranded | include/xcoro/when_any.hpp:303-325 | When nothing can move, the children have ended and the parent has returned, or has thrown because the range was empty |
| WhenAny.CompletionState.TryPublish | include/xcoro/when_any.hpp:107-122 | Only the first outcome is kept |
| ByteBufferRuns.Replay | include/xcoro/net/buffer.hpp:33-183 | Over every sequence of prepare, write, commit, consume and clear, in any order, wrapping and growing as needed, every readable byte and every prepared cell whose value a client has been promised has that value |
| ByteBufferRuns.CarefulKnowsAll | include/xcoro/net/buffer.hpp:53-122 | If only bytes are committed that were written through regions not lost since, the value of every readable byte is promised |
| ByteBufferRuns.CarefulEffect | include/xcoro/net/buffer.hpp:101-122 | Then commit appends what was written, consume drops a prefix, clear drops all, and prepare and write change nothing |
| ByteBufferRuns.ReplayCareful | include/xcoro/net/buffer.hpp:33-183 | For such a client the buffer is the byte sequence that a plain sequence would be |
| ByteBufferRuns.ConsumeKeepsRegions | include/xcoro/net/buffer.hpp:106-117 | Uncommitted prepared cells still follow the contents after m > 0 bytes are consumed iff some content is left or the write index was 0 |
| ByteBufferRuns.ConsumePrepared | include/xcoro/net/buffer.hpp:106-117 | The same of the method |
| ByteBufferRuns.ClearPrepared | include/xcoro/net/buffer.hpp:119-122 | Prepared cells still follow the contents after clear() iff there were no contents or the write index was 0 |
| ByteBufferRuns.EmptiedInBetween | include/xcoro/net/buffer.hpp:101-122 | From a buffer that starts at its first cell: prepare, write, consume everything, commit makes consumed bytes readable again instead of the written ones |
| ByteBufferRuns.WrittenBytesLost | include/xcoro/net/buffer.hpp:101-122 | The same for two bytes of eight, from construction on |
| ByteBufferRuns.WrittenBytesNotPromised | include/xcoro/net/buffer.hpp:101-122 | In that sequence every assertion of the source holds, and the promises of Replay leave the committed bytes open |
| ByteBuffers.ByteBuffer.ReadableRegions | include/xcoro/net/buffer.hpp:33-42 | The two regions concatenate to the contents |
| ByteBuffers.ByteBuffer.WritableRegions | include/xcoro/net/buffer.hpp:53-76 | The two regions are the cells that follow the contents, in total exactly the bytes asked for, or all the room for SIZE_MAX; contents unchanged |
| ByteBufferRuns.FollowingIsDisjoint | include/xcoro/net/buffer.hpp:53-76 | Writable regions share no cell with the readable regions, nor with each other |
| ByteBuffers.ByteBuffer.PrepareContiguous | include/xcoro/net/buffer.hpp:84-96 | There are always n cells in one run that follow the contents |
| ByteBufferRuns.Put | include/xcoro/net/buffer.hpp:53-76 | While prepared regions follow the contents, writing anywhere in their uncommitted part leaves the contents and the other cells alone and puts the bytes where commit will find them, across the wrap |
| ByteBuffers.ByteBuffer.Commit | include/xcoro/net/buffer.hpp:101-104 | Appends the first n cells that follow the contents |
| ByteBuffers.ByteBuffer.Consume | include/xcoro/net/buffer.hpp:106-117 | Drops a prefix |
| ByteBuffers.ByteBuffer.Clear | include/xcoro/net/buffer.hpp:119-122 | The buffer is empty |
| ByteBuffers.ByteBuffer.WritableContiguous | include/xcoro/net/buffer.hpp:127-137 | The longest run after the contents: positive when there is room, and all the room unless it ends at the end of the storage |
| ByteBuffers.ByteBuffer.EnsureWritable | include/xcoro/net/buffer.hpp:139-150 | Makes room for n bytes, growing only when needed, to the doubled capacity; contents unchanged |
| ByteRing.DoubledLeast | include/xcoro/net/buffer.hpp:144-148 | The doubling loop ends with the least capacity * 2^k that suffices |
| ByteBuffers.ByteBuffer.Linearize | include/xcoro/net/buffer.hpp:152-173 | Contents unchanged, now starting at the first cell, whether or not they wrapped |
| ByteBuffers.ByteBuffer.GrowAndLinearize | include/xcoro/net/buffer.hpp:175-183 | Contents unchanged in a new storage of the given capacity |

## Findings

- Emptying a `byte_buffer` between prepare and commit loses what was written (include/xcoro/net/buffer.hpp:106-122).
  When `consume` takes the last byte, or `clear` is called, `read_index_` goes back to 0, so the prepared cells no
  longer follow the contents, and `commit` makes other cells readable. With 2 bytes in cells 0 and 1 of 8:
  `prepare_regions(2)`, two bytes written, `consume(2)`, `commit(2)` brings back the two consumed bytes
  (`ByteBufferRuns.WrittenBytesLost`, and `EmptiedInBetween` for any such buffer). No assertion of the source fails.
  Prepared cells survive `consume(m)`, m > 0, if and only if m is less than the size or the write index is 0, and
  `clear()` if and only if the buffer is empty or the write index is 0 (`ConsumeKeepsRegions`, `ConsumePrepared`,
  `ClearPrepared`). A commit, however partial, keeps them.

## Left out

- Weak memory: atomics are sequentially consistent; the memory orders of the source are not modelled.
- Misuse: only the owner calls `unlock` or `cv.wait`, and an owner does not lock again; other uses are the
  caller's errors and are not modelled.
- Several mutexes and condition variables: the lock machine has one of each, so all waits are for that mutex.
- Order of resumes: after a `notify_all` or a `release` has left its internal lock, the machines let it deal
  with the waiters it claimed in any order and interleaved with everything else, and let a registered callback
  start any number of times once its token is cancelled. The source allows fewer runs.
- Registration inside the handshake: the lock and semaphore machines take registering a cancel callback as one
  step; `CancellationModel` has its steps, and destruction of a registration while its callback runs.
- Methods of classes: run without interference and return the handles that the source resumes, so what a resumed
  coroutine does inside the loop of `notify_all` comes after it there; the machines have both.
- Awaiter objects (`await_ready`, `await_suspend`, `await_resume`): their bodies are coroutine steps of the machines,
  not methods of classes.
- Object lifetime, apart from the event's nodes: who keeps a waiter, a callback or a coroutine frame alive.
- Allocation failure, and exceptions out of moves of values.
- ByteBufferRuns.Replay: a client writes through the regions it prepared last, and only to cells it has not
  committed. Writing through a span to cells that are readable already changes the contents, as any array would.
- ByteBuffers.ByteBuffer.EnsureWritable: sizes are unbounded integers, so `size_ + n` and the doubling do not
  overflow `size_t`; only the value SIZE_MAX has its special meaning.
- ThreadPool.Pool.TryStealLocked: `start + i` does not wrap, that is, there are at most 2^31 threads.
- Thread creation and joining, `stop()` called by a worker or by two callers at once, and thread-local state:
  a worker's index is a parameter.
- Semaphore overflow: the release build's behaviour, where the unit is dropped; the debug assertion is not modelled.
- Fairness and scheduling latency: the proofs bound and order what happens, not when.
- `task`, `generator`, `sync_wait`, result tuples and variants: compiler-driven frames and storage types.
- `cancellation_token::awaiter`: it resumes from a callback without the handshake.
- `timer_queue`, `epoll_reactor`, `io_context`, sockets, resolvers: kernel and libc calls; what is left of their
  logic is an easier form of the handshake.
