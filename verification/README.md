# Verified models of the kernel and its thread library

This project models the p3 kernel and its user-level synchronisation library in Dafny and proves what they
promise: where threads, dead tasks and frames can be, what locks guarantee, and what a program can observe of its
memory. Each part has a specification (data and step functions or step relations), the theorems about it, and code
in the kernel's own form. The code works on control blocks, queue heads and link pointers in the heap, on arrays, or
on 32-bit words. A ghost field holds the state of the specification that the heap stands for, and every operation is
proved to keep the two in accord while it takes exactly the specified step.

**Intrusive queue** (`IntrusiveQueue.dfy`, `NamedQueues.dfy`). The macros of `variable_queue.h` as heap code over
`prev` and `next` pointers. `Queue` proves each macro against a sequence; `LinkHeap` has all queues that share one
link name, so that "in at most one queue" and the frame on all other queues can be said, and it knows the elements
whose pointers mean nothing because the head of their queue was initialised again. `Links` is the same seen through
the numbers of the elements. The control blocks of the scheduler and of the task manager and the nodes of the
condition variable are all linked through these two classes.

**fork, wait and vanish** (`TaskLife*.dfy`). A protocol between threads: a step is a lock acquisition, the code
under a lock, or a yield together with the callback it runs. The invariant gives every task exactly one place.
`TaskLifeBlocks.dfy` and `TaskLifeHeap.dfy` have the control blocks with their four links; `TaskLifeCode.dfy` has
`create_tcb`, fork, wait and vanish over them, from the first task on. What the affirms of the source look at is
asserted where they stand, so nothing is inserted twice, no freed block is followed, and no link is used that
`_vanish` left dangling when it cleared the list of active children. `TaskLifeOutcomes.dfy` says of each stretch what
it comes to in lists, statuses and return values, without naming the function that specifies it;
`TaskLifeProgress.dfy` that nobody deadlocks and every call ends, and `TaskLifeCalls.dfy` what whole calls return.

**Scheduler, kernel mutex, sleep** (`Scheduler*.dfy`). One machine for the runnable queue, every mutex's waiters and
the sleep queue, which share one link. Only stretches with interrupts disabled are atomic: the gap between the test
and the block in `mutex_lock`, the gap between the hand-over and the wake-up in `mutex_unlock`, and every thread
switch in the middle of the sleep queue's scan are places where other threads run. Dates and ticks are 32-bit.
`SchedulerHeap.dfy` has the control blocks, mutexes and queues in the heap, `SchedulerCode.dfy` the code over them.
`SchedulerOutcomes.dfy` says of every call who runs afterwards and where everybody else is, and `SchedulerDates.dfy`
the same of sleep and its scan, and that over no run a thread wakes before its time.

**Frames and page tables** (`PhysAlloc.dfy`, `PageTable.dfy`, `Vm*.dfy`). The frame allocator over its array stack,
page tables over arrays of entries with the two validity loops, and address spaces as maps from pages to entries
with `new_pages`, `remove_pages`, demand-zero faults, fork's copy through a buffer and two page-directory switches,
and teardown. Memory is read and written through a translation cache that may hold whatever the tables have said
since it was last flushed, as section 4.10 of the Intel SDM volume 3A allows; entries follow section 4.3. Ownership of
frames, their conservation, the zero frame and the cache are proved over all runs of all operations; only the marks
of runs of pages can be broken, and it is said when. `VmTables.dfy` ties the arrays of entries to the address spaces.
`VmOutcomes.dfy` says exactly when each operation succeeds and what it leaves of pages, frames and bytes.

**User-level locks** (`Ticket*.dfy`, `Semaphore*.dfy`). The ticket mutex one memory access at a time, whose 32-bit
words are what is left of ticket numbers that do not wrap, and the semaphore over its condition variable, whose nodes
are on the stacks of the waiting threads. `TicketOutcomes.dfy` and `SemaphoreBalance.dfy` say what calls come to; the
balance of the semaphore is counted over the calls threads make.

**Argument stack** (`ArgStack.dfy`). The bytes `configure_stack` writes and what a program reads back.

## Where the code does less than one might expect

Each of these has a run or a state that the code can reach, and a lemma that says exactly when it happens.

- `yield` of a thread to itself while nobody else is runnable leaves it on the runnable queue
  (`InitialSelfYield`, `StepKeepsIff`).
- A thread can block on a mutex that was freed in the gap of `mutex_lock` (`LostWaiter`, `GapLeavesWaiter`).
- After a scan the cached expiry date may be smaller than every date in the sleep queue, never larger
  (`StaleIndex`, `ScanWakesExactly`).
- One transfer of orphans wakes one waiting init thread, so a second waiter can stay beside a second orphan
  (`TransferLeavesBoth`, `TransferServesOne`).
- A demand-zero fault that finds no frame unmaps the page; in the middle of a run the next page then continues
  nothing (`WriteBreaksRun`: five calls of a program; `RunsKeptIff`). Frames and cache stay in order (`NextKeeps`).
- `new_pages` of a range that ends one page past the last maps the kernel's page 0, which no check of the directory
  accepts (`NullIsMapped`, `NullMappedIff`, `TablesValidIff`).
- The last store of a ticket mutex's unlock may come late and make the next holder's unlock fail
  (`LateClearFails`, `OwnerAffirmIff`, `OwnerSpoiledIff`).
- A ticket mutex wears out: the unlock of the 2^32nd acquisition fails its second affirm, whatever the threads do
  (`MutexWearsOut`, `LastUnlockFails`, `LockedAffirmIff`).
- `mutex_lock` by the holder of a ticket mutex, documented as a no-op, never returns if another thread's late unlock
  has overwritten `owner_tid` (`ReentryReturnsIff`, `StuckForEver`).
- A `sleep` whose date does not fit an unsigned int stores a date in the past (`DateInThePastIff`).
- `sem_signal` never returns when the thread it takes off the queue reads `should_wakeup` before it deschedules
  itself: that thread spins on the mutex the signaller holds (`SignalHangs`, `SignalReturnsIff`, `PopSettles`).
- `Q_IN_SOME_QUEUE` does not see the only element of a queue (`InSomeQueueIff`, `InsertAffirmBlindSpot`).

`assert` of the source is taken as documentation and `affirm` as a check that stops the kernel.

Where comment and code disagree the models follow the code: `add_one_atomic` returns the value before the addition,
although the comment in `mutex_lock` says after; `mutex_lock` of the kernel is documented as re-entrant and panics;
`_vanish`'s hand-over to init is described as serving all waiting init threads and serves one; `new_pd_from_parent`
is documented as copying writable entries and copies all.

## Model

| member | source | states |
|---|---|---|
| IntrusiveQueue.Queue.InsertFront | p3/kern/variable_queue.h:111-136 | the queue is the new element followed by the old queue, still a well-formed doubly linked list |
| IntrusiveQueue.Queue.InsertTail | p3/kern/variable_queue.h:153-178 | the queue is the old queue followed by the new element |
| IntrusiveQueue.Queue.Remove | p3/kern/variable_queue.h:420-462 | exactly the given member is gone, at front, tail, middle or alone, and its link pointers are cleared |
| IntrusiveQueue.Queue.Append | p3/kern/variable_queue.h:300-334 | the queue is the concatenation and the suffix is empty, in all four cases of empty and non-empty |
| IntrusiveQueue.Queue.FindPid | p3/kern/task_manager.c:252-260 | the first element with the pid, or null when no element has it |
| IntrusiveQueue.LinkHeap.InSomeQueueIff | p3/kern/variable_queue.h:393-399 | the macro is true exactly of members of queues with at least two elements |
| IntrusiveQueue.LinkHeap.InsertAffirmBlindSpot | p3/kern/variable_queue.h:118-121 | the affirms on insertion miss a queued element exactly when it is alone in a queue |
| IntrusiveQueue.LinkHeap.InsertFront | p3/kern/variable_queue.h:111-136 | insertion of a free element leaves every other queue on the link alone |
| IntrusiveQueue.LinkHeap.InsertTail | p3/kern/variable_queue.h:153-178 | insertion of a free element leaves every other queue on the link alone |
| IntrusiveQueue.LinkHeap.Remove | p3/kern/variable_queue.h:420-462 | the removed element is on no queue and the other queues are as before |
| IntrusiveQueue.LinkHeap.Append | p3/kern/variable_queue.h:300-334 | two queues are joined and all others are as before |
| IntrusiveQueue.LinkHeap.InsertThenRemove | p3/kern/variable_queue.h:153-178 | removal undoes insertion on all queues |
| IntrusiveQueue.LinkHeap.InitHead | p3/kern/variable_queue.h:69-75 | initialising the head of a queue in use empties it and leaves its elements on no queue with pointers that mean nothing |
| NamedQueues.Links.NotSeen | p3/kern/variable_queue.h:393-399 | Q_IN_SOME_QUEUE is false of an element whose pointers are in order and that is on no queue or alone on one |
| NamedQueues.Links.OneQueue | p3/kern/variable_queue.h:49-51 | a link is in one queue at most |
| TaskLifeHeap.TaskManager.AddPcb | p3/kern/task_manager.c:296-359 | a new block's heads and links join all four links and pcb_list, and the lists of every other task stay as they were |
| TaskLifeHeap.TaskManager.ForgetActive | p3/kern/lib_life_cycle/vanish.c:185-187 | the list is cleared in one store; allowed because no thread is about to insert one of the links this leaves dangling |
| TaskLifeHeap.TaskManager.FreePcb | p3/kern/task_manager.c:625-661 | task and last thread leave the heap, and all other blocks and lists stay well linked |
| TaskLifeCode.CleanOfActive | p3/kern/lib_life_cycle/vanish.c:185-187 | in no reachable state does a thread hold an active child whose link it is going to insert without initialising it |
| TaskLifeCode.FreeAffirms | p3/kern/task_manager.c:597-661 | the affirms of the two freeing functions hold of the pointers; the one on the last thread's link holds although the thread is on a list, because it is alone there |
| TaskLifeCode.Collect | p3/kern/lib_life_cycle/wait.c:77-104 | the collected task and its last thread are freed, the affirms hold, and wait has nothing left in hand |
| TaskLifeCode.FreeInFront | p3/kern/lib_life_cycle/vanish.c:86-96 | the loop over link pointers frees exactly the threads in front of the last one and counts them |
| TaskLifeCode.FreeSiblingTcb | p3/kern/lib_life_cycle/vanish.c:78-101 | only the last thread's block is left on the list, and the count is the number freed |
| TaskLifeCode.HandOverChildren | p3/kern/lib_life_cycle/vanish.c:199-229 | one Q_APPEND gives the children to init, and the first of all goes to init's first waiter |
| TaskLifeCode.OrphanUnlinked | p3/kern/lib_life_cycle/vanish.c:246-251 | a dying task whose parent is gone is on no list of children, whatever its link says |
| TaskLifeCode.FindParent | p3/kern/lib_life_cycle/vanish.c:234-257 | the parent on pcb_list is found, or the orphan's link is initialised again and init is the target |
| TaskLifeCode.ReportDeath | p3/kern/lib_life_cycle/vanish.c:263-285 | the dead task goes to the first waiter or, with a link that is free and not dangling, on the vanished list |
| TaskLifeCode.Act | p3/kern/lib_life_cycle/vanish.c:151-287 | any step of any thread, on control blocks and lists in the heap, is the protocol's step; no affirm fails, no freed block or dangling link is used, and the invariant is kept |
| TaskLifeTheorems.StepInv | p3/kern/lib_life_cycle/vanish.c:151-287 | every step of every thread keeps the invariant and panics nowhere |
| TaskLifeTheorems.NeverPanics | p3/kern/lib_life_cycle/wait.c:68-79 | no affirm of fork, wait or vanish fails under any interleaving |
| TaskLifeTheorems.ExactlyOnePlace | p3/kern/lib_life_cycle/vanish.c:151-287 | every pid given out is live, carried by its last thread, on a vanished list, collected, or reaped: exactly one of these |
| TaskLifeTheorems.SoleHolder | p3/kern/lib_life_cycle/wait.c:47-103 | one carrier, one list, one collector at most; a list names a task once and wait frees it once |
| TaskLifeTheorems.OnlyWaitFrees | p3/kern/lib_life_cycle/wait.c:101-103 | a task disappears only when its collector frees it, and then exactly that task |
| TaskLifeTheorems.WaitersCovered | p3/kern/lib_life_cycle/wait.c:51-65 | with the mutex free counters are list lengths, waiters never outnumber active children, and a task other than init never keeps a dead child beside a waiter |
| TaskLifeTheorems.ActiveExact | p3/kern/lib_life_cycle/fork.c:135-140 | the active list is exactly the linked children that have not reported their death |
| TaskLifeTheorems.NoWaiterStranded | p3/kern/lib_life_cycle/vanish.c:263-285 | when all children have reported no thread of the task is blocked in wait |
| TaskLifeTheorems.TransferServesOne | p3/kern/lib_life_cycle/vanish.c:199-229 | a transfer leaves init's waiters served if and only if there was at most one waiter or one child |
| TaskLifeLimits.TransferLeavesBoth | p3/kern/lib_life_cycle/vanish.c:213-228 | a run from the first task on after which a transfer leaves one of init's waiters beside an orphan |
| TaskLifeTheorems.RunServes | p3/kern/lib_life_cycle/vanish.c:199-285 | while every transfer meets that guard init never keeps a dead child beside a waiter |
| TaskLifeOutcomes.WaitOutcome | p3/kern/lib_life_cycle/wait.c:46-76 | under its task's mutex wait returns -1 with all lists as they were exactly when no dead child is there and waiters are as many as active children; it blocks behind the other waiters when they are fewer, and otherwise takes the child that died first; the mutex is free afterwards |
| TaskLifeOutcomes.CollectOutcome | p3/kern/lib_life_cycle/wait.c:77-104 | wait returns the child it was given, and of that task and its threads nothing is left |
| TaskLifeOutcomes.SpawnOutcome | p3/kern/lib_life_cycle/thread_fork.c:20-103 | a new thread of the task is ready to run; the call waits for the task's mutex only |
| TaskLifeOutcomes.ForkOutcome | p3/kern/lib_life_cycle/fork.c:66-98 | fork is refused exactly to a task of several threads; otherwise a task with a pid and a thread with a tid never used before exist |
| TaskLifeOutcomes.LinkOutcome | p3/kern/lib_life_cycle/fork.c:135-140 | the child joins the end of its parent's active list and the mutex is free |
| TaskLifeOutcomes.ForkEnds | p3/kern/lib_life_cycle/fork.c:149-161 | the child's thread can run and the parent is back from fork |
| TaskLifeOutcomes.LeaveOutcome | p3/kern/lib_life_cycle/vanish.c:157-190 | a thread that is not the last is dead; the last one takes the task off the list of live ones and clears its active children; both locks are free |
| TaskLifeOutcomes.SiblingsOutcome | p3/kern/lib_life_cycle/vanish.c:192-201 | all other threads of the task are gone, and the way leads by init exactly when there are dead children |
| TaskLifeOutcomes.HandOverOutcome | p3/kern/lib_life_cycle/vanish.c:199-229 | init's dead children are followed by the task's, in order, and the first of all goes to the first waiting thread of init, which can run |
| TaskLifeOutcomes.TargetOutcome | p3/kern/lib_life_cycle/vanish.c:231-251 | the parent is told while it is alive, init otherwise |
| TaskLifeOutcomes.EnterOutcome | p3/kern/lib_life_cycle/vanish.c:234-257 | with the target's mutex the tree is unlocked, and the task is on no active list any more |
| TaskLifeOutcomes.ReportOutcome | p3/kern/lib_life_cycle/vanish.c:263-286 | the dead task is the child of the first waiter, which can run, or the last on the list of dead children; its last thread is dead and the mutex free |
| TaskLifeOutcomes.LockOutcome | p3/kern/lib_life_cycle/vanish.c:157-159 | a thread at a lock gets it exactly when it is free |
| TaskLifeProgress.NoDeadlock | p3/kern/lib_life_cycle/vanish.c:151-287 | while any call is under way some thread can go on in its own, whatever locks are held |
| TaskLifeProgress.EveryCallEnds | p3/kern/lib_life_cycle/vanish.c:151-287 | under every interleaving the calls under way take a bounded number of steps; when no step is left all locks are free, every thread is back, asleep in wait or dead, and sleepers are covered by running children |
| TaskLifeProgress.Settle | p3/kern/lib_life_cycle/vanish.c:151-287 | from every state the calls under way can be brought to their end |
| TaskLifeCalls.RefusedWaitReturns | p3/kern/lib_life_cycle/wait.c:46-64 | the whole call of wait by a task without children to wait for returns and changes nothing |
| TaskLifeCalls.WaitReturnsDeadChild | p3/kern/lib_life_cycle/wait.c:46-104 | the whole call of wait with a dead child returns the one that died first, and nothing is left of it |
| TaskLifeCalls.WaiterReturnsChild | p3/kern/lib_life_cycle/vanish.c:263-273 | a dying task with its target's mutex makes the wait of the first waiter return it |
| SchedulerHeap.Kernel.OffIsFree | p3/kern/scheduler.c:85-105 | a thread is on none of the machine's queues exactly when its link is in no queue of the heap |
| SchedulerHeap.Kernel.SeesQueue | p3/kern/variable_queue.h:393-399 | the pointer test on a thread's link decides what the machine says: queued, and not alone there |
| SchedulerCode.RunChosen | p3/kern/scheduler.c:165-174 | the pointer test takes the chosen thread off the runnable queue exactly when the machine does |
| SchedulerCode.ScanTurn | p3/kern/lib_thread_management/sleep.c:86-99 | the walk goes on from the pointer read before the sleeper left the queue, and that pointer is the next sleeper |
| SchedulerCode.Act | p3/kern/scheduler.c:116-176 | any step, on control blocks, mutexes and queues in the heap, is the machine's step; no queue macro is misused, no affirm about the scheduler's data fails, and the invariant survives exactly unless a thread yields to itself alone |
| SchedulerTheorems.StepKeepsIff | p3/kern/scheduler.c:162-176 | a step keeps the invariant if and only if it is not a yield to oneself with an empty queue; no affirm fails either way |
| SchedulerSteps.SelfYieldBreaks | p3/kern/scheduler.c:380-385 | after such a yield the running thread is on the runnable queue |
| SchedulerLimits.InitialSelfYield | p3/kern/scheduler.c:380-385 | the first thread, alone, yields to itself and is on the runnable queue while it runs |
| SchedulerTheorems.RunInv | p3/kern/scheduler.c:116-281 | the invariant over every run without such a yield, ticks and preemption anywhere |
| SchedulerTheorems.OneLinkOneQueue | p3/kern/scheduler.c:85-176 | a thread is running, runnable, asleep or on one mutex's queue, one of these at most and once; the running thread is on none |
| SchedulerTheorems.RunnableMeansQueued | p3/kern/scheduler.c:85-105 | apart from the running thread RUNNABLE is the same as being on the runnable queue |
| SchedulerOutcomes.MakeRunnableOutcome | p3/kern/lib_thread_management/make_runnable.c:18-29 | a descheduled thread runs at once, with its caller RUNNABLE at the end of the runnable queue; for any other thread nothing changes |
| SchedulerOutcomes.DescheduleOutcome | p3/kern/lib_thread_management/deschedule.c:20-29 | the caller is DESCHEDULED on no queue and the front of the runnable queue runs; without one the kernel stops |
| SchedulerOutcomes.DescheduledRunsAgain | p3/kern/lib_thread_management/make_runnable.c:18-29 | deschedule and the next thread's make_runnable of it bring the caller back |
| SchedulerOutcomes.YieldOutcome | p3/kern/lib_thread_management/yield.c:22-25 | the caller queues behind everybody and the first of the queue runs, the caller itself when alone |
| SchedulerOutcomes.YieldToOutcome | p3/kern/lib_thread_management/yield.c:26-33 | a RUNNABLE thread runs ahead of the others, who keep their order; a yield to any other thread changes nothing |
| SchedulerOutcomes.YieldToSelfOutcome | p3/kern/lib_thread_management/yield.c:26-33 | a yield to oneself leaves the queue as it is, unless it is empty: then the runner is on it |
| SchedulerOutcomes.PreemptOutcome | p3/kern/scheduler.c:348-358 | the scheduler's tick goes round the runnable queue |
| SchedulerOutcomes.StartOutcome | p3/kern/scheduler.c:262-275 | a new thread goes to the end of the runnable queue and its creator runs on |
| SchedulerTheorems.BlockedMeansStored | p3/kern/lib_thread_management/mutex.c:130-139 | BLOCKED is the same as being on a mutex's queue, asleep, parked, or carried by the one thread about to wake it |
| SchedulerTheorems.MutexExclusion | p3/kern/lib_thread_management/mutex.c:54-146 | whoever is between lock and unlock is the owner and alone; threads get the mutex in the order they were queued |
| SchedulerTheorems.ResumesAsOwner | p3/kern/lib_thread_management/mutex.c:91-95 | a thread that blocked in mutex_lock comes back only as the owner |
| SchedulerOutcomes.LockOutcome | p3/kern/lib_thread_management/mutex.c:71-89 | a free mutex is the caller's at once, another thread's mutex is found owned, and only an owner locking again is refused |
| SchedulerOutcomes.LockBlocksOutcome | p3/kern/lib_thread_management/mutex.c:89-91 | the caller is BLOCKED behind the other waiters, the mutex otherwise as it was, and the next thread runs |
| SchedulerOutcomes.LockReturnsOutcome | p3/kern/lib_thread_management/mutex.c:91-96 | when it runs again it is the owner and alone inside |
| SchedulerOutcomes.UnlockOutcome | p3/kern/lib_thread_management/mutex.c:127-146 | a mutex nobody waits for is free, another is the first waiter's, in the order of the queue |
| SchedulerOutcomes.WakingOutcome | p3/kern/lib_thread_management/mutex.c:136-139 | the new owner runs at once and the unlocker queues behind everybody |
| SchedulerOutcomes.UnlockLetsFirstIn | p3/kern/lib_thread_management/mutex.c:109-146 | an unlock makes the mutex_lock of the thread that waited longest return |
| SchedulerOutcomes.WaitOutcome | p3/kern/lib_life_cycle/wait.c:57-58 | the thread that blocks in wait releases its task's mutex, whose first waiter becomes owner and RUNNABLE |
| SchedulerOutcomes.VanishUnlocksOutcome | p3/kern/lib_life_cycle/vanish.c:283-285 | a thread that dies with a mutex in hand releases it the same way |
| SchedulerOutcomes.VanishWakesOutcome | p3/kern/lib_life_cycle/vanish.c:272-273 | a dying thread makes the waiting thread it assigned a child to RUNNABLE, behind the first waiter of the mutex |
| SchedulerTheorems.GapLeavesWaiter | p3/kern/lib_thread_management/mutex.c:79-91 | the block leaves a waiter on a free mutex if and only if the owner unlocked in the gap |
| SchedulerRuns.RunWaitersOwned | p3/kern/lib_thread_management/mutex.c:79-145 | without that a mutex with waiters is owned in every state of the run |
| SchedulerLimits.LostWaiter | p3/kern/lib_thread_management/mutex.c:79-91 | a run of two threads that ends with a waiter on a free mutex |
| SchedulerRuns.NextMovesUp | p3/kern/scheduler.c:85-105 | a queued thread never moves back, moves up with each get_next_run, and leaves the queue only to run |
| SchedulerRuns.BoundedWaiting | p3/kern/scheduler.c:154-174 | a thread at index k is dispatched by the (k+1)-th get_next_run at the latest, under any mix of steps |
| SchedulerTheorems.SkippedTickSkipsNobody | p3/kern/lib_thread_management/sleep.c:74-77 | a tick before the cached date finds no sleeper whose time has come |
| SchedulerTheorems.ScanWakesExactly | p3/kern/lib_thread_management/sleep.c:79-104 | a scan wakes exactly the sleepers with date up to its tick, in order, and leaves the index exact if and only if no such date was stored between the reset and the lock |
| SchedulerDates.SleepOutcome | p3/kern/lib_thread_management/sleep.c:121-134 | sleep stores the tick count plus its argument exactly when the sum fits an unsigned int, changes nothing for an argument that is not positive, and goes on to lock sleep_mux |
| SchedulerDates.DateInThePastIff | p3/kern/lib_thread_management/sleep.c:127-129 | for an int argument the date lies in the past if and only if the sum does not fit |
| SchedulerDates.FallsAsleep | p3/kern/lib_thread_management/sleep.c:134-155 | the caller is BLOCKED at the end of the sleep queue, the cached date takes its date into account, and sleep_mux is released to its first waiter |
| SchedulerDates.NeverWakesEarly | p3/kern/lib_thread_management/sleep.c:64-138 | over every run after sleep(k) at tick T, when the sum fits and nobody yields to itself alone, the caller has not come back, or a scan at a tick of at least T + k took it off the queue |
| SchedulerDates.TickScans | p3/kern/lib_thread_management/sleep.c:70-83 | a tick at or after the cached date scans the queue unless a scan is under way |
| SchedulerDates.TickPasses | p3/kern/scheduler.c:348-358 | any other tick goes round the runnable queue when it is a multiple of WAIT_TICKS and does nothing else |
| SchedulerDates.ScanTurnOutcome | p3/kern/lib_thread_management/sleep.c:86-99 | the sleeper looked at leaves the queue exactly when its date has come; otherwise the cached date takes its date into account |
| SchedulerDates.ScanWakesOutcome | p3/kern/lib_thread_management/sleep.c:91-93 | the sleeper taken off runs at once and the interrupted thread queues behind everybody |
| SchedulerDates.ScanUnlocksOutcome | p3/kern/lib_thread_management/sleep.c:100-103 | at its end the scan releases sleep_mux to the thread that waited longest |
| SchedulerSleep.EndIs | p3/kern/lib_thread_management/sleep.c:83-103 | the same at the level of the queue and its dates |
| SchedulerRuns.RunIndexExact | p3/kern/lib_thread_management/sleep.c:79-155 | without such stores the index is the minimum of the queue whenever no scan is in its window |
| SchedulerLimits.StaleIndex | p3/kern/lib_thread_management/sleep.c:79-84 | a run of three threads that ends with an empty queue and a stale date |
| PhysAlloc.TakeIs | p3/kern/lib_memory_management/physalloc.c:116-144 | a free frame becomes a used one, or none is free; no other frame changes hands |
| PhysAlloc.PutIs | p3/kern/lib_memory_management/physalloc.c:157-190 | a used frame becomes free, or lost when the stack is full and cannot grow |
| PhysAlloc.Conserved | p3/kern/lib_memory_management/physalloc.c:79-83 | used, free and lost frames partition the machine's user frames and num_free_phys_frames counts the free ones |
| PhysAlloc.Allocator.Physalloc | p3/kern/lib_memory_management/physalloc.c:116-144 | the array and the bump pointer implement the allocation |
| PhysAlloc.Allocator.Physfree | p3/kern/lib_memory_management/physalloc.c:157-190 | the push, with the array copied to one of twice the size when it is full |
| PhysAlloc.Allocator.IsPhysframe | p3/kern/lib_memory_management/physalloc.c:60-72 | true of frames given out so far and of the next one |
| PhysAlloc.Allocator.NumFreePhysFrames | p3/kern/lib_memory_management/physalloc.c:79-83 | the number of frames physalloc can still give |
| PageTable.PackUnpack | p3/kern/memory_manager_internal.h:16-47 | a word keeps frame, permission bits and mark |
| PageTable.IndexInjective | p3/kern/inc/memory_manager.h:21-35 | different pages have different slots |
| PageTable.IndexSplit | p3/kern/inc/memory_manager.h:21-35 | directory and table index of an address are its upper two ten-bit fields |
| PageTable.PageDir.IsAllocated | p3/kern/memory_manager.c:515-532 | true exactly of pages with a present entry |
| PageTable.PageDir.AddNewPt | p3/kern/memory_manager.c:719-760 | a table is added only where none was, and no page's entry changes |
| PageTable.PageDir.SetEntry | p3/kern/memory_manager.c:774-810 | a write through the entry pointer changes that page only |
| PageTable.PageDir.IsValidPt | p3/kern/lib_memory_management/is_valid_pd.c:21-117 | the loop decides the validity of every entry of a table |
| PageTable.PageDir.IsValidPd | p3/kern/lib_memory_management/is_valid_pd.c:124-170 | the two loops decide the validity of every page's entry |
| VmProofs.NextKeeps | p3/kern/memory_manager.c:137-244 | every operation, whatever its result, keeps frame ownership, shape and cache coherence |
| VmProofs.RunsKeptIff | p3/kern/memory_manager.c:226-235 | an operation keeps the marks of runs of pages in order if and only if it is not a write that unmaps the middle of one for want of a frame |
| VmTheorems.RunInv | p3/kern/memory_manager.c:137-1147 | ownership, shape and coherence over every run of operations, frames exhausted or not |
| VmTheorems.RunsStayWhole | p3/kern/memory_manager.c:137-1147 | the marks of all runs of pages stay in order over every run without such a write |
| VmTheorems.OneOwner | p3/kern/memory_manager.c:829-886 | a frame other than the zero frame is mapped at one page of one directory at most and is neither free nor lost |
| VmTheorems.FramesConserved | p3/kern/lib_memory_management/physalloc.c:60-190 | mapped frames plus num_free_phys_frames plus lost ones are constant |
| VmTheorems.ZeroFrameSafe | p3/kern/memory_manager.c:989-993 | the zero frame is never writable and holds zeros |
| VmTheorems.DirectoriesValid | p3/kern/lib_memory_management/is_valid_pd.c:55-100 | every user entry of a reachable state is as is_valid_pt demands |
| VmTheorems.TablesValidIff | p3/kern/lib_memory_management/is_valid_pd.c:124-170 | tables that hold a reachable address space are valid if and only if page 0 was not mapped by a range past the end |
| VmTables.CheckDirectory | p3/kern/lib_memory_management/is_valid_pd.c:124-170 | the loops over the arrays answer, for the directory of a reachable address space, whether page 0 is unmapped |
| VmTables.MapZeroFrame | p3/kern/memory_manager.c:936-998 | the entry written in the arrays is the page the address space gains |
| VmTables.ClearRun | p3/kern/lib_memory_management/remove_pages.c:78-87 | the loop over the arrays' marks clears exactly the pages of the run |
| VmTheorems.CacheCoherent | p3/kern/memory_manager.c:156-159 | no cached user translation differs from a walk of the current directory |
| VmTheorems.NewPagesMakesRun | p3/kern/lib_memory_management/new_pages.c:77-105 | new_pages makes a marked run, whatever lies beside it, and changes nothing else |
| VmTheorems.NewPagesMakesRunIff | p3/kern/lib_memory_management/new_pages.c:77-105 | it does so in any directory if and only if the page after the range is not left over from a broken run |
| VmTheorems.RemovePagesUnmapsRun | p3/kern/lib_memory_management/remove_pages.c:59-90 | remove_pages of a run's base unmaps exactly the run and frees exactly its frames |
| VmTheorems.NewThenRemove | p3/kern/lib_memory_management/remove_pages.c:28-94 | remove_pages undoes new_pages: pages, frames and cached translations |
| VmTheorems.RunKept | p3/kern/lib_memory_management/remove_pages.c:78-87 | a run survives all other operations beside it |
| VmTheorems.RemoveUndoesNew | p3/kern/lib_memory_management/remove_pages.c:59-90 | whatever ran in between, in whatever directories, remove_pages unmaps exactly the pages of its new_pages, unless a write to one of them found no frame or the directory was freed |
| VmTheorems.AllOrNothing | p3/kern/lib_memory_management/new_pages.c:55-108 | on failure no page changes, on success exactly the requested ones; no frame is taken either way |
| VmOutcomes.NewPagesAnswers | p3/kern/lib_memory_management/new_pages.c:34-108 | new_pages succeeds only for whole pages of user memory, none of them mapped and no more than there are free frames; with the page tables there it succeeds exactly then, and a failure moves nothing |
| VmOutcomes.NewPagesMaps | p3/kern/lib_memory_management/new_pages.c:77-105 | each page of the range is on the zero frame, read-only, base or continuing; every other page and every content is as before |
| VmOutcomes.RemovePagesAnswers | p3/kern/lib_memory_management/remove_pages.c:28-58 | remove_pages succeeds exactly on the page-aligned base of a run, and changes nothing otherwise |
| VmOutcomes.RemovePagesUnmaps | p3/kern/lib_memory_management/remove_pages.c:59-90 | the base and the pages that continue it are gone and exactly their frames are in use no longer |
| VmOutcomes.ReadAnswers | p3/kern/lib_memory_management/pagefault_handler.c:131-139 | a read gives the byte of a mapped page and faults elsewhere |
| VmOutcomes.WriteAnswers | p3/kern/memory_manager.c:193-244 | a write succeeds exactly into a writable page, or into one on the zero frame while a frame is free |
| VmOutcomes.WriteWrites | p3/kern/memory_manager.c:193-244 | its byte is read back, every other byte and page is as before, and a page that was on the zero frame is on a frame that was free |
| VmOutcomes.WriteFaults | p3/kern/memory_manager.c:226-235 | a write that fails changes nothing, unless the page was on the zero frame and no frame was left: then exactly that page is unmapped |
| VmOutcomes.AllocateFrameAnswers | p3/kern/memory_manager.c:829-886 | an absent page can be had while a frame is free; a page that is there must have the permission asked for |
| VmOutcomes.AllocateFrameMaps | p3/kern/memory_manager.c:870-886 | the page is mapped on a free frame with the permission asked for, and nothing else changes |
| VmOutcomes.ValidEntryIff | p3/kern/lib_memory_management/is_valid_pd.c:55-100 | is_valid_pt accepts in a user table exactly present, local entries on the zero frame, a frame physalloc has handed out, or the next one |
| VmTheorems.WrapRefused | p3/kern/lib_memory_management/new_pages.c:66-75 | a range that goes further than one page past the last meets an allocated kernel page |
| VmTheorems.NullMappedIff | p3/kern/lib_memory_management/new_pages.c:66-105 | page 0 comes to be mapped exactly by a granted range that ends one page past the last |
| VmTheorems.NullIsMapped | p3/kern/lib_memory_management/new_pages.c:66-105 | in the first address space such a call is granted |
| VmLimits.WriteBreaksRun | p3/kern/memory_manager.c:226-235 | five calls of a program on a machine with two user frames after which a page continues nothing |
| VmTheorems.ForkCopies | p3/kern/memory_manager.c:311-417 | each page of the child has the parent's content and flags on a frame nobody mapped; the parent is unchanged |
| VmTheorems.ForkWritability | p3/kern/memory_manager.c:400-403 | a copied page may be written as the original may if and only if the original had a frame of its own |
| VmTheorems.ForkFails | p3/kern/memory_manager.c:372-378 | a fork that fails gives back every frame and table and leaves all contents alone |
| VmOutcomes.ForkAnswers | p3/kern/memory_manager.c:311-417 | fork's copy succeeds if and only if there is a frame for every page of the parent and kernel memory for directory, buffer and page tables |
| VmOutcomes.ForkTakes | p3/kern/memory_manager.c:368-378 | it takes one frame for each page of the parent |
| VmOutcomes.FreeDirOutcome | p3/kern/memory_manager.c:1094-1147 | exactly the frames its pages were on are in use no longer, and no other directory changes |
| VmLazy.EagerIsMemory | p3/kern/memory_manager.c:193-244 | the reference address space reads back the last write and changes nothing else |
| VmLazy.EagerNewIsZero | p3/kern/memory_manager.c:989-993 | its new pages read as 0 |
| VmLazy.LazyRefinesEager | p3/kern/memory_manager.c:193-244 | each operation answers as if frames were assigned and zeroed at once, if and only if it is not a write that finds no frame |
| VmLazy.RunRefinesEager | p3/kern/memory_manager.c:193-244 | so do all reads, writes, new_pages and remove_pages of a run while frames last |
| VmCode.MemoryManager.UnallocateFrame | p3/kern/memory_manager.c:137-160 | the page is gone from tables and cache and its frame is given back unless it is the zero frame |
| VmCode.MemoryManager.AllocateFrame | p3/kern/memory_manager.c:829-886 | a free frame is mapped with the flags, or the flags of the page there are compared |
| VmCode.MemoryManager.AllocateRegionPage | p3/kern/memory_manager.c:1045-1050 | one turn of the loop over a segment is the specified mapping with the segment's permission, and the cache needs no flush |
| VmCode.MemoryManager.AllocateUserZeroFrame | p3/kern/memory_manager.c:936-998 | the page is on the zero frame, read-only and marked; fails when mapped or without a table |
| VmCode.MemoryManager.AnyAllocated | p3/kern/lib_memory_management/new_pages.c:66-75 | the loop finds an allocated page of the range if there is one |
| VmCode.MemoryManager.MayFill | p3/kern/lib_memory_management/new_pages.c:34-75 | the checks let through exactly whole pages of user memory that are all unmapped and no more than there are free frames |
| VmCode.MemoryManager.RollBack | p3/kern/lib_memory_management/new_pages.c:97-101 | the inner loop restores the directory and takes no frame |
| VmCode.MemoryManager.Fill | p3/kern/lib_memory_management/new_pages.c:77-105 | the loop maps all pages or, after its rollback, none |
| VmCode.MemoryManager.NewPages | p3/kern/lib_memory_management/new_pages.c:28-109 | the code is the specified operation for every range: a success means the range was grantable, and a failure with the page tables there that it was not |
| VmCode.MemoryManager.RemoveRest | p3/kern/lib_memory_management/remove_pages.c:78-87 | the loop ends and has removed exactly the pages that continue the run |
| VmCode.MemoryManager.RemovePages | p3/kern/lib_memory_management/remove_pages.c:28-94 | the code is the specified operation |
| VmCode.MemoryManager.ZeroPagePfHandler | p3/kern/memory_manager.c:193-244 | a page on the zero frame gets a zeroed frame of its own with its mark; without a frame it is unmapped |
| VmCode.MemoryManager.UserRead | p3/kern/lib_memory_management/pagefault_handler.c:131-139 | a read through any cached translation returns the tables' content, else faults |
| VmCode.MemoryManager.UserWrite | p3/kern/lib_memory_management/pagefault_handler.c:131-161 | a write, with at most one repaired fault, is the specified operation |
| VmForkCode.FreePtMemory | p3/kern/memory_manager.c:1094-1121 | every entry of the table is cleared and its frame given back |
| VmForkCode.FreePdMemory | p3/kern/memory_manager.c:1128-1147 | all user pages are gone and exactly their frames are given back |
| VmForkCode.CopyThroughBuffer | p3/kern/memory_manager.c:393-398 | the child's frame has the parent's content after two directory switches, and nothing else changed |
| VmForkCode.CopyPage | p3/kern/memory_manager.c:368-403 | one page is copied to a new frame and then gets the parent's flags |
| VmForkCode.CopyTable | p3/kern/memory_manager.c:359-408 | the inner loop copies the pages of a table up to the first that finds no frame |
| VmForkCode.GiveUp | p3/kern/memory_manager.c:372-378 | the cleanup leaves nothing of the child |
| VmForkCode.NewPdFromParent | p3/kern/memory_manager.c:311-417 | the code is the specified copy, and fails exactly when a frame or a page of kernel memory is missing on the way |
| VmForkCode.FreeDirectory | p3/kern/lib_life_cycle/vanish.c:109-130 | a dead task's directory and all its frames are gone |
| TicketProofs.StepInv | p3/user/libthread/mutex.c:67-108 | every memory access of every thread keeps the invariant, for up to 2^31 threads |
| TicketMutex.FewTickets | p3/user/libthread/mutex.c:80-83 | at most two tickets a thread are out, so words never confuse tickets |
| TicketProofs.Exclusion | p3/user/libthread/mutex.c:80-106 | one thread at most is past the ticket wait and before serving++ |
| TicketProofs.OutstandingExact | p3/user/libthread/mutex.c:80-81 | the tickets out are exactly the numbers from serving to next_ticket - 1, each in one hand |
| TicketProofs.TicketOrder | p3/user/libthread/mutex.c:80-85 | the k-th thread to enter has ticket k |
| TicketProofs.OwnerHolds | p3/user/libthread/mutex.c:76-77 | a thread that reads its own tid in owner_tid holds the lock |
| TicketOutcomes.SpinOutcome | p3/user/libthread/mutex.c:80-83 | a thread leaves the loop exactly when every earlier ticket is done with |
| TicketOutcomes.SomebodyGetsIn | p3/user/libthread/mutex.c:80-85 | while tickets are out and nobody is inside, the thread whose turn it is gets in with its next access |
| TicketOutcomes.LockReturns | p3/user/libthread/mutex.c:67-86 | mutex_lock of an unused mutex returns with it, on one ticket |
| TicketOutcomes.UnlockReturnsIff | p3/user/libthread/mutex.c:96-108 | mutex_unlock leaves it unused, if and only if serving does not wrap |
| TicketOutcomes.ReentrantLockReturns | p3/user/libthread/mutex.c:76-77 | mutex_lock by a holder that finds its tid returns at once: no ticket is taken and nothing changes |
| TicketOutcomes.ReentryReturnsIff | p3/user/libthread/mutex.c:76-85 | a re-entrant call can return if and only if no late unlock has overwritten owner_tid |
| TicketOutcomes.StuckForEver | p3/user/libthread/mutex.c:80-83 | otherwise the holder waits for its own unlock, and over every run neither it nor anybody else gets in again |
| TicketProofs.OwnerAffirmIff | p3/user/libthread/mutex.c:100-102 | the first affirm of mutex_unlock fails if and only if a late unlock overwrote owner_tid |
| TicketProofs.OwnerWholeTurn | p3/user/libthread/mutex.c:85-107 | if no unlock is under way when a thread stores its tid, its own unlock finds itself |
| TicketProofs.LockedAffirmIff | p3/user/libthread/mutex.c:103-104 | the second affirm fails if and only if next_ticket has wrapped and serving has not |
| TicketLimits.LateClearFails | p3/user/libthread/mutex.c:106-107 | a run of two threads from a new mutex after which the holder's unlock fails |
| TicketLimits.OwnerSpoiledIff | p3/user/libthread/mutex.c:85-107 | a thread about to store its tid can lose it to another's unlock if and only if an unlock has its last store still to do |
| TicketLimits.MutexWearsOut | p3/user/libthread/mutex.c:103-106 | no run has 2^32 successful unlocks, because the affirm of the 2^32nd always fails |
| TicketLimits.LastUnlockFails | p3/user/libthread/mutex.c:103-104 | a run of one thread gets there |
| TicketCode.Mutex.Act | p3/user/libthread/mutex.c:67-108 | one access of one thread, on 32-bit words that wrap, is the step of the protocol whose tickets do not, and keeps its invariant |
| SemaphoreBalance.CountIsBalance | p3/user/libthread/sem.c:68-133 | over every run no affirm fails and the count, never negative, is the initial count plus the calls of sem_signal that have got as far as the increment minus the calls of sem_wait that have returned; calls are counted from the actions of the run |
| SemaphoreBalance.CountWhenQuiet | p3/user/libthread/sem.c:68-133 | with every thread back from its calls the count is the initial count plus the calls of sem_signal minus those of sem_wait |
| SemaphoreBalance.WaitReturns | p3/user/libthread/sem.c:77-91 | sem_wait takes one from a positive count and returns |
| SemaphoreBalance.WaitSleeps | p3/user/libthread/cond.c:104-147 | with a count of 0 the caller ends asleep at the end of the queue, with both mutexes free |
| SemaphoreBalance.SignalReturns | p3/user/libthread/sem.c:118-133 | sem_signal with nobody queued adds one and returns |
| SemaphoreBalance.SignalThenWait | p3/user/libthread/sem.c:68-133 | a signal on an empty semaphore lets one sem_wait through |
| SemaphoreBalance.SignalLetsFirstThrough | p3/user/libthread/cond.c:163-207 | a signal lets the thread that has slept longest come back from sem_wait, and the two cancel out |
| Semaphore.NoLostWakeup | p3/user/libthread/sem.c:77-85 | while a thread waits on the queue each unit of the count has a woken thread on its way, in spite of barging |
| Semaphore.SleeperIsQueued | p3/user/libthread/cond.c:136-141 | a sleeping thread is on the queue or still being woken by the signaller that took it off |
| SemaphoreLimits.JammedForever | p3/user/libthread/cond.c:185-188 | once the thread to be woken has read the flag without sleeping, no run of any threads frees the semaphore's mutex |
| SemaphoreLimits.SignalReturnsIff | p3/user/libthread/cond.c:185-188 | with a thread taken off the queue sem_signal can still return if and only if that thread is asleep |
| SemaphoreLimits.PopSettles | p3/user/libthread/cond.c:168-188 | that is settled when the node is taken off the queue |
| SemaphoreLimits.SignalHangs | p3/user/libthread/cond.c:136-188 | a run of two threads from a new semaphore after which sem_signal never returns |
| Semaphore.RunInv | p3/user/libthread/cond.c:104-207 | the invariant over every run |
| SemaphoreCode.Sem.Act | p3/user/libthread/cond.c:104-207 | one step, on nodes linked in the heap, is the specified step; a node is off the queue when its call of cond_wait ends and is not used afterwards; no affirm fails from a count that is not negative |
| ArgStack.Fits | p3/kern/loader.c:170-197 | all slots are word-aligned, inside the two pages and disjoint |
| ArgStack.ReadsArgc | p3/kern/loader.c:206-218 | argc, argv and the stack's bounds are where _main looks for them |
| ArgStack.ReadsBack | p3/kern/loader.c:180-204 | every argument string reads back through its pointer and a null pointer follows the last |
| ArgStack.StoreString | p3/kern/loader.c:185-197 | one slot has the string padded with zeros and no other byte changes |
| ArgStack.ConfigureStack | p3/kern/loader.c:167-227 | every store is inside the stack, the result is laid out so that it reads back, and esp is aligned |

## Left out

- fork and thread_fork failing for want of memory, exit status and task names: the protocol model creates control blocks that exist.
- init is assumed never to vanish, and one init task is modelled.
- A vanishing thread that is not the last unlocks and is DEAD in one step, and thread_fork takes and releases its task's mutex in one step.
- The locks of fork, wait and vanish are modelled by their owner; the kernel mutex itself is modelled in the scheduler part.
- The unlock and wake-up of an init thread inside the transfer of orphans run with interrupts enabled in the source; here they are one step.
- make_runnable's test of the status and its call of the scheduler are one step, as its comment claims.
- Start-up before there are several threads, the readline queue, and the callers of the scheduler other than the ones named are not part of this model; threads blocked on other lists are the set `parked`.
- Panics a caller can cause (no runnable thread left, locking a mutex one owns, unlocking another's, 2^32 ticks) end a run; that the tick path avoids them is not claimed.
- The preemption that follows a scan may happen at any later time, and at any time at all.
- The page-directory class works on decoded entries; the coding of an entry in a word is proved apart from it. new_pages and remove_pages as a whole run on address spaces that are maps; `VmTables.dfy` proves their writes and loops on the arrays.
- Page faults and page operations of threads of one task are not interleaved.
- SchedulerCode.Act: does not model the validity checks of user pointers in deschedule and wait.
- TaskLifeCode.FreeAffirms: does not speak of the links of the scheduler and of the hash map; the scheduler's link is the business of SchedulerTheorems.OneLinkOneQueue.
- The pointers a thread keeps on its kernel stack inside fork and vanish are kept by number, and a thread's place in them is a field of its control block.
- VmCode.MemoryManager.RollBack: frames are never taken by the pages it removes, so it cannot lose any.
- PhysAlloc.Allocator.Physfree: requires the frame to be in use, as its comment does; a double free is not modelled.
- Machines with less than USER_MEM_START plus two pages, or with 4 GB, of memory.
- In cond_wait the test of should_wakeup and the deschedule after it are one step.
- The mutexes under the semaphore are exact owners, without the late store of the ticket mutex.
- mutex_destroy, cond_broadcast, sem_destroy and the reader-writer lock.
- ELF loading, exec, swexn, device drivers, context-switch frames, the hash map of threads and the kernel's malloc.
