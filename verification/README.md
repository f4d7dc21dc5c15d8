# AhuraRTOS: a verified model of the portable kernel

This project models the portable part of the AhuraRTOS kernel, and the commit step of its installer, in
Dafny, and proves what each part is for. `dafny verify dfyconfig.toml` checks it.

The kernel is one shared state changed only inside critical sections, so every critical section is one
atomic step; a run is any sequence of such steps by tasks, interrupts, the tick and the context switch.

* `KernelState.dfy` says what every critical section of os_task.c, os_task_mutex.c, os_mutex.c, os_sem.c,
  os_queue.c and os_kernel.c does to that state, as functions. `Scheduler.dfy` is the kernel object: the
  same fields, updated in place by the source's statements and loops, each method proved to leave exactly
  the state its function describes; `Do` is their joint contract. What is proved of the functions is
  therefore true of the object.
* `Links`, `Operations`: control blocks and lists name each other exactly; what each operation touches.
  `Inheritance`, `InheritanceSteps`: chained priority inheritance as a fixpoint repaired by walking one
  chain. `Scheduling`, `Preemption`: buckets, bitmap and switch requests. `Waking`, `NoLostWakeups`: the
  blocking protocol, with barging and with woken tasks paused or deleted before they retry. `Timeouts`:
  the delay list names exactly the finite waits. `Deadlock`: the check is exact. `Runs`,
  `RunsInheritance`: all of it over whole runs. `Outcomes`, `TaskOutcomes`: what each call answers,
  exactly when, and what has become of its caller, of the woken and of everybody else, said apart from how
  it gets there. `Lifts`: how far a lock lifts, with a run. `Rotation`: who runs next, round robin and the
  quantum. `LockedScheduler`: the processor stays with the task that locked the scheduler. `Ledgers`:
  mutual exclusion, tokens and items over whole runs. `Ranges`, `TimerRanges`: the 32-bit words of waits
  and countdowns. `FullQueues`: a comment refuted.
* `DeltaList` (both delta lists against absolute deadlines), `Ticking` and `Tickless` (bulk announcement
  against single ticks), `TickOutcomes` (what a tick does to everybody), `Timers` and `TimerRuns` (timers,
  two-phase tick, submit pools as bounded queues), `TimerOutcomes` (when a timer fires, over whole runs);
  `TimerService.dfy` and `TimeBase.dfy` are the objects.
* `Heap` (the heap as the blocks that tile it) and `HeapStore` (the same on raw headers and free-list
  links), `Ring` and `MessageRing` (variable-length messages), `QueueRing` (fixed-size items), `Events`,
  `LogStream` and `LogText`, `IntrusiveList` (os_list.c on real pointers).
* `Dispatch` (saving and selecting as two steps on any number of cores), `Interlock` (the kernel lock and
  the tickless window), `TickMath` (against a counter stepped cycle by cycle), `Installer`.

Words used throughout: `View()` of an object is its whole state as a value; `Settled` means every task has
the priority inheritance owes it; `Safe` joins the no-lost-wakeup protocol, the scheduling invariant and
the delay-list invariant; `doing` is where a task's program counter stands, the blocking call it is inside
of. Arithmetic that can wrap in the source is written with its modulus.

Where code and documentation disagree, the model follows the code:

* doc/roadmap.md:21 says a queued task is not re-sorted when its priority changes, and
  template/os_config.h:143 calls inheritance single-level. The code re-sorts (kernel/os_task.c:2784-2791)
  and follows the chain (kernel/os_task_mutex.c:249-272); both are modelled and proved.
* kernel/os_queue.c:112 remarks that a full queue can hold no blocked receiver. It can
  (`FullQueues.FullWithReceiver`: capacity one, two receivers blocked, one send from an interrupt). A send
  that fills the queue leaves a receiver blocked if and only if two or more were
  (`FillingSendLeavesReceivers`), and a full queue holds none while fewer receivers than its capacity are
  woken and on their way (`FullAndFewWoken`). Nothing is lost by it: each stored item has such a receiver.
* os_mem_free is documented to ignore NULL, foreign and double-freed pointers. It ignores a pointer if and
  only if the eight bytes below do not read as a live header (`HeapStore.Allocator.Free`), and a second
  free right after the first is always ignored (`SecondFreeIsIgnored`). A foreign pointer whose bytes do
  read so is taken for a block, and then no division of the heap into blocks fits it any more
  (`ImpostorBreaksTheHeap`; `ForeignFreeHonoured` is a run). A caller can test the condition before the
  call.
* A task started (kernel/os_task.c:263-273) while its core stands between saving it and selecting the next
  is marked running, taken off its ready list, and runs nowhere until it is started again. `Dispatch`
  gives a reachable run and proves that this is the only way (`StartStrandsTheStale`,
  `OthersStrandNobody`); that no task executes on two cores holds regardless. On one core the two halves
  of PendSV are one step and it cannot happen.

## Model

| member | source | states |
|---|---|---|
| `Runs.EveryReachableStateIsSafe` | kernel/os_task.c:2429-2682 | Over every interleaving of task calls, interrupt calls, ticks and context switches: no wakeup is lost, no preemption is missed, ready lists, bitmap, waiter lists, owner lists and delay list name exactly the tasks whose control blocks say so |
| `Runs.StepIsSafe` | kernel/os_task.c:2429-2682 | Each single critical section, in every arm, keeps that invariant |
| `Runs.InitialIsSafe` | kernel/os_task.c:1785-1823 | The kernel as initialised satisfies it |
| `RunsInheritance.EveryReachableStateIsSettled` | kernel/os_task_mutex.c:56-314 | Over every run whose wait chains are acyclic and name at most 8 tasks: each task runs at the maximum of its base priority and of all tasks waiting on mutexes it owns, no more and no less |
| `RunsInheritance.StepSettles` | kernel/os_task_mutex.c:56-314 | Each critical section leaves every task at the priority inheritance owes it |
| `RunsInheritance.NoReachableDeadlock` | kernel/os_task_mutex.c:353-400 | If every unbounded wait was preceded by a negative check, no reachable state has a cycle of 8 or fewer mutexes made of unbounded waits |
| `Inheritance.EffectiveIsOwed` | kernel/os_task_mutex.c:292-314 | The maximum over first waiters is owed, and nothing else is: sorted lists make the head speak for the whole list |
| `Inheritance.RecomputeMovesTheGap` | kernel/os_task_mutex.c:249-272 | For any chain, long or cyclic: the walk settles every task it passes and leaves at most the task it stopped at unsettled |
| `Inheritance.RecomputeSettles` | kernel/os_task_mutex.c:249-272 | On a chain that ends within 8 links the walk settles everyone |
| `Inheritance.UnlinkSettles` | kernel/os_task_mutex.c:127-147 | A waiter that leaves its queue for any reason takes its boost with it, along the whole chain |
| `InheritanceSteps.MutexLockSettled` | kernel/os_mutex.c:93-225 | Whichever arm of the lock loop is taken - Outcomes.MutexLockOutcome says which - inheritance is exact afterwards |
| `InheritanceSteps.ReleaseSettled` | kernel/os_task_mutex.c:180-204 | Dropping a mutex drops exactly the boost it carried |
| `InheritanceSteps.AcquireSettled` | kernel/os_task_mutex.c:56-75 | A barging owner takes on the boost of those still queued |
| `InheritanceSteps.PrioritySetSettled` | kernel/os_task.c:591-634 | A new base priority takes effect here and along the chain |
| `Links.RankedSorts` | kernel/os_task.c:2502-2517 | Insertion keeps a waiter list in descending priority |
| `Links.RankedPlaces` | kernel/os_task.c:2502-2517 | The newcomer stands behind every waiter of at least its priority and in front of all others, who keep their order |
| `Links.ResortSorts` | kernel/os_task.c:2784-2791 | A waiter whose priority changed while queued is taken out and put back where it belongs |
| `Waking.SemGiveProtocol` | kernel/os_sem.c:72-99 | A given token is matched by a woken waiter whenever somebody waits |
| `Waking.SemTakeProtocol` | kernel/os_sem.c:113-182 | Whichever arm of a take is taken, from a task or an interrupt - Outcomes.SemTakeOutcome says which - no waiter is left behind an unclaimed token |
| `NoLostWakeups.QueueSendProtocol` | kernel/os_queue.c:57-171 | Every arm of a send, overwriting included, keeps both sides of the queue free of lost wakeups; nothing is assumed about receivers of a full queue |
| `NoLostWakeups.QueueReceiveProtocol` | kernel/os_queue.c:183-258 | Every arm of a receive keeps both sides |
| `NoLostWakeups.MutexLockProtocol` | kernel/os_mutex.c:93-225 | Whichever arm of the lock loop is taken, barging included, no wakeup of the mutex is lost |
| `NoLostWakeups.MutexUnlockProtocol` | kernel/os_mutex.c:235-317 | An unlocked mutex with waiters always has a woken task on its way |
| `NoLostWakeups.CompensateProtocol` | kernel/os_task.c:2673-2682 | A task paused or deleted between its wake and its retry hands the wake on |
| `NoLostWakeups.TimedOutProtocol` | kernel/os_mutex.c:205-217 | A wait that ran out takes no wake with it |
| `Runs.DepartSettlesAll` | kernel/os_mutex.c:205-217 | Settling the debt and closing the wait are two critical sections; whatever runs between them, the second finds nothing left to settle |
| `FullQueues.FullAndFewWoken` | kernel/os_queue.c:110-113 | A full queue holds no blocked receiver as long as fewer receivers than its capacity are woken and on their way |
| `FullQueues.FillingSendLeavesReceivers` | kernel/os_queue.c:77-91 | The send that fills the queue leaves a receiver blocked if and only if two or more were |
| `FullQueues.FullWithReceiver` | kernel/os_queue.c:110-113 | A reachable run: two receivers blocked, one send from an interrupt, a full queue with a receiver still queued |
| `Ledgers.MutualExclusion` | kernel/os_mutex.c:16-240 | Over any run acquisitions and releases of a mutex alternate, and each release is the last acquirer's - through barging, timeouts, priority changes, pauses and deletes |
| `Ledgers.StepMutex` | kernel/os_mutex.c:93-240 | A mutex changes hands only by a lock that found it free and by its holder's own unlock |
| `Ledgers.NothingMadeOrLost` | kernel/os_sem.c:72-182 | Over any run a semaphore's count is what it was plus successful gives less successful takes, never above its limit; a queue's likewise in slots, never above its capacity |
| `Outcomes.MutexLockOutcome` | kernel/os_mutex.c:93-225 | It waits if and only if somebody else holds the mutex, the scheduler is free and there is time left; then the caller sleeps in that list, in the delay list exactly for a bounded wait and due then, and the holder is at least as urgent. BUSY, timed out and OK each have their exact condition; a refused caller runs on, in no list, and nobody else is touched but for priorities |
| `Outcomes.SemTakeOutcome` | kernel/os_sem.c:113-182 | It waits if and only if there is no token and it may wait: a poll, an interrupt or a locked scheduler gets EMPTY at once; without a wait no list, delay or other task changes |
| `Outcomes.SemGiveOutcome` | kernel/os_sem.c:72-99 | Full at the limit, changing nothing; otherwise one token more, and the first waiter has left with the signal and stands behind its equals |
| `Outcomes.QueueSendAnswer` | kernel/os_queue.c:57-171 | Each status has its exact condition, the overwriting queue and the one without slots included |
| `Outcomes.QueueSendOutcome` | kernel/os_queue.c:57-171 | Stored: one item more, or as many, and the first receiver is on its way; waiting: asleep among the senders; refused: nothing has moved |
| `Outcomes.QueueReceiveAnswer` | kernel/os_queue.c:183-258 | Each status has its exact condition |
| `Outcomes.QueueReceiveOutcome` | kernel/os_queue.c:183-258 | Taken: one item fewer and the first sender is on its way; waiting: asleep among the receivers; refused: nothing has moved |
| `Lifts.LockLiftsTheChain` | kernel/os_task_mutex.c:85-114 | A contended lock lifts to the caller's priority not only the holder but every task the holder waits behind, up to eight mutexes further |
| `Lifts.LiftedThroughTwoLinks` | kernel/os_task_mutex.c:85-114 | A reachable run: three tasks, two mutexes, and a last lock that lifts both the holder and the task the holder waits for |
| `TaskOutcomes.MutexUnlockOutcome` | kernel/os_mutex.c:235-317 | Error when free, refused when another holds it, neither changing anything; otherwise free, off the caller's list, and the first waiter on its way |
| `TaskOutcomes.GiveUpOutcome` | kernel/os_mutex.c:205-217 | A wait that ran out: the caller goes on in no list and with no debt, and nobody else is touched |
| `TaskOutcomes.StartOutcome` | kernel/os_task.c:236-289 | Ready behind its equals and in no other list, its wait marked as signaled; a task that starts itself runs on |
| `TaskOutcomes.PauseOutcome` | kernel/os_task.c:298-407 | Refused exactly for service tasks and for the caller under the scheduler lock; otherwise suspended, in no list, an unused wake handed to the next waiter first |
| `TaskOutcomes.DeleteOutcome` | kernel/os_task.c:502-557 | Likewise, and then there is no such task |
| `TaskOutcomes.PrioritySetOutcome` | kernel/os_task.c:591-634 | The base priority is the one asked for, but a service task keeps its own; nothing else changes but effective priorities |
| `TaskOutcomes.WakeOutcome` | kernel/os_task.c:2639-2657 | A blocked task is ready behind its equals with its wait signaled; any other is left alone |
| `TaskOutcomes.SleepOutcome` | kernel/os_task.c:1096-1139 | Due in exactly the ticks asked for, or never; nobody else's wait changes; a call that may not sleep does nothing |
| `TaskOutcomes.TickOutcome` | kernel/os_task.c:976-1047 | For every task: ready and unlisted if it had no more ticks to go than have passed, exactly that many fewer if it had, and untouched if it did not sleep |
| `Preemption.PendSvKeeps` | kernel/os_task.c:1832-2019 | Save then select: the invariant holds again, and unless the scheduler is locked nothing ready outranks what comes out; which of several equals it is, Rotation.SwitchTakesTheHead says |
| `Rotation.SwitchTakesTheHead` | kernel/os_task.c:1878-1961 | The switch takes the task that has stood longest among the most urgent ready ones; every bucket loses nobody else, and a preempted runner goes to the end of its own |
| `Rotation.SwitchLeavesTheHighest` | kernel/os_task.c:1878-1961 | A runner that outranks every ready task keeps the processor and no bucket changes |
| `Rotation.SwitchIdles` | kernel/os_task.c:1916-2019 | Idle runs if and only if nobody can go on and nobody is ready |
| `Rotation.RoundRobin` | kernel/os_task.c:1883-1890 | Over any number of turns of tasks that only yield: after n switches the n-th of the peers runs, and after one switch each everything stands as at first |
| `Rotation.EachOnce` | kernel/os_task.c:1883-1890 | The peers are the running task and the ready ones of its priority, each once |
| `Rotation.ReschedulesExactly` | kernel/os_task.c:1515-1587 | True exactly when the scheduler is free and a ready task outranks the current one, or equals it once its quantum is spent |
| `Rotation.AnnouncePendsExactly` | kernel/os_tick.c:212-247 | A tick or an announcement pends a switch exactly then, the quantum being spent by as many ticks as it had left |
| `Rotation.SpentQuantumRotates` | kernel/os_task.c:1600-1612 | A spent quantum beside ready peers gives the processor to the one that has stood longest and puts the running task last |
| `Preemption.KernelUnlockKeeps` | kernel/os_kernel.c:315-349 | The outermost unlock re-issues the switch requests swallowed under the lock |
| `LockedScheduler.LockedSchedulerKeepsItsTask` | kernel/os_kernel.c:293-349 | From a lock to its outermost unlock the processor belongs to one task, over every run of interrupts, ticks, switches and calls, nested locks and wakes of more urgent tasks included |
| `LockedScheduler.LockedStep` | kernel/os_kernel.c:293-349 | Under the lock no critical section takes the processor away, and only lock and unlock change how deep it is |
| `LockedScheduler.UnlockOutcome` | kernel/os_kernel.c:315-349 | The outermost unlock pends what was asked for meanwhile, and whenever a ready task is owed the processor; an inner one only counts down; one without a lock does nothing |
| `Scheduling.NewcomerNoticed` | kernel/os_task.c:2560-2629 | A task that becomes ready and outranks the running one leaves a switch requested |
| `Scheduling.MakeReadyBuckets` | kernel/os_task.c:2429-2434 | Bucket and bitmap stay two views of the same ready tasks |
| `Scheduling.LeaveReadyBuckets` | kernel/os_task.c:2450-2460 | A bit is cleared exactly when its list empties |
| `Deadlock.CheckIsExact` | kernel/os_task_mutex.c:353-400 | The check answers yes if and only if waiting without end would close a cycle of at most 8 mutexes through the caller |
| `Deadlock.ClearedWaitIsSafe` | kernel/os_task_mutex.c:353-400 | One new unbounded wait that the check cleared closes no cycle |
| `Deadlock.MutexLockSafe` | kernel/os_mutex.c:178-193 | Whichever arm of the lock loop is taken, it creates no cycle of unbounded waits when its own wait, if unbounded, was cleared |
| `KernelObject.Scheduler.Do` | kernel/os_task.c:2429-2682 | The object performs any enabled critical section in place, by the source's statements, leaves exactly the state its function describes, and keeps the safety invariant |
| `KernelObject.Scheduler.WaitNodeInsert` | kernel/os_task.c:2502-2517 | The walk ends at the ranked place |
| `KernelObject.Scheduler.EffectiveRecompute` | kernel/os_task_mutex.c:292-314 | The loop over owned mutexes computes what is owed |
| `KernelObject.Scheduler.PriorityRecompute` | kernel/os_task_mutex.c:249-272 | The loop along the chain, at most 8 links |
| `KernelObject.Scheduler.TickUpdate` | kernel/os_task.c:976-1047 | The interleaved walk - spend, unlink, wake, next - equals expiring all due sleepers at once |
| `KernelObject.Scheduler.DeadlockCheck` | kernel/os_task_mutex.c:353-400 | The walk computes the exact check |
| `DeltaList.InsertKeepsDeadlines` | kernel/os_task.c:917-942 | Insertion adds exactly the new absolute deadline, first-in first-out among ties, and moves no other |
| `DeltaList.RemoveKeepsDeadlines` | kernel/os_task.c:957-967 | Removal drops exactly that deadline and moves no other |
| `DeltaList.AdvanceReleasesExactlyTheDue` | kernel/os_task.c:976-1047 | Letting time pass releases exactly the due, in deadline order |
| `DeltaList.AdvanceComposes` | kernel/os_task.c:976-1047 | Advancing by a then b wakes the same sleepers in the same order as advancing by a + b |
| `DeltaList.HeadIsEarliest` | kernel/os_task.c:1057-1086 | The head is the earliest deadline |
| `DeltaList.StaysInRange` | kernel/os_task.c:917-942 | Insertion raises the last deadline to the new one at most; removal and time never raise it |
| `DeltaList.WordsAreExact` | kernel/os_task.c:905-1020 | While the last deadline is a finite 32-bit wait, insertion, removal, expiry and the summed remainder computed on words that wrap are those on numbers |
| `DeltaList.NoWordIsForever` | kernel/os_internal.h:410-428 | Then no share and no remainder is the OS_WAIT_FOREVER sentinel |
| `DeltaList.EnrollPlaces` | kernel/os_task.c:917-942 | The reference insertion: behind every deadline no later, in front of all later ones |
| `DeltaList.DueCountSplits` | kernel/os_task.c:976-1047 | The reference for a tick: everything counted is due by then, everything else later |
| `DeltaList.TicksLeftIsTheDeadline` | kernel/os_timer.c:1020-1053 | The absolute remainder is the entry's place on the time line |
| `Ranges.EveryReachableWordIsExact` | kernel/os_internal.h:410-428 | Over any run: every share is below OS_WAIT_FOREVER, the test for the sentinel tells exactly the timed waiters among the blocked, and every walk of the delay list on wrapping words is the one on numbers |
| `Ranges.StepInRange` | kernel/os_task.c:905-1250 | No critical section carries a share out of the range of finite waits |
| `TimerRanges.EveryReachableCountdownIsFinite` | kernel/os_timer.c:375-1060 | Over any run with finite periods and pool delays: no countdown or remainder reads as the sentinel, the next expiry is the sentinel exactly when nothing is due, and no sum wraps |
| `DeltaList.InsertWalk` | kernel/os_timer.c:977-1001 | The loop computes the insertion |
| `DeltaList.RemoveWalk` | kernel/os_timer.c:1020-1053 | The loop finds the entry, hands its share on, and returns the absolute time it had left |
| `Timeouts.WaitBeginDelayed` | kernel/os_task.c:1209-1242 | A blocked task has a delay entry exactly when its wait is finite |
| `Ticking.TicksCompose` | kernel/os_task.c:976-1047 | On the whole kernel state - wakes, priorities, requests - a + b ticks are a ticks and then b |
| `Tickless.AnnounceRefinesTicks` | kernel/os_tick.c:212-247 | For any n up to the expected idle one announcement leaves count, lists, priorities and quantum as n tick interrupts would, up to when a switch was pended |
| `Tickless.IdleAnnounceIsTicks` | kernel/os_tick.c:212-247 | From the idle loop, where windows are opened, the two states are equal |
| `TickOutcomes.AdvanceOutcome` | kernel/os_tick.c:140-247 | One tick or an announcement, for every task: sleepers due are ready and unlisted, others have that many ticks fewer to go, and a sleeping timer task is made ready when an expiry was newly queued; everybody else is untouched but for priorities |
| `TickOutcomes.ClockOutcome` | kernel/os_tick.c:140-247 | Count, timers and quantum move by exactly what is announced; every timer due fires |
| `Tickless.WindowsAreSafe` | kernel/os_tick.c:469-541 | Whatever the wake source measures, what is announced never passes the earliest deadline and equals single ticks |
| `Tickless.WindowsMoveTheClockForward` | kernel/os_tick.c:36-54 | The 32-bit count moves forward by exactly what was announced |
| `Tickless.ExpectedIdleBoundsEveryDeadline` | kernel/os_tick.c:341-368 | The expected idle is at most every sleeper's and every timer's deadline |
| `Tickless.ExpectedIdleIsSomeDeadline` | kernel/os_tick.c:341-368 | It is one of the deadlines, zero with an expiry queued, and the sentinel exactly when there is nothing to wait for |
| `Tickless.ElapsedIsMeasured` | arch/common/os_arch_tickless.c:245-284 | Within the plan what is announced is what was measured; the plan is the expected idle or one of its two ceilings |
| `TimeBaseObject.TimeBase.TickHandler` | kernel/os_tick.c:140-203 | One tick, in place |
| `TimeBaseObject.TimeBase.Announced` | kernel/os_tick.c:212-247 | A window, in place |
| `TimeBaseObject.TimeBase.ReschedulePossible` | kernel/os_task.c:1515-1587 | Outranked, or the quantum is over and a peer is ready |
| `TimeBaseObject.TimeBase.ExpectedIdleTicks` | kernel/os_tick.c:341-368 | The nearest of all deadlines |
| `TimeBaseObject.TimeBase.SleepPrepare` | arch/common/os_arch_tickless.c:195-236 | A window is armed only if something can end it |
| `TimeBaseObject.TimeBase.ElapsedTicks` | arch/common/os_arch_tickless.c:245-284 | Never more than planned; nothing for an unarmed window |
| `TimeBaseObject.TimeBase.IdlePass` | kernel/os_tick.c:469-541 | Plan, clamp, sleep, announce: the window is announced as measured exactly when the port can suppress and the plan reaches both floors, nothing otherwise; the state afterwards is that of as many single ticks |
| `TimerRuns.PoolIsAQueue` | kernel/os_timer.c:375-797 | Over any run of arm, pause, stop, submit, tick and fetch: what a pool delivered, then what is in flight, is what was submitted, in order, each with its own context and value |
| `TimerRuns.SubmitAppends` | kernel/os_timer.c:375-443 | A successful submission joins its pool at the end and no other pool notices |
| `TimerRuns.FullMeansAllInFlight` | kernel/os_timer.c:375-443 | FULL if and only if all of the pool's entries are in flight |
| `TimerRuns.TickKeeps` | kernel/os_timer.c:542-638 | A tick delivers nothing and loses nothing, in any pool |
| `TimerRuns.FetchTakesTheOldest` | kernel/os_timer.c:738-797 | A delivery takes the oldest call of its pool |
| `TimerRuns.OrdinarySound` | kernel/os_timer.c:810-873 | Arming, pausing and stopping ordinary timers keeps flags, lists and pools consistent |
| `TimerOutcomes.StopOutcome` | kernel/os_timer.c:235-255 | A stopped timer neither counts, nor is held, nor is about to be delivered; setup and arguments stay, and so do every other timer's record, deadline and place |
| `TimerOutcomes.StopSilences` | kernel/os_timer.c:235-255 | Over any run without a start of that timer, no delivery after the stop takes it |
| `TimerOutcomes.PauseOutcome` | kernel/os_timer.c:193-226 | Held with exactly what it had left, a delivery it is owed staying owed; not-running exactly when it neither runs nor is held |
| `TimerOutcomes.ArmOutcome` | kernel/os_timer.c:810-873 | Due in one whole period, or on resuming in exactly what the pause left; a fresh start drops an undelivered expiry, a resume does not |
| `TimerOutcomes.PausedResumesWhereItStopped` | kernel/os_timer.c:193-226 | Paused with n ticks to go and started after any run of ticks and other timers' calls: due in exactly n |
| `TimerOutcomes.StartedFiresOnTime` | kernel/os_timer.c:542-638 | Over any run that does not name it, a started timer has nothing queued while fewer ticks than its period have passed, and fires in the tick that completes it |
| `TimerOutcomes.CountsDown` | kernel/os_timer.c:542-638 | Over any run that does not name it, what a timer has left falls by exactly the ticks that pass |
| `TimerOutcomes.TickOutcome` | kernel/os_timer.c:542-638 | For every timer: due within these ticks, it is queued once, a periodic one then due one whole period on and any other done; else it has that many fewer to go or is untouched |
| `TimerOutcomes.TickQueues` | kernel/os_timer.c:542-638 | New expiries join the queue in the order they were due, none twice, and the timer task is woken exactly when there are any |
| `TimerOutcomes.SubmitOutcome` | kernel/os_timer.c:375-443 | Invalid, full and accepted each have their exact condition; the call is due after exactly the pool's delay, or queued at once with the timer task woken |
| `TimerOutcomes.FetchOutcome` | kernel/os_timer.c:738-797 | The oldest expiry with its timer's arguments; the timer goes on as it was, a finished entry is last on its pool's free list |
| `TimerObject.TimerService.ArmTimer` | kernel/os_timer.c:810-873 | Start, resume and restart, in place: due in one whole period, or in what a pause left |
| `TimerObject.TimerService.PauseTimer` | kernel/os_timer.c:193-226 | In place: the timer is held with exactly what it had left |
| `TimerObject.TimerService.StopTimer` | kernel/os_timer.c:235-255 | In place: the timer neither counts nor is held, an undelivered expiry is dropped, and no other timer notices |
| `TimerObject.TimerService.Submit` | kernel/os_timer.c:375-443 | Entry taken, counting or queued at once |
| `TimerObject.TimerService.DetachDue` | kernel/os_timer.c:579-593 | Phase one: the due prefix is detached |
| `TimerObject.TimerService.TickProcess` | kernel/os_timer.c:542-638 | Both phases, and when the timer task is woken |
| `TimerObject.TimerService.ExpiredFetch` | kernel/os_timer.c:738-797 | Oldest expiry; a finished entry is back in its pool first |
| `TimerObject.TimerService.NextExpiryTicks` | kernel/os_timer.c:647-673 | Zero when something is queued, else the head |
| `Heap.RunsKeepTheHeap` | kernel/os_mem.c:91-395 | Over any run: blocks tile the heap, 8-aligned, no two free blocks touch, and the watermark is the historical minimum of the free bytes |
| `Heap.CarveKeeps` | kernel/os_mem.c:100-158 | Allocation keeps all that, takes exactly the block's bytes, gives away less than a usable block beyond the request, and touches no other block |
| `Heap.ReleaseKeeps` | kernel/os_mem.c:343-395 | Freeing keeps all that, returns exactly the block's bytes, and touches no other live block |
| `Heap.FreeUndoesAlloc` | kernel/os_mem.c:343-395 | Freeing right after allocating restores the heap exactly, split or not |
| `Heap.NullExactlyWhenNoRun` | kernel/os_mem.c:100-158 | No block is found if and only if no contiguous run of that many free bytes exists |
| `Heap.NeedRoundsUp` | kernel/os_mem.c:100-102 | With 32-bit wrap: refused exactly when empty or when the rounded block would reach the flag bit |
| `HeapStore.CarveLinks` | kernel/os_mem.c:123-152 | The header writes of an allocation leave the free list of the carved heap |
| `HeapStore.ReleaseLinks` | kernel/os_mem.c:343-395 | The header writes of a free leave the free list of the released heap: no, either, or both neighbours merged |
| `HeapStore.HeadersSpellOneTiling` | kernel/os_mem.c:37-52 | The header words determine the blocks: one heap image, one division |
| `HeapStore.LiveIsReleased` | kernel/os_mem.c:175-209 | What a free makes of a live block's header spells the heap with that block given back, merged with its free neighbours |
| `HeapStore.SecondFreeIsIgnored` | kernel/os_mem.c:175-209 | Freeing the same pointer again at once is ignored, in every merge case |
| `HeapStore.ImpostorBreaksTheHeap` | kernel/os_mem.c:175-209 | Every other pointer whose header passes the tests corrupts the heap: bytes not free are counted free, and no division into blocks fits headers, list and counter any more |
| `HeapStore.ForeignFreeHonoured` | kernel/os_mem.c:175-209 | A run that does it: one allocation filling the heap, two words stored in its payload, one free of a foreign pointer |
| `HeapStore.Allocator.Alloc` | kernel/os_mem.c:91-164 | Null exactly when nothing fits, else 8-aligned payload at the first fit; counters kept |
| `HeapStore.Allocator.Free` | kernel/os_mem.c:175-209 | For any pointer: nothing changes if and only if it does not look like a live header; a live block's payload gives that block back; the heap is one afterwards if and only if one of these two was the case |
| `HeapStore.Allocator.FindFit` | kernel/os_mem.c:115-121 | The walk finds the first fit |
| `HeapStore.Allocator.FindPlace` | kernel/os_mem.c:356-360 | The walk finds the last free block that begins below any address |
| `HeapStore.Allocator.Insert` | kernel/os_mem.c:343-395 | Merging and relinking on raw headers |
| `HeapStore.Allocator.Write` | kernel/os_mem.c:300-303 | A caller may store anything in its own payload: the heap stays one |
| `MessageRing.HeaderRoundTrip` | kernel/os_msg.c:647-658 | Sixteen bits of length survive the header |
| `MessageRing.FitsSplit` | kernel/os_msg.c:561-569 | Exactly the senders that fit are woken, and nobody is lost |
| `MessageRing.MessageBuffer.RingWrite` | kernel/os_msg.c:583-602 | Written round the wrap, and nothing else written |
| `MessageRing.MessageBuffer.RingRead` | kernel/os_msg.c:613-630 | Read round the wrap |
| `MessageRing.MessageBuffer.LengthPeek` | kernel/os_msg.c:670-683 | The oldest length, nothing moved |
| `MessageRing.EveryRunIsAttended` | kernel/os_msg.c:77-292 | Over any run of sends and receives by tasks and interrupts, timeouts, forced wakes, pauses and deletes: no blocked sender's message fits, and while a receiver is blocked every stored message has a woken receiver on its way |
| `MessageRing.StepAttended` | kernel/os_msg.c:226-263 | Each pass keeps that: a receive that leaves messages, or finds one too large for it, hands the wake on |
| `MessageRing.WholeAndInOrder` | kernel/os_msg.c:173-174 | Over any run: what was handed out, then what is stored, is what was accepted - whole messages, once each, in order |
| `MessageRing.SendOutcome` | kernel/os_msg.c:77-167 | Each status has its exact condition in the bytes stored; stored, the first sleeping receiver is on its way; refused, nothing moves |
| `MessageRing.ReceiveOutcome` | kernel/os_msg.c:193-292 | Handed over exactly when the caller has room for all of it; either way the messages left are announced to the next receiver, and exactly the senders that fit now are let go |
| `MessageRing.MessageBuffer.Send` | kernel/os_msg.c:77-167 | Every arm of a pass in place: refused, stored with a receiver woken, full, timed out or blocked |
| `MessageRing.MessageBuffer.TakeOldest` | kernel/os_msg.c:222-227 | The front message out of the ring, byte for byte |
| `MessageRing.MessageBuffer.Receive` | kernel/os_msg.c:193-292 | Every arm of a pass in place: the oldest message and the senders that fit now, too small a destination, empty, timed out or blocked; the wake handed on |
| `MessageRing.Walk` | kernel/os_msg.c:561-569 | One walk wakes exactly those that fit now |
| `QueueRing.FirstInFirstOut` | kernel/os_queue.c:57-258 | Over any run: what left the queue, then what is in it, is what was accepted, in order |
| `QueueRing.NormalSendsDisplaceNothing` | kernel/os_queue.c:57-171 | Without overwriting sends no item is displaced |
| `QueueRing.SendOutcome` | kernel/os_queue.c:57-171 | Accepted exactly with a free slot, or overwriting with any slot at all; only then, and only from a full queue, does the oldest item leave |
| `QueueRing.ItemQueue.Send` | kernel/os_queue.c:57-171 | Free slot, oldest slot, or refused - the unbound queue included |
| `QueueRing.ItemQueue.Receive` | kernel/os_queue.c:183-258 | The oldest item, copied out of its slot |
| `Events.SetSplits` | kernel/os_event.c:303-329 | Exactly the satisfied waiters leave, each with its own match against one snapshot |
| `Events.Walk` | kernel/os_task.c:1384-1417 | The walk computes who stays, who leaves with what, and what is consumed |
| `Events.DeliveryStands` | kernel/os_event.c:101-135 | Over any run of sets, clears, waits and departures a delivery stays, unchanged and nonzero, until that task itself waits again |
| `Events.SetterDecides` | kernel/os_event.c:101-104 | A waiter a set satisfied still finds the bits it matched in the setter's snapshot, whatever follows |
| `Events.EachHasItsOwn` | kernel/os_task.c:1384-1417 | Several waiters satisfied by one set: each has its own delivery |
| `Events.EveryRunIsSound` | kernel/os_event.c:110-284 | Over any run nobody is left asleep on a condition that holds, and nobody waits with a delivery in hand |
| `Events.NonzeroDeliveries` | kernel/os_event.c:303-329 | No delivery is empty |
| `Events.SetLeaves` | kernel/os_event.c:110-135 | Flag by flag: up are those that were up or are set now, but for those a waiter woken by this set takes with it |
| `Events.SetIsSeen` | kernel/os_event.c:110-135 | A flag set and not taken satisfies the next wait for it at once |
| `Events.WaitOutcome` | kernel/os_event.c:179-284 | A condition that does not hold puts a caller that will wait in its place in the list, with no delivery yet; any other pass leaves the list as it was |
| `Events.SetDelivers` | kernel/os_event.c:303-329 | Each satisfied waiter leaves with the flags it named that are up once the set's are, whatever others take |
| `Events.ClearLeaves` | kernel/os_event.c:145-249 | A clear takes exactly the flags named; so does a wait that matches and asks for it, and no other wait |
| `Events.HoldsMeans` | kernel/os_event.c:303-329 | A condition holds when every flag it names is up, or any |
| `Events.Event.SetBits` | kernel/os_event.c:110-135 | In place; afterwards a flag is up exactly when it was up or is set now and no waiter woken by this set takes it; nobody is left asleep on a condition that holds |
| `Events.Event.ClearBits` | kernel/os_event.c:145-159 | Exactly the flags named go; deliveries and waiters stay |
| `Events.Event.WaitBits` | kernel/os_event.c:197-249 | A pass under the lock: matched and consumed, busy, timed out, or published and queued by priority |
| `Events.Event.Resumed` | kernel/os_event.c:251-277 | After the wait: timed out, the delivery as it was captured, or round again |
| `Events.Event.Insert` | kernel/os_task.c:2502-2517 | The walk ends in front of the first waiter of strictly lower priority |
| `LogStream.EveryRunIsSound` | kernel/os_log.c:252-350 | With producers between any two bytes handed out: the output is the accepted lines whole and in order, notices stand between lines, and notices plus pending equal dropped modulo 2^32 |
| `LogStream.AsleepMeansDrained` | kernel/os_log.c:307-314 | A sleeping consumer has handed out every accepted line |
| `LogStream.QueueOutcome` | kernel/os_log.c:328-350 | Taken whole exactly when it fits with one slot to spare, the consumer then awake; otherwise untouched and one more drop counted |
| `LogStream.NoticeOutcome` | kernel/os_log.c:252-314 | Drops found are handed out next, as their number; the consumer goes to sleep only on an empty ring |
| `LogStream.LogRing.Queue` | kernel/os_log.c:328-350 | The whole line or nothing of it |
| `LogStream.LogRing.Put` | kernel/os_log.c:475-492 | Appended to what the cursors spell |
| `LogStream.LogRing.FreeSpace` | kernel/os_log.c:450-464 | One slot is never used |
| `LogStream.LogRing.Look` | kernel/os_log.c:262-274 | The longest run that does not wrap |
| `LogStream.LogRing.Emit` | kernel/os_log.c:276-282 | A byte read outside the lock is still the byte that was queued |
| `LogStream.LogRing.Advance` | kernel/os_log.c:284-288 | Room is given back only behind the transport |
| `LogText.AppendU32` | kernel/os_log.c:414-442 | Padding and digits, nothing else written |
| `LogText.DecimalReadsBack` | kernel/os_log.c:414-442 | The numeral can be read back and has no leading zero |
| `LogText.NoticeFits` | kernel/os_log.c:367-381 | At most 53 bytes in the 64-byte buffer |
| `LogText.NoticeNamesItsCount` | kernel/os_log.c:367-381 | Equal notices of one tick name equal counts |
| `LogText.FormatNotice` | kernel/os_log.c:367-381 | The buffer holds exactly the notice |
| `IntrusiveList.List.PushBack` | kernel/os_list.c:70-88 | Linked at the end |
| `IntrusiveList.List.PopFront` | kernel/os_list.c:97-120 | The first node comes out loose |
| `IntrusiveList.List.MembershipShows` | kernel/os_list.c:137-138 | Whether a node is linked can be read off its own links and the head |
| `IntrusiveList.List.IsEmpty` | kernel/os_list.c:50-60 | The head tells whether any node is linked |
| `IntrusiveList.List.Remove` | kernel/os_list.c:133-161 | The node is bypassed and loose; removing twice is harmless |
| `IntrusiveList.List.InsertBefore` | kernel/os_list.c:175-200 | In front of the position, or at the end |
| `Dispatch.EveryRunIsSafe` | kernel/os_task.c:1832-2019 | Over all interleavings of block, wake, pause, delete, start, save and select on any number of cores: the ownership invariant |
| `Dispatch.OneCoreEach` | kernel/os_task.c:1870-1881 | No task executes on two cores |
| `Dispatch.DispatchResumes` | kernel/os_task.c:1957-2012 | Every dispatch resumes a task that executes nowhere, at the stack pointer where it last stopped |
| `Dispatch.PickedIsReady` | kernel/os_task.c:1957-1998 | The pick is ready, allowed here, of the highest such priority, first in its list |
| `Dispatch.IdleMeansNothingToDo` | kernel/os_task.c:1957-1998 | A core idles only when no ready task may run on it |
| `Dispatch.CallOutcome` | kernel/os_task.c:236-634 | Wake, start, pause, delete and a priority change on any core: the task ends in the state and list it should, behind its equals where it becomes ready, and no other task's block changes |
| `Dispatch.SaveOutcome` | kernel/os_task.c:1832-1908 | The task that was executing is put down where it stood, free for any core and behind its equals if it could go on; a locked scheduler keeps it and notes the switch |
| `Dispatch.SelectOutcome` | kernel/os_task.c:1916-2019 | The chosen task executes on this core and waits in no list; every other is as it was |
| `Dispatch.StartStrandsTheStale` | kernel/os_task.c:263-273 | Starting a task leaves it running nowhere exactly when it is current on a core that has already set it free |
| `Dispatch.OthersStrandNobody` | kernel/os_task.c:1832-2019 | No other step marks a task running that is on no core |
| `Dispatch.StartCanStrand` | kernel/os_task.c:263-273 | A reachable run in which that happens: the task is in no ready list and its only core picks idle |
| `Interlock.EveryRunIsSound` | kernel/os_critical.c:63-171 | Over all interleavings of any number of cores: while the window is open no core but 0 is in a critical-section body |
| `Interlock.RemoteBodyIsCurrent` | kernel/os_tick.c:461-549 | A body of another core never runs with slept ticks still to be announced |
| `Interlock.WindowIsYielded` | kernel/os_tick.c:320-328 | A remote lock holder during a window gives the lock back at its next step and asks core 0 to wake |
| `Interlock.ExitRestoresTheMask` | kernel/os_critical.c:106-126 | The outermost exit restores the mask its outermost enter found |
| `Interlock.TestAdmits` | kernel/os_critical.c:63-160 | Core 0 is always let in, another core exactly while no window is open; turned away, it has given the lock back and asked core 0 to wake |
| `Interlock.WindowOutcome` | kernel/os_tick.c:461-549 | Raising the flag shuts the others out at once; it is lowered only with no slept tick outstanding |
| `Interlock.ExitUndoes` | kernel/os_critical.c:106-126 | An inner exit undoes its enter and nothing else; a raw one gives the lock back and leaves the mask |
| `Interlock.EveryTickIsCounted` | kernel/os_tick.c:140-247 | Over all interleavings no tick is lost or counted twice: the count, with the slept ticks not yet announced, grows by exactly what has passed |
| `TickMath.WrapsAreExact` | arch/arm/common/os_arch_tick_math.h:55-69 | The count equals that of a counter stepped cycle by cycle if and only if the reference is off by less than half a period (for no boundary: not too long by half) |
| `TickMath.BelowHalfIsClose` | arch/arm/common/os_arch_tick_math.h:45-47 | The documented bound is sufficient |
| `TickMath.HalfAPeriodIsTooMuch` | arch/arm/common/os_arch_tick_math.h:55-69 | The bound is sharp for every period: at half a period too long the count is one too high |
| `TickMath.RemainingIsThePhase` | arch/arm/common/os_arch_tick_math.h:83-88 | The reload is the phase of the stepped counter |
| `TickMath.GridIsKept` | arch/arm/common/os_arch_tick_math.h:83-88 | A counter restarted with it passes the same boundaries as the undisturbed one |
| `Installer.Project.Apply` | tools/internal/engine.py:539-640 | When nothing fails, committed; otherwise committed, or every target as it was, or the transaction directory kept with every original at its target or its backup. When every recovery rename succeeds the targets are as they were even if a directory could not be removed; unless a recovery rename or removal failed, or a directory was made without being noted, it is not kept |
| `Installer.Project.Install` | tools/internal/engine.py:595-597 | Whatever rename fails, every operation is waiting, aside or installed |
| `Installer.Project.Undo` | tools/internal/engine.py:602-617 | What the paths show is enough to undo a record, however far it got |
| `Installer.Project.MakeParents` | tools/internal/engine.py:586-594 | Missing ancestors created from the top down and remembered |
| `Installer.Project.RemoveCreated` | tools/internal/engine.py:618-622 | The created directories, and only those, are removed |
| `Installer.IntactLosesNothing` | tools/internal/engine.py:585-617 | In each of the three conditions the original is at its target or its backup |
| `Installer.LastIsEmpty` | tools/internal/engine.py:618-620 | Once the targets are restored a created directory is empty when its turn comes |

## Left out

- Aliasing of control blocks, mutexes and timers: each is a value in a map from its id, and the kernel's lists are the sequences their links spell. `IntrusiveList` proves separately that os_list.c's pointer writes do to those sequences what the model does; which list a node is threaded on is the model's, not the pointers'.
- The ready bitmap as a word: it is the set of its bits, and the highest-bit instruction is a search.
- Ids and generations: os_task_find_by_id is membership in the table, and an id is never reused.
- The delay and timer entries' shares are kept in the list entry, not in the control block.
- Calls by the idle task or before the scheduler starts (owner id 0): tasks are created at run time, the kernel is taken as running and idle as its first task.
- Deleting a task that owns a mutex: the source asserts against it (kernel/os_task.c:2340), so a run does not do it.
- RunsInheritance.EveryReachableStateIsSettled: wait chains longer than 8 or cyclic are excluded, because the walk deliberately stops there; for those `Inheritance.RecomputeMovesTheGap` says where it stopped.
- RunsInheritance.NoReachableDeadlock: cycles of more than 8 mutexes are beyond the check's depth.
- The wall-clock recomputation of a retry loop's budget (os_internal_wait_remaining): each pass is given what is left to wait.
- Notifications (kernel/os_notify.c), busy delays, atomics, names, CPU usage, initialisation order: easier copies of what is here, or no state to speak of.
- The task that a message buffer or event wakes: MessageRing and Events keep the waiters with their conditions, `Rearrange` covers every other way out and, in MessageRing, the order by priority; the scheduling of the woken task is the kernel's.
- HeapStore.Allocator.Free: what further calls do to a heap that a foreign pointer has corrupted is not followed.
- LogStream: formatting by vsnprintf and the wake of the log task; the transport is the sequence of bytes it is handed.
- Heap addresses are numbers, sizes 32 bits wide; the header is two words of a map.
- TimerObject.TimerService.Submit: pools are taken as threaded already; threading a pool is initialisation.
- The planning guard of the idle pass (one plan per tick or new deadline): a hint that only decides whether to plan again.
- Self-suppression by a port's own timer and adjusted elapsed counts: the bodies are in ports; the default macros are modelled.
- Context-switch assembly, stack frames and guards: a stack pointer is an opaque value in Dispatch.
- Dispatch: sends no inter-processor requests, because every core may switch at any time there; when it does is Preemption's subject on one core.
- Interlock: the spinlock is a correct mutex and steps under it are atomic; memory ordering is not modelled.
- Installer.Project.Apply: the paths it checks before staging, and the rename of a whole tree, are taken as given; an interrupt between creating a directory and noting it leaves that one directory behind, which is what `orderly` rules out where the contract speaks of directories.
- Downloads, patching and prompts of the installer.
