# FreeRTOS kernel: a verified model

This project models the FreeRTOS V10.0.1 kernel of this repository in Dafny and proves what the
kernel promises: the list ring, the task scheduler, queues and semaphores, mutexes with priority
inheritance, software timers, the heap and the co-routine scheduler. `dafny verify dfyconfig.toml`
checks everything.

Each component has two layers, and the scheduler and the co-routine scheduler have a third below
them: a plain scheduler (`PlainScheduler`) with turns instead of walked rings, sleepers in unbounded
time instead of two lists of 32-bit times, waiting lists without item values, and no bitmap or next
unblock time. Every kernel call, tick, interrupt, mutex call and co-routine call is proved to be its
plain step on it, list order included, so what each call does is stated without the code's
representation. Above it is the value-level model: a state, the functions of the
source as steps on it, an invariant, and theorems about every run. The last layer is a class whose
methods update its fields in place, each proved to compute its step. Scalar variables, arrays, the
free list of the heap and the pointers of a list (`ListRing`) are fields as in the source. The kernel,
queue, mutex, timer and co-routine classes hold their lists as values (`Store`, sequences) on which
the list operations proved in `ListRing` and `Rings` act, and do not share list items with
`ListRing.List`; methods without a loop (`MutexTable`, `SetPriority`, `SuspendTask`, `DeleteTask` and
the like) follow their functions statement by statement, so what counts there is the lemmas about the
functions. Fields that only record unbounded time or history are ghost. Time is kept as a 32-bit
tick count, as in the source, next to the number of its wraps, so that statements about time are over
unbounded integers.

| part | modules | main results |
|---|---|---|
| list ring | `Rings`, `SortedLists`, `ListRing` | the linked ring refines a sequence with an index and holds exactly the items that name it; round robin, stable sorted insert, removal skips nobody |
| scheduler | `TaskLists`, `Scheduler`, `Kernel`, `KernelCalls`, `KernelRuns`, `KernelTheorems`, `KernelReplay`, `KernelEvents`, `KernelEffects`, `PlainLists`, `PlainViews`, `PlainScheduler`, `KernelRefinement`, `FairWaiting`, `KernelFairness`, `KernelScripts`, `Bitmap`, `TaskKernel` | `KernelIsPlain`, `EventWakesLongestWaiting`, `TasksAreConserved`, `NoMissedPreemption`, `SelectionIsHighest`, `ReadyTaskStaysReady`, `ExactWake`, `PendedTicksReplayExactly`, `PrioritySetIs`, `EqualTurns` |
| time-outs | `TimeOuts` | `ConstantDeadline`, `CheckIsRightIff`, `PeriodicTaskWakesOnTime` |
| queues | `QueueProtocol`, `QueueRuns`, `QueueLocks`, `QueueControl`, `QueueStorage`, `QueueBuffer` | `NoLostWakeUp`, `QueueIsDeque`, `MessagesAreConserved`, `StepWakes`, `NoSpuriousWakeUp`, `PeriodLostIff`, `ResetKeepsIff`, `StorageRefinesDeque` |
| mutexes | `Mutexes`, `PriorityInheritance`, `MutexTheorems`, `RecursiveMutexes`, `MutexTable`, `Inheritance`, `MutexRuns`, `MutexRefinement` | `MutexIsExclusive`, `InheritanceIsSoundIff`, `HoldersCoverWaitersIff`, `RecursiveMutexBalances`, `RecursiveIsOutermost`, `MutexStepRefines`, `MutexCallsKeepGoodIff` |
| timers | `Timers`, `TimerRuns`, `TimerChanges`, `TimerDaemon` | `PlacementIsRight`, `NoDrift`, `ResetRestartsSchedule`, `ChangeRestartsSchedule`, `OneShotRestarts`, `StoppedTimerIsSilent`, `ProcessCallsFirst` |
| heap | `Heaps`, `HeapMemory` | `HeapPartition`, `MallocIsBestFit`, `MallocHands`, `CapacityIff`, `MallocSucceedsAgain` |
| co-routines | `CoRoutines`, `CoRoutineRefinement`, `CoRoutineFairness`, `CoRoutineScheduler` | `CoRoutinesArePlain`, `EventReadiesLongestWaiting`, `CatchUpExact`, `ScheduleRunsHighest` |

Configuration: five task priorities, a heap of 20 KiB, 8-byte alignment, 32-bit ticks, two
co-routine priorities, preemption and time slicing on, ready bitmap on, and vTaskSuspend and
vTaskDelete included, as in FreeRTOSConfig.h. Timers, mutexes and co-routines are modelled with
their option on, the scheduler theorems with mutexes off. configASSERT is empty in this build, so
what it would check is proved: for instance that the delayed list is empty when the lists are
switched.

Where a promise does not hold of the code as it stands, the code is kept, the exact condition is
proved, and a run from the start, or an input, shows the failure:

- `WakeUpLostIff` and, for a whole lock period with any interrupts in it, `PeriodLostIff`: the lock counts are int8_t. A lone task is left blocked exactly if 128 to 255 events come in one lock, or more but none after it was placed (`ReceiverLostIff`, `SenderLostIff`).
- `ResetKeepsIff`: a reset wakes one sender (`ResetStrandsSender`).
- `InheritanceIsSoundIff`: inheritance does not pass through a holder that waits itself (`NestedInheritanceStops`).
- `HoldersCoverWaitersIff`: a task that takes a free mutex inherits nothing from those who wait already (`LowTakerOvertakes`).
- `MutexCallsKeepGoodIff`: over every run of kernel and mutex calls, the scheduler is kept intact exactly if no give forgets the yield for its priority drop because it woke a waiter (`GiveKeepsPreemptionIff`, `GivingMissesPreemption`) and no time-out resets the wrong ready bit or lifts the holder above the running task without a yield (`TimeoutKeepsBitsIff`, `StaleBitCanHappen`, `StaleBitMisleadsSelection`).
- `WaiterPriorityChangeIff`: event items are not sorted again (`RaisedWaiterIsOvertaken`).
- `CheckIsRightIff`: two tick wraps between checks (`TwoWrapsGoUnnoticed`).
- `CapacityIff`: a padded request wraps size_t (`WrappedRequestGetsNothing`).

## Model

| member | source | states |
|---|---|---|
| `Rings.SortedInsertIsStable` | FreeRTOS/list.c:103-167 | vListInsert keeps a sorted list sorted and puts a new member behind every member of the same value, portMAX_DELAY included |
| `Rings.RoundRobin` | FreeRTOS/include/list.h:276-287 | one round of walking returns every member exactly once and leaves the order of the next round unchanged |
| `Rings.EndInsertedGoesLast` | FreeRTOS/list.c:74-100 | a member inserted at the end is walked to after all others except the one just returned |
| `Rings.RemovalSkipsNobody` | FreeRTOS/list.c:170-196 | removing a member, even the one under the index, leaves the walking order of the others unchanged |
| `ListRing.List.Link` | FreeRTOS/list.c:87-99 | linking in a new item keeps a well-formed ring whose members are exactly the items that name it as container |
| `ListRing.List.InsertEnd` | FreeRTOS/list.c:74-100 | the linked ring becomes the sequence with the item placed just behind the index |
| `ListRing.List.FindPlace` | FreeRTOS/list.c:122-155 | the search loop finds the place of a stable sorted insert and ends, portMAX_DELAY included |
| `ListRing.List.Insert` | FreeRTOS/list.c:103-167 | the linked ring becomes the sequence with the item at its sorted place |
| `ListRing.List.Unlink` | FreeRTOS/list.c:176-190 | unlinking an item keeps a well-formed ring, with exactly the items that name it as members, and a valid index |
| `ListRing.List.Remove` | FreeRTOS/list.c:170-196 | for any item that names the list as its container, the linked ring becomes the sequence without it; the new length is returned |
| `ListRing.List.NextEntry` | FreeRTOS/include/list.h:276-287 | the index goes to the next member, never to the end marker, and that member is returned |
| `ListRing.Move` | FreeRTOS/tasks.c:2660-2676 | moving an item from one list to the end of another keeps both well-formed and changes each as its sequence operation says |
| `Bitmap.RecordAdds` | FreeRTOS/include/portmacro.h:134-134 | recording a priority adds exactly that bit to the 32-bit word |
| `Bitmap.ResetRemoves` | FreeRTOS/include/portmacro.h:135-135 | resetting a priority removes exactly that bit |
| `Bitmap.CountLeadingZeros` | FreeRTOS/include/portmacro.h:139-139 | all counted bits are clear and the next one is set |
| `Bitmap.HighestPriority` | FreeRTOS/include/portmacro.h:139-139 | 31 minus the leading zeros is the largest set bit |
| `TaskLists.Take` | FreeRTOS/list.c:170-196 | exactly that item leaves its list, the walking index steps back if it stood on it or behind it, each list still holds exactly the items that name it as container, and no other list changes |
| `TaskLists.PutEnd` | FreeRTOS/list.c:74-100 | the item is placed just behind the walking index, at the end of a list that is never walked; each list still holds exactly the items that name it as container |
| `TaskLists.PutSorted` | FreeRTOS/list.c:103-167 | everything in front of the new item has a value at most its own and everything behind it a strictly larger one; a sorted list stays sorted, the order of the others and all other lists stay, and membership matches the containers |
| `PlainViews.TakePlaces` | FreeRTOS/list.c:170-196 | removing a state item takes the task out of the turns, sleepers, suspended and ended tasks, and leaves the order of all others |
| `PlainViews.TakeWaits` | FreeRTOS/list.c:170-196 | removing an event item takes the task out of the waiting and held tasks, and leaves the order of all others |
| `PlainViews.ReadyPlaces` | FreeRTOS/list.c:74-100 | a task inserted at the end of a ready list comes last in the turns, before the one whose turn it is |
| `PlainViews.SleepPlaces` | FreeRTOS/tasks.c:4964-4968 | insertion into the current delayed list puts the sleeper, in unbounded time, behind all who are due no later |
| `PlainViews.OverflowPlaces` | FreeRTOS/tasks.c:4958-4963 | insertion into the overflow list does the same for a wake time after the wrap |
| `PlainViews.QueueWaits` | FreeRTOS/tasks.c:2910-2924 | insertion into an event list by the complement of the priority puts the task behind all of its priority or a higher one |
| `PlainViews.WalkedPlaces` | FreeRTOS/include/list.h:276-287 | walking a ready list gives the next task its turn and starts a new round after the last |
| `PlainViews.SwitchedPlaces` | FreeRTOS/tasks.c:215-227 | switching the delayed lists when the current one is empty changes no sleeper's place or wake time |
| `SortedLists.InsertedIsAtSortedPos` | FreeRTOS/list.c:103-167 | inserting before the first item of larger value is the insertion at the place vListInsert searches for |
| `SortedLists.InsertedInOrder` | FreeRTOS/list.c:103-167 | the list stays in order and gains exactly the new item |
| `TaskLists.ListLengthsSum` | FreeRTOS/list.c:99-99 | the list lengths sum to the number of items that are in those lists |
| `Scheduler.Unblock` | FreeRTOS/tasks.c:235-239 | readying a blocked task keeps homes, bitmap, wake order and counts right |
| `Scheduler.MoveOut` | FreeRTOS/tasks.c:1644-1663 | moving a task to the suspended or termination list keeps the invariant, bit reset included |
| `Scheduler.Delay` | FreeRTOS/tasks.c:4928-4968 | moving a ready task to a delayed list keeps the invariant and the wake order |
| `Scheduler.Reprioritise` | FreeRTOS/tasks.c:1546-1601 | a ready task moves to the list of its new priority and the bitmap still matches the lists |
| `Scheduler.AddNew` | FreeRTOS/tasks.c:1027-1088 | a new task is ready, counted once, and the invariant holds |
| `Scheduler.Forget` | FreeRTOS/tasks.c:1170-1181 | a freed task is in no list and the counts fall with it |
| `Kernel.ResetNext` | FreeRTOS/tasks.c:3730-3751 | the next unblock time is at most every wake time in the delayed list and is one of them or portMAX_DELAY |
| `Kernel.DelayedIsEmptyAtWrap` | FreeRTOS/tasks.c:215-227 | the delayed list is empty whenever the delayed lists are switched |
| `Kernel.AdvanceTick` | FreeRTOS/tasks.c:2603-2616 | one more tick in unbounded time; no delayed task's unbounded wake time changes when the lists are switched |
| `Kernel.WakeExpiredEffect` | FreeRTOS/tasks.c:2622-2698 | the wake-up loop readies exactly the due tasks and reports a switch exactly if one of them is not below the current task |
| `Kernel.DueIsWakeTime` | FreeRTOS/tasks.c:2643-2654 | the 32-bit comparison agrees with the unbounded wake time |
| `Kernel.TickExact` | FreeRTOS/tasks.c:2589-2757 | a tick readies exactly the tasks whose unbounded wake time it reaches, and its result is exactly the reasons to switch |
| `Kernel.DrainPendingEffect` | FreeRTOS/tasks.c:2127-2146 | exactly the pending tasks become ready; a yield is pended exactly if one is not below the current task |
| `Kernel.ResumeReadySettled` | FreeRTOS/tasks.c:2127-2157 | after the pending list is emptied nothing is overdue and the next unblock time is right again |
| `Kernel.Replay` | FreeRTOS/tasks.c:2164-2187 | n pended ticks advance unbounded time by n and keep the scheduler settled |
| `Kernel.ResumeAll` | FreeRTOS/tasks.c:2105-2212 | resuming the scheduler keeps the invariant |
| `KernelCalls.SelectionsAgree` | FreeRTOS/tasks.c:150-165 | the bitmap selection and the downward scan find the same list |
| `KernelCalls.HighestReady` | FreeRTOS/tasks.c:186-194 | the selected list is not empty and no ready task has a higher priority |
| `KernelCalls.SwitchContext` | FreeRTOS/tasks.c:2851-2896 | selecting the next task keeps the invariant |
| `KernelCalls.Create` | FreeRTOS/tasks.c:1027-1102 | creating a task keeps the invariant |
| `KernelCalls.Delete` | FreeRTOS/tasks.c:1112-1200 | deleting a task keeps the invariant |
| `KernelCalls.AddCurrentToDelayed` | FreeRTOS/tasks.c:4912-4982 | which list the task goes to, its wake time and the next unblock time, for finite and indefinite waits |
| `KernelCalls.Block` | FreeRTOS/tasks.c:2910-2924 | blocking for an event keeps the invariant |
| `KernelCalls.PrioritySet` | FreeRTOS/tasks.c:1466-1611 | changing a priority keeps the invariant; what the call does is `KernelEvents.PrioritySetIs` and, with the order of the ready lists, `KernelRefinement.PrioritySetPlain` |
| `KernelCalls.Suspend` | FreeRTOS/tasks.c:1630-1726 | the first critical section of vTaskSuspend, with the yield that follows, keeps the invariant; the second is a step of its own |
| `KernelCalls.Resume` | FreeRTOS/tasks.c:1777-1826 | resuming a task keeps the invariant |
| `KernelCalls.ResumeFromISR` | FreeRTOS/tasks.c:1831-1895 | resuming from an interrupt keeps the invariant |
| `KernelCalls.WakeWaiter` | FreeRTOS/tasks.c:2984-3047 | the waiter becomes ready, or pending while the scheduler is suspended, and a yield is pended exactly if it is above the current task |
| `KernelCalls.CleanUp` | FreeRTOS/tasks.c:3468-3494 | freeing a terminated task keeps the invariant |
| `KernelEffects.ResumeUndoesSuspend` | FreeRTOS/tasks.c:1777-1826 | resuming a suspended ready task puts every task back where it was |
| `KernelEffects.SuspendWhere` | FreeRTOS/tasks.c:1630-1663 | a suspended task is in the suspended list and waits for nothing; no other task moves |
| `KernelEffects.ResumeWhere` | FreeRTOS/tasks.c:1777-1826 | a suspended task that is resumed is in the ready list of its priority; no other task moves |
| `KernelEffects.DeleteWhere` | FreeRTOS/tasks.c:1112-1200 | a task that deletes itself goes to the termination list and asks for a switch, any other is freed at once; either way it waits for nothing and the counts are right |
| `KernelEffects.ResumeFromISRWhere` | FreeRTOS/tasks.c:1831-1895 | an interrupt readies a suspended task, and asks for a switch exactly if it reaches the running one, or holds it in the pending list while the scheduler is suspended; for any other task the call does nothing |
| `KernelEffects.StepTouchesOnly` | FreeRTOS/tasks.c:1027-1895 | no call but a tick, a context switch or the resumption of the scheduler moves time or changes the lists, priority or wake time of any task but the one it is about |
| `KernelEffects.BlockEffect` | FreeRTOS/tasks.c:2910-2924 | the running task is due exactly the given ticks later, or suspended for an indefinite wait, and waits for the event |
| `KernelEffects.EqualTurns` | FreeRTOS/tasks.c:2700-2714 | as many context switches as there are tasks at the highest ready priority make each of them current exactly once |
| `KernelRuns.StepGood` | FreeRTOS/tasks.c:1090-1097 | every call, tick and interrupt keeps the invariant, the next unblock time bounds and the preemption condition |
| `KernelRuns.StartedGood` | FreeRTOS/tasks.c:1901-2018 | the state at the start of the scheduler satisfies all of them |
| `KernelTheorems.TasksAreConserved` | FreeRTOS/tasks.c:1027-1181 | over every run each live task is in exactly one state list, its own priority's if ready; lengths sum to uxCurrentNumberOfTasks; uxDeletedTasksWaitingCleanUp is the termination list's length |
| `KernelTheorems.NoMissedPreemption` | FreeRTOS/tasks.c:2686-2752 | after every step of every run the current task has the highest ready priority or a switch has been requested |
| `KernelTheorems.SelectionIsHighest` | FreeRTOS/tasks.c:182-207 | over every run a bit is set exactly when its ready list is not empty, and both selections pick the highest such list |
| `KernelTheorems.UnblockTimeIsRight` | FreeRTOS/tasks.c:3730-3751 | over every run xNextTaskUnblockTime lies between the tick count and the earliest wake time of the sorted delayed list, and that list is empty when the tick count is about to wrap |
| `KernelTheorems.StepOnTime` | FreeRTOS/tasks.c:2643-2698 | no call that leaves a sleeping task alone changes when it will be ready |
| `KernelTheorems.ReadyTaskStaysReady` | FreeRTOS/tasks.c:1027-2896 | over every run a ready task stays in the ready list of its priority until a call is about it, whatever other tasks, ticks, interrupts and switches do |
| `KernelTheorems.SleeperWakesOnTime` | FreeRTOS/tasks.c:2589-2698 | over every run a sleeping task stays asleep before its unbounded wake time and is ready at it |
| `KernelTheorems.ExactWake` | FreeRTOS/tasks.c:2910-2924 | a task that blocks for k ticks, 1 <= k < 2^32, with or without an event, is ready at exactly the k-th later processed tick, across any wrap; only portMAX_DELAY on an indefinite wait is not timed |
| `KernelReplay.PendingTicksOnlyCount` | FreeRTOS/tasks.c:2732-2757 | ticks taken with the scheduler suspended are only counted |
| `KernelReplay.ReplayFollowsTicks` | FreeRTOS/tasks.c:2164-2187 | the replay goes through the same states as ticks taken with the scheduler running |
| `KernelReplay.PendedTicksReplayExactly` | FreeRTOS/tasks.c:2105-2212 | n ticks with the scheduler suspended and then xTaskResumeAll give the same counts, lists, next unblock time and switch request as n plain ticks |
| `KernelRefinement.CreatePlain` | FreeRTOS/tasks.c:1027-1102 | the new task is ready behind those of its clamped priority, and a switch is asked for exactly if it is above the running task |
| `KernelRefinement.DeletePlain` | FreeRTOS/tasks.c:1112-1200 | deleting takes the task out of every list, and the running task to the end of the ended tasks, as in the plain scheduler |
| `KernelRefinement.BlockPlain` | FreeRTOS/tasks.c:2910-2924 | the running task sleeps in the order of the wake times, or is suspended, and queues for the event behind those of its priority |
| `KernelRefinement.PrioritySetPlain` | FreeRTOS/tasks.c:1466-1611 | a ready task goes behind those ready at its new priority; lists, priorities and switch request are those of the plain step |
| `KernelRefinement.SuspendPlain` | FreeRTOS/tasks.c:1630-1726 | suspending takes the task to the end of the suspended tasks, as in the plain scheduler |
| `KernelRefinement.ResumePlain` | FreeRTOS/tasks.c:1777-1826 | only a task that is suspended and waits for nothing is readied, behind those ready before it |
| `KernelRefinement.ResumeFromISRPlain` | FreeRTOS/tasks.c:1831-1895 | the same from an interrupt, or held behind those held before it while the scheduler is suspended |
| `KernelRefinement.EventPlain` | FreeRTOS/tasks.c:2984-3047 | the first waiter, and only it, is readied or held, and a yield is pended exactly if it is above the running task |
| `KernelRefinement.CleanUpPlain` | FreeRTOS/tasks.c:3468-3494 | the task that ended first is freed |
| `KernelRefinement.TickPlain` | FreeRTOS/tasks.c:2589-2757 | a tick wakes those who are due, in the order of their wake times, into the ready lists; its result is that of the plain tick, which looks at all sleepers |
| `KernelRefinement.DrainPlain` | FreeRTOS/tasks.c:2127-2146 | the held tasks become ready in the order in which they were woken |
| `KernelRefinement.ReplayPlain` | FreeRTOS/tasks.c:2164-2187 | replaying n pended ticks is n plain ticks |
| `KernelRefinement.ResumeAllPlain` | FreeRTOS/tasks.c:2105-2212 | resuming releases those held and then lets the missed ticks take effect one by one, only when the last suspension ends |
| `KernelRefinement.SwitchPlain` | FreeRTOS/tasks.c:2851-2896 | the next in turn of the highest ready priority becomes current, or the switch is pended while the scheduler is suspended |
| `KernelRefinement.StepRefines` | FreeRTOS/tasks.c:1027-3494 | every call, tick and interrupt is its step of the plain scheduler |
| `KernelRefinement.KernelIsPlain` | FreeRTOS/tasks.c:1027-3494 | over every run from the start, the lists in all their order, priorities, time and switch requests are those of the plain scheduler |
| `FairWaiting.PlainStepFair` | FreeRTOS/tasks.c:2910-3047 | every step keeps the waiting lists in the order of priority and, among equals, of blocking, if no waiting task changes priority |
| `KernelFairness.EventWakesLongestWaiting` | FreeRTOS/tasks.c:2910-3047 | over every run from the start in which no waiting task changes priority, the task an event wakes is, of those of the highest priority, the one that blocked first |
| `KernelEvents.StepOrdered` | FreeRTOS/tasks.c:2910-2924 | every call keeps the event lists in priority order if no waiting task changes priority |
| `KernelEvents.EventWakesHighest` | FreeRTOS/tasks.c:2984-3032 | over every run an event wakes a waiter whose priority is not below any other waiter's |
| `KernelEvents.PrioritySetIs` | FreeRTOS/tasks.c:1466-1611 | the new priority is the clamped one and its item value goes with it; a ready task is in that priority's ready list, any other stays where it is, no other task or list is touched; a switch is asked for exactly if the running task is lowered or another is raised to its priority or above |
| `KernelEvents.WaiterPriorityChangeIff` | FreeRTOS/tasks.c:1562-1580 | changing a waiting task's priority keeps its event list in order if and only if the new priority lies between its neighbours' |
| `KernelScripts.RaisedWaiterIsOvertaken` | FreeRTOS/tasks.c:1562-1580 | a run from the start in which raising a waiter leaves the event list out of order with the lower task first |
| `TaskKernel.TaskKernel.ResetNextTaskUnblockTime` | FreeRTOS/tasks.c:3730-3751 | the variables change as `Kernel.ResetNext` says |
| `TaskKernel.TaskKernel.constructor` | FreeRTOS/tasks.c:1901-2018 | the variables at the start of the scheduler satisfy every invariant |
| `TaskKernel.TaskKernel.MakeReady` | FreeRTOS/tasks.c:2660-2676 | a blocked task leaves its lists for its ready list and its bit is set in the 32-bit word |
| `TaskKernel.TaskKernel.SwitchDelayedLists` | FreeRTOS/tasks.c:215-227 | the lists change places and the next unblock time is recomputed |
| `TaskKernel.TaskKernel.WakeExpired` | FreeRTOS/tasks.c:2624-2698 | the loop computes `Kernel.WakeExpired` |
| `TaskKernel.TaskKernel.AdvanceTickCount` | FreeRTOS/tasks.c:2603-2616 | counting and list switching compute `Kernel.AdvanceTick` |
| `TaskKernel.TaskKernel.IncrementTick` | FreeRTOS/tasks.c:2589-2757 | xTaskIncrementTick computes `Kernel.Tick` |
| `TaskKernel.TaskKernel.DrainPendingReady` | FreeRTOS/tasks.c:2127-2146 | the loop computes `Kernel.DrainPending` |
| `TaskKernel.TaskKernel.ReplayPendedTicks` | FreeRTOS/tasks.c:2164-2187 | the loop computes `Kernel.Replay` and clears the count |
| `TaskKernel.TaskKernel.ResumeAll` | FreeRTOS/tasks.c:2105-2212 | xTaskResumeAll computes `Kernel.ResumeAll` and reports whether it yielded |
| `TaskKernel.TaskKernel.SwitchContext` | FreeRTOS/tasks.c:2851-2896 | the count-leading-zeros selection computes `KernelCalls.SwitchContext` |
| `TaskKernel.TaskKernel.AddCurrentTaskToDelayedList` | FreeRTOS/tasks.c:4912-4982 | the variables change as `KernelCalls.AddCurrentToDelayed` says |
| `TaskKernel.TaskKernel.DelayUntil` | FreeRTOS/tasks.c:1204-1263 | the variables change as `TimeOuts.DelayUntil` says |
| `TaskKernel.TaskKernel.SetPriority` | FreeRTOS/tasks.c:1466-1611 | the variables change as `KernelCalls.PrioritySet` says; `KernelEvents.PrioritySetIs` states what that is |
| `TaskKernel.TaskKernel.SuspendTask` | FreeRTOS/tasks.c:1630-1726 | the variables change as the two critical sections, `KernelCalls.Suspend` and `Kernel.ResetNext`, say |
| `TaskKernel.TaskKernel.ResumeTask` | FreeRTOS/tasks.c:1777-1826 | the variables change as `KernelCalls.Resume` says |
| `TaskKernel.TaskKernel.DeleteTask` | FreeRTOS/tasks.c:1112-1200 | the variables change as `KernelCalls.Delete` says |
| `TaskKernel.TaskKernel.RemoveFromEventList` | FreeRTOS/tasks.c:2984-3047 | the variables change as `KernelCalls.EventOccurs` says, and the result is true exactly if the woken task is above the current one |
| `TimeOuts.CheckIsRightIff` | FreeRTOS/tasks.c:3106-3166 | a time-out is reported exactly when the deadline has passed, if and only if at most one wrap came since the last check, or the tick count is not below the entry time, or the wrapped difference reaches the wait |
| `TimeOuts.TwoWrapsGoUnnoticed` | FreeRTOS/tasks.c:3141-3157 | after two wraps a wait whose deadline has passed is reported as not timed out |
| `TimeOuts.CheckKeepsDeadline` | FreeRTOS/tasks.c:3151-3157 | a check that returns false leaves entry time plus remaining wait unchanged and the wait positive |
| `TimeOuts.NothingLeftIff` | FreeRTOS/tasks.c:3141-3163 | a check that times out keeps the entry time and leaves nothing to wait for, if and only if it is not the branch that saw the tick count wrap and pass the entry time |
| `TimeOuts.ConstantDeadline` | FreeRTOS/tasks.c:3098-3166 | over any chain of checks the first one that returns true is the first at or after the original deadline |
| `TimeOuts.ForeverNeverTimesOut` | FreeRTOS/tasks.c:3131-3138 | a wait of portMAX_DELAY never times out, and no check changes it |
| `TimeOuts.TimeOut.CheckForTimeOut` | FreeRTOS/tasks.c:3106-3166 | the fields change as `TimeOuts.Check` says |
| `TimeOuts.DelayDecisionIsRight` | FreeRTOS/tasks.c:1217-1254 | vTaskDelayUntil delays if and only if previous wake time plus increment is in the unbounded future, by the difference |
| `TimeOuts.DelayUntilWakesOnTime` | FreeRTOS/tasks.c:1204-1263 | the task sleeps until exactly previous wake time plus increment, or is not delayed because that has passed |
| `TimeOuts.PeriodicTaskWakesOnTime` | FreeRTOS/tasks.c:1204-1269 | a task that calls vTaskDelayUntil in a loop, with any kernel steps between the calls, sleeps in call n until exactly start + (n + 1) * increment or goes on at once if that has passed, and the recorded time is that time modulo 2^32 |
| `TimeOuts.TimeMovesForward` | FreeRTOS/tasks.c:2603-2616 | no step moves time backwards, and only processed ticks move it |
| `QueueProtocol.DrainServed` | FreeRTOS/queue.c:2146-2219 | unlocking wakes a waiter for every counted event, so no waiter is left for something that is there |
| `QueueProtocol.SendKeeps` | FreeRTOS/queue.c:744-855 | the send critical section, overwriting included, keeps the wake-up invariant; what it adds and whom it wakes is `QueueRuns.QueueIsDeque` and `QueueRuns.StepWakes` |
| `QueueProtocol.ReceiveKeeps` | FreeRTOS/queue.c:1264-1320 | receive, take and peek keep it |
| `QueueProtocol.PlaceKeeps` | FreeRTOS/queue.c:1329-1348 | a task that found the queue empty (or full) can be placed on the event list although interrupts posted in between |
| `QueueProtocol.SendFromISRKeeps` | FreeRTOS/queue.c:956-1067 | a post from an interrupt, locked or not, keeps it |
| `QueueProtocol.ReceiveFromISRKeeps` | FreeRTOS/queue.c:1780-1825 | a receive from an interrupt keeps it |
| `QueueProtocol.StepKeeps` | FreeRTOS/queue.c:232-244 | every critical section of tasks and interrupts keeps it |
| `QueueProtocol.NoLostWakeUp` | FreeRTOS/queue.c:744-919 | in every interleaving, if a receiver is blocked the messages waiting are at most the receivers woken but not yet retried plus the posts unlocking will announce; likewise senders and free places |
| `QueueProtocol.BlockedOnlyForCause` | FreeRTOS/queue.c:1264-1377 | once the woken tasks have retried, receivers are blocked only on an empty queue and senders only on a full one |
| `QueueRuns.OneAttempt` | FreeRTOS/queue.c:2040-2134 | a step changes the message count as its deque operation changes the length, and succeeds exactly if the deque operation does |
| `QueueRuns.QueueIsDeque` | FreeRTOS/queue.c:744-1825 | over every interleaving of tasks and interrupts, uxMessagesWaiting is the number of messages in the deque and each call returns what the deque replies |
| `QueueRuns.MessagesAreConserved` | FreeRTOS/queue.c:2066-2113 | over every run the message count is the initial one plus the accepted sends that overwrite nothing less the accepted receives that are not peeks |
| `QueueRuns.StepWakes` | FreeRTOS/queue.c:744-1825 | every step takes exactly the tasks it should off the front of the one list it serves, in order, and leaves the other list alone: one for an accepted call on an unlocked queue, one for each event counted when the lock ends |
| `QueueRuns.StepRearranges` | FreeRTOS/queue.c:1329-1348 | a task that blocks is put on the list of its side and one that leaves is on none; nobody else moves or is woken |
| `QueueRuns.NoSpuriousWakeUp` | FreeRTOS/queue.c:744-2252 | over every run no more receivers are woken than messages were announced, and no more senders than messages were taken |
| `QueueRuns.ResetIs` | FreeRTOS/queue.c:247-290 | a reset empties and unlocks the queue, wakes exactly the first blocked sender and leaves the receivers |
| `QueueProtocol.ResetKeepsIff` | FreeRTOS/queue.c:247-290 | a reset keeps the protocol invariant if and only if at most one sender waits or the woken senders can fill the queue |
| `QueueProtocol.ResetStrandsSender` | FreeRTOS/queue.c:262-275 | a run in which a reset leaves a sender blocked with two places free |
| `QueueLocks.WakeUpLostIff` | FreeRTOS/queue.c:2145-2252 | one side in a lock period, with other waiters, events before the placing, after it and after the unlock: a task is left waiting for something that is there if and only if 128 or more events came before the unlock and more tasks wait, and more is there, than the period wakes |
| `QueueLocks.UnlockWakes` | FreeRTOS/queue.c:2145-2252 | n events after the first m of a lock, and the unlock, wake exactly the first waiters: one for each of the m + n events up to 127, and otherwise one for each of the n from the 256th on |
| `QueueLocks.PeriodLostIff` | FreeRTOS/queue.c:1322-1377 | for every lock period with any interrupts at any time in it, from the lock to the second half of the unlock, a receiver is left blocked with messages that no woken receiver will take exactly under that condition, and likewise senders and free places |
| `QueueLocks.EndedIs` | FreeRTOS/queue.c:2145-2252 | how many tasks of a side are left waiting and how many are woken at the end of a lock period |
| `QueueLocks.ReceiverLostIff` | FreeRTOS/queue.c:1329-1348 | from creation: a receiver that blocks while messages are posted, n1 between its check and its placing and n2 after, is left blocked with all of them waiting if and only if there are 128 to 255, or more but n2 is 0 |
| `QueueLocks.SenderLostIff` | FreeRTOS/queue.c:880-905 | from creation: the same for a sender on a full queue and receives |
| `QueueControl.QueueControl.TrySend` | FreeRTOS/queue.c:744-855 | the control fields change as the protocol's send step says, and the result is true exactly if the queue has room or is overwritten |
| `QueueControl.QueueControl.TryReceive` | FreeRTOS/queue.c:1264-1320 | the control fields change as the protocol's receive step says |
| `QueueControl.QueueControl.LockQueue` | FreeRTOS/queue.c:232-244 | the lock counts change as the protocol's lock step says |
| `QueueControl.QueueControl.UnlockTxSide` | FreeRTOS/queue.c:2145-2219 | the loop computes the protocol's first unlock step |
| `QueueControl.QueueControl.UnlockRxSide` | FreeRTOS/queue.c:2221-2252 | the loop computes the protocol's second unlock step |
| `QueueControl.QueueControl.PostFromISR` | FreeRTOS/queue.c:956-1067 | the control fields change as the protocol's interrupt post says, whatever the lock count, int8_t wrap included |
| `QueueControl.QueueControl.TakeFromISR` | FreeRTOS/queue.c:1780-1825 | the control fields change as the protocol's interrupt receive says, whatever the lock count, int8_t wrap included |
| `QueueControl.QueueControl.ResetQueue` | FreeRTOS/queue.c:247-290 | the control fields change as the protocol's reset says |
| `QueueStorage.SendToBackAppends` | FreeRTOS/queue.c:2066-2078 | sending to the back appends to the deque through every wrap of the write pointer |
| `QueueStorage.SendToFrontPrepends` | FreeRTOS/queue.c:2079-2091 | sending to the front prepends to the deque through every wrap of the read pointer |
| `QueueStorage.OverwriteReplaces` | FreeRTOS/queue.c:2079-2113 | overwriting a queue of length 1 leaves exactly the new item |
| `QueueStorage.ReceiveTakesFirst` | FreeRTOS/queue.c:2119-2134 | receiving returns the first item and leaves the rest |
| `QueueStorage.PeekLeavesAll` | FreeRTOS/queue.c:1634-1645 | peeking returns the first item and changes nothing |
| `QueueStorage.ResetEmpties` | FreeRTOS/queue.c:247-260 | a reset queue is empty and its pointers are consistent |
| `QueueStorage.StorageRefinesDeque` | FreeRTOS/queue.c:2040-2134 | for every sequence of operations the storage replies as a bounded deque does, success and failure included, and ends with its items and count |
| `QueueBuffer.QueueBuffer.CopyIn` | FreeRTOS/queue.c:2068-2068 | the copy writes exactly one slot of the storage area |
| `QueueBuffer.QueueBuffer.SendBack` | FreeRTOS/queue.c:2066-2078 | byte offsets stay on item boundaries in bounds and the contents gain the item at the back |
| `QueueBuffer.QueueBuffer.SendFront` | FreeRTOS/queue.c:2079-2113 | the same at the front, and for overwriting |
| `QueueBuffer.QueueBuffer.CopyOut` | FreeRTOS/queue.c:2119-2134 | the read offset moves on by one item, around the end, and that item is copied |
| `QueueBuffer.QueueBuffer.ReceiveItem` | FreeRTOS/queue.c:1272-1278 | the first item is returned and removed |
| `QueueBuffer.QueueBuffer.PeekItem` | FreeRTOS/queue.c:1634-1645 | the first item is returned and everything stays |
| `QueueBuffer.QueueBuffer.ResetBuffer` | FreeRTOS/queue.c:247-260 | the contents become empty |
| `PriorityInheritance.QueuedIsInserted` | FreeRTOS/tasks.c:2910-2924 | placing a waiter by priority is vListInsert by the item value configMAX_PRIORITIES minus priority |
| `PriorityInheritance.TakeKeeps` | FreeRTOS/tasks.c:4398-4408 | taking a mutex keeps waiters in order and holders not below those who blocked since |
| `PriorityInheritance.BlockKeepsIff` | FreeRTOS/tasks.c:3801-3881 | blocking with inheritance keeps them if and only if the holder, at its raised priority, is not out of place in a list it waits in itself |
| `PriorityInheritance.GiveKeeps` | FreeRTOS/tasks.c:3888-3961 | giving a mutex back, with other mutexes held or not, keeps them |
| `PriorityInheritance.SettleKeepsIff` | FreeRTOS/tasks.c:3968-4063 | disinheriting after a waiter's time-out keeps them, if and only if it does not put a waiting holder out of place |
| `PriorityInheritance.ReorderIff` | FreeRTOS/tasks.c:3816-3827 | changing one waiter's item value keeps a list in order exactly if the new priority lies between the neighbours' |
| `PriorityInheritance.StepKeepsIff` | FreeRTOS/queue.c:1512-1585 | every step keeps inheritance sound except exactly those that put a waiting holder out of place |
| `Mutexes.CountsAreRight` | FreeRTOS/tasks.c:4398-4408 | over every run, nested blocking included, held counts equal the mutexes held, a task holding none has its base priority and no task is below its base priority |
| `PriorityInheritance.InheritanceIsSoundIff` | FreeRTOS/queue.c:1512-1585 | over every run, nested blocking included, waiters are in priority order and no holder is below a task that blocked since it took the mutex, in all states, if and only if no step puts a waiting holder out of place |
| `PriorityInheritance.InheritanceIsSound` | FreeRTOS/queue.c:1512-1585 | over every run in which a task that holds a mutex does not block on another, waiters are in priority order and a holder is not below any waiter that blocked since it took the mutex |
| `MutexTheorems.BlockIsExact` | FreeRTOS/tasks.c:3801-3881 | blocking raises only the holder, to the blocked task's priority if higher, notes inheritance exactly if the holder's base priority is below it, and queues the task behind all waiters of its priority or a higher one; nothing else changes |
| `MutexTheorems.TakeIsExact` | FreeRTOS/queue.c:1410-1440 | a free mutex goes to the taker, counted once; taking a held one changes nothing |
| `MutexTheorems.ExpireIsExact` | FreeRTOS/tasks.c:2660-2676 | a waiter that times out leaves the list, the others keep their order, and nothing else changes |
| `MutexTheorems.MutexIsExclusive` | FreeRTOS/queue.c:1410-1440 | over every run a mutex stays with the task that took it until that task gives it, whatever others do |
| `MutexTheorems.GiveIsExact` | FreeRTOS/tasks.c:3888-3961 | the giver drops to its base priority exactly with its last mutex and holds one mutex less, the first waiter is woken, and nothing else changes |
| `MutexTheorems.SettleIsExact` | FreeRTOS/tasks.c:3968-4063 | after a time-out that noted inheritance a holder of this mutex only has the larger of its base priority and the highest still waiting; otherwise, and for all others, nothing changes |
| `MutexTheorems.TakerCoversWaitersIff` | FreeRTOS/queue.c:1420-1434 | a task that takes a free mutex is not below the tasks already waiting if and only if it is not below the first of them |
| `MutexTheorems.StepCoversIff` | FreeRTOS/queue.c:1410-1585 | every step keeps all holders at or above all their waiters except exactly a take ahead of a higher waiter and a raise of a waiting holder above its own holder |
| `MutexTheorems.HoldersCoverWaitersIff` | FreeRTOS/queue.c:1410-1585 | over every run, inheritance is sound and all holders are at or above all waiters in all states if and only if no step is one of those |
| `MutexTheorems.LowTakerOvertakes` | FreeRTOS/queue.c:1420-1434 | a run from the start in which a task, with the scheduler suspended around its give and take, holds a mutex at its base priority below a task that waits for it |
| `MutexTheorems.NestedInheritanceStops` | FreeRTOS/tasks.c:3801-3881 | a run from the start in which a holder is raised while it waits and its own holder is not |
| `RecursiveMutexes.RecursiveMutexBalances` | FreeRTOS/queue.c:574-664 | whatever the holder and all other tasks do between, a recursive mutex stays held, counted once, until the give that makes the gives equal the takes, and exactly that give frees it |
| `RecursiveMutexes.RecursiveIsOutermost` | FreeRTOS/queue.c:574-664 | over every sequence of calls a recursive mutex has the holder, waiters, woken tasks and priorities of the mutex under it with only the outermost takes and gives |
| `MutexTable.MutexTable.TakeMutex` | FreeRTOS/queue.c:1410-1440 | the fields change as the take step says |
| `MutexTable.MutexTable.constructor` | FreeRTOS/queue.c:452-475 | with all mutexes free the counts and priorities are right |
| `MutexTable.MutexTable.BlockOnMutex` | FreeRTOS/queue.c:1512-1530 | the fields change as the block step says |
| `MutexTable.MutexTable.GiveMutex` | FreeRTOS/queue.c:2049-2057 | the fields change as the give step says, and the result is true exactly if the priority changed |
| `MutexTable.MutexTable.GiveUpAfterTimeout` | FreeRTOS/queue.c:1558-1585 | the fields change as the time-out step says |
| `Inheritance.InheritMove` | FreeRTOS/tasks.c:3830-3848 | the list move of inheritance keeps the scheduler invariant, bitmap included |
| `Inheritance.DisinheritMove` | FreeRTOS/tasks.c:3915-3933 | the list move of disinheritance keeps the scheduler invariant |
| `Inheritance.TimeoutKeepsBitsIff` | FreeRTOS/tasks.c:4010-4040 | the list move after a time-out keeps the bitmap right if and only if the holder is not alone in its ready list |
| `Inheritance.StaleBitMisleadsSelection` | FreeRTOS/tasks.c:4012-4035 | a running task above the holder times out, each alone in its ready list: the holder's bit stays set over an empty list, and once the task blocks the bitmap selection picks that list while the scan finds a lower one |
| `Inheritance.SamePriorityKeepsBits` | FreeRTOS/tasks.c:4010-4040 | the bitmap stays right whenever the holder has the priority of the task that timed out |
| `Inheritance.GiveKeepsPreemptionIff` | FreeRTOS/queue.c:807-832 | giving a mutex keeps the running task the highest ready one, or asks for a switch, if and only if it is not the case that it drops to its base priority, wakes a waiter not above that, and leaves a higher task ready |
| `MutexRuns.TimeoutGoodIff` | FreeRTOS/tasks.c:3968-4063 | a time-out keeps the scheduler intact if and only if the holder is not alone in its ready list and is not lifted above the running task with no switch asked for |
| `MutexRuns.MutexStepGoodIff` | FreeRTOS/tasks.c:3801-4063 | every kernel and mutex call keeps the invariant, the next unblock time and preemption, except exactly the gives and time-outs described |
| `MutexRuns.MutexCallsKeepGoodIff` | FreeRTOS/queue.c:807-832 | from the start of the scheduler, over every run of kernel and mutex calls, the scheduler is intact in all states if and only if no call is one of those |
| `MutexRefinement.GivePlain` | FreeRTOS/queue.c:751-832 | the giver goes behind those ready at its base priority, the first waiter is woken, and only if nobody waits the change of priority asks for a switch |
| `MutexRefinement.MutexStepRefines` | FreeRTOS/tasks.c:3801-4063 | every mutex call, also one that leaves a wrong bit or misses a switch, moves the holder and the waiter as the plain scheduler does |
| `KernelScripts.GivingMissesPreemption` | FreeRTOS/queue.c:807-832 | a run of kernel and mutex calls from the start in which a giver goes on running below a ready task and no switch is asked for |
| `KernelScripts.StaleBitCanHappen` | FreeRTOS/tasks.c:4012-4035 | a run of kernel and mutex calls from the start that is intact up to the time-out step and broken by it |
| `Timers.PlacementIsRight` | FreeRTOS/timers.c:647-685 | for command time <= now < command time + 2^32, process-now if and only if the unbounded expiry has passed, otherwise the list of the expiry's epoch |
| `Timers.InsertKeeps` | FreeRTOS/timers.c:647-685 | insertion keeps both lists sorted and in their epochs |
| `Timers.WrapIsSeen` | FreeRTOS/timers.c:624-644 | a sample is below the last one exactly when the tick count wrapped |
| `Timers.FlushOneKeeps` | FreeRTOS/timers.c:835-884 | each round of the switch loop keeps the lists right and the sum of 2^32 - expiry falls |
| `Timers.SampleKeeps` | FreeRTOS/timers.c:624-644 | sampling keeps the lists sorted and epoch-correct for the new time |
| `Timers.ProcessExpiredKeeps` | FreeRTOS/timers.c:462-499 | processing the head timer keeps the lists right and no callback is early |
| `Timers.ReceiveKeeps` | FreeRTOS/timers.c:688-832 | handling a command keeps the lists right and no callback is early; what each command does to its timer is in `TimerRuns` and `TimerChanges` |
| `Timers.InitialInv` | FreeRTOS/timers.c:352-382 | timers that have been created and not started satisfy the invariant |
| `TimerRuns.StaysOnSchedule` | FreeRTOS/timers.c:462-499 | no step of the daemon skips, repeats or shifts an expiry of an auto-reload timer |
| `TimerRuns.NoDrift` | FreeRTOS/timers.c:749-777 | whatever calls came before, an auto-reload timer that is started is called exactly once for each of c0+p, c0+2p, ..., never early, and whenever the daemon blocks every expiry so far has been called |
| `TimerRuns.ResetRestartsSchedule` | FreeRTOS/timers.c:749-777 | the same from the moment a start or reset of a running timer is handled; nothing of the earlier schedule is left |
| `TimerRuns.OneShotFiresOnce` | FreeRTOS/timers.c:749-777 | a one-shot timer is called at most once, for c0+p and not early, and has been called once the daemon blocks at or after that time |
| `TimerRuns.StoppedTimerIsSilent` | FreeRTOS/timers.c:779-783 | after a stop or delete command is handled the timer is not called again until it is started |
| `TimerChanges.ExecuteChange` | FreeRTOS/timers.c:786-797 | a change of period stores the new period and files the timer for that many ticks from now, without calling it |
| `TimerChanges.ChangeRestartsSchedule` | FreeRTOS/timers.c:786-797 | from the moment a change of the period to v is handled at time c0, an auto-reload timer is called exactly for c0+v, c0+2v, ..., never early, and whenever the daemon blocks every expiry so far has been called |
| `TimerChanges.OneShotRestarts` | FreeRTOS/timers.c:749-797 | a one-shot timer that is started, reset or given a new period, running or not, is called at most once, for the command's time plus its period or for now plus the new one, and has been called once the daemon blocks at or after that time |
| `TimerChanges.CallsAreMadeNow` | FreeRTOS/timers.c:462-499 | every callback a step makes is made at the time of the step, and posting a command makes none |
| `TimerChanges.ProcessCallsFirst` | FreeRTOS/timers.c:538-621 | a round of the daemon calls the timer that is due first, if one is due, and otherwise none |
| `TimerDaemon.TimerDaemon.InsertTimerInActiveList` | FreeRTOS/timers.c:647-685 | the variables change as `Timers.Insert` says |
| `TimerDaemon.TimerDaemon.constructor` | FreeRTOS/timers.c:894-940 | the daemon starts with empty lists and an empty queue, and its invariant holds |
| `TimerDaemon.TimerDaemon.SwitchTimerLists` | FreeRTOS/timers.c:835-891 | the loop terminates and computes `Timers.Switch` |
| `TimerDaemon.TimerDaemon.SampleTimeNow` | FreeRTOS/timers.c:624-644 | the variables change as `Timers.Sample` says |
| `TimerDaemon.TimerDaemon.ProcessExpiredTimer` | FreeRTOS/timers.c:462-499 | the variables change as `Timers.ProcessExpired` says |
| `TimerDaemon.TimerDaemon.ProcessTimerOrBlock` | FreeRTOS/timers.c:538-621 | the variables change as `Timers.ProcessTimer` says |
| `TimerDaemon.TimerDaemon.ProcessReceivedCommand` | FreeRTOS/timers.c:688-832 | the variables change as `Timers.Receive` says |
| `Heaps.BySizeInOrder` | FreeRTOS/heap_2.c:97-115 | insertion keeps the free list in order of size and adds the block's size to the free sum |
| `Heaps.SplitTiles` | FreeRTOS/heap_2.c:171-186 | cutting a block in two keeps the blocks a tiling of the heap |
| `Heaps.HeapPartition` | FreeRTOS/heap_2.c:118-234 | over every run of malloc and correct free the blocks tile the aligned heap, the free list is ordered, xFreeBytesRemaining is the sum of the free blocks, and free plus used bytes make up the heap |
| `Heaps.MallocIsBestFit` | FreeRTOS/heap_2.c:150-189 | malloc returns a smallest adequate block, over-allocates by at most heapMINIMUM_BLOCK_SIZE, and fails exactly for zero, a padded size not below the heap size, or no adequate block |
| `Heaps.BySizePlaces` | FreeRTOS/heap_2.c:97-115 | a block is inserted in front of the first block that is not smaller |
| `Heaps.MallocHands` | FreeRTOS/heap_2.c:150-189 | the first adequate block of the list is handed out, whole if it has no more than heapMINIMUM_BLOCK_SIZE to spare and otherwise cut to size with the rest as one new free block; no other block changes |
| `Heaps.FreeReturns` | FreeRTOS/heap_2.c:210-234 | the freed block is free again in its place by size, its bytes are counted, and nothing else changes |
| `Heaps.CapacityIff` | FreeRTOS/heap_2.c:136-148 | the block handed out holds the request if and only if request plus header does not wrap size_t |
| `Heaps.WrappedRequestGetsNothing` | FreeRTOS/heap_2.c:136-148 | the largest request is granted a block with no room |
| `Heaps.MallocSucceedsAgain` | FreeRTOS/heap_2.c:210-233 | a request that succeeded and was freed succeeds again if only frees came between |
| `HeapMemory.HeapMemory.HeapInit` | FreeRTOS/heap_2.c:249-271 | the linked list holds one free block, the whole heap |
| `HeapMemory.HeapMemory.InsertBlockIntoFreeList` | FreeRTOS/heap_2.c:97-115 | the loop stops before xEnd and relinks the list to the ordered insertion |
| `HeapMemory.HeapMemory.FindBlock` | FreeRTOS/heap_2.c:152-161 | the loop finds the first adequate block and its predecessor, or xEnd |
| `HeapMemory.HeapMemory.TakeFound` | FreeRTOS/heap_2.c:163-189 | unlinking and splitting compute `Heaps.TakeBlock` |
| `HeapMemory.HeapMemory.Malloc` | FreeRTOS/heap_2.c:118-207 | pvPortMalloc computes `Heaps.Malloc`, initialising on first use |
| `HeapMemory.HeapMemory.Free` | FreeRTOS/heap_2.c:210-234 | vPortFree computes `Heaps.Free`, and does nothing for NULL |
| `CoRoutines.SwapOnlyWhenEmpty` | FreeRTOS/croutine.c:231-240 | the delay lists are swapped only when the current one is empty |
| `CoRoutines.WakeDueEffect` | FreeRTOS/croutine.c:243-270 | the inner loop readies exactly the due co-routines and takes them off their event lists |
| `CoRoutines.CatchUpExact` | FreeRTOS/croutine.c:220-275 | any number of passed ticks readies exactly the co-routines whose unbounded wake time has come, as single ticks would |
| `CoRoutines.DrainPendingEffect` | FreeRTOS/croutine.c:197-217 | exactly the pending co-routines become ready |
| `CoRoutines.ScheduleRunsHighest` | FreeRTOS/croutine.c:278-305 | the co-routine selected is ready with the highest ready priority, and none is selected only if none is ready |
| `CoRoutines.SchedulingIsExact` | FreeRTOS/croutine.c:278-305 | after every run of calls a scheduling call readies exactly the pending and the due co-routines |
| `CoRoutines.AddToDelayedKeeps` | FreeRTOS/croutine.c:159-194 | a delayed co-routine is due exactly the given number of ticks later and is on the event list exactly if one is given; no other co-routine moves and the delay lists stay in order |
| `CoRoutines.EventOccursKeeps` | FreeRTOS/croutine.c:328-350 | an event moves a waiter to the pending list and keeps the invariant |
| `CoRoutines.EventReadiesHighest` | FreeRTOS/croutine.c:328-350 | after every run of calls an event moves a waiter of highest priority, and only it, to the pending list, returns exactly whether it is not below the current co-routine, and the next scheduling call makes it ready |
| `CoRoutines.CreateKeeps` | FreeRTOS/croutine.c:102-156 | creating a co-routine keeps the invariant, in which one is current from the first creation on |
| `CoRoutineRefinement.CreatePlain` | FreeRTOS/croutine.c:102-156 | the new co-routine is ready behind those of its clamped priority, and current if it is the first |
| `CoRoutineRefinement.DelayPlain` | FreeRTOS/croutine.c:159-194 | the running co-routine sleeps in the order of the wake times and queues for the event behind those of its priority |
| `CoRoutineRefinement.EventPlain` | FreeRTOS/croutine.c:328-350 | the first waiter, and only it, is held, behind those held before it |
| `CoRoutineRefinement.SchedulePlain` | FreeRTOS/croutine.c:278-305 | those held become ready in order, then those due tick by tick, and the next in turn of the highest priority becomes current |
| `CoRoutineRefinement.CoRoutinesArePlain` | FreeRTOS/croutine.c:102-350 | over every run of calls the lists in all their order, priorities, time and current co-routine are those of the plain scheduler |
| `CoRoutineFairness.EventReadiesLongestWaiting` | FreeRTOS/croutine.c:159-350 | over every run of calls the co-routine an event readies before its time is, of those of the highest priority, the one that delayed itself first |
| `CoRoutineScheduler.CoRoutineScheduler.MakeReady` | FreeRTOS/croutine.c:67-74 | the variables change as `CoRoutines.Wake` says |
| `CoRoutineScheduler.CoRoutineScheduler.constructor` | FreeRTOS/croutine.c:308-326 | the scheduler starts with empty lists, and its invariant holds |
| `CoRoutineScheduler.CoRoutineScheduler.Create` | FreeRTOS/croutine.c:102-156 | the variables change as `CoRoutines.Create` says, the first co-routine becoming current |
| `CoRoutineScheduler.CoRoutineScheduler.AddToDelayedList` | FreeRTOS/croutine.c:159-194 | the variables change as `CoRoutines.AddToDelayed` says, event list included |
| `CoRoutineScheduler.CoRoutineScheduler.RemoveFromEventList` | FreeRTOS/croutine.c:328-350 | the variables and the result are as `CoRoutines.EventOccurs` says |
| `CoRoutineScheduler.CoRoutineScheduler.CheckPendingReadyList` | FreeRTOS/croutine.c:197-217 | the loop computes `CoRoutines.DrainPending` |
| `CoRoutineScheduler.CoRoutineScheduler.CheckDelayedList` | FreeRTOS/croutine.c:220-275 | the nested loops compute `CoRoutines.CatchUp` |
| `CoRoutineScheduler.CoRoutineScheduler.FindHighest` | FreeRTOS/croutine.c:287-296 | the loop finds the highest ready list that is not empty |
| `CoRoutineScheduler.CoRoutineScheduler.Schedule` | FreeRTOS/croutine.c:278-305 | the variables change as `CoRoutines.Schedule` says |

## Left out

- Context switch, SVC, PendSV and register access: a switch is one atomic step and a critical section is atomic.
- The time before vTaskStartScheduler: runs start from a running scheduler with the idle task only.
- A task-level call comes from the running task, and an interrupt that is told to switch does so; the model records the request and not who reads it.
- KernelCalls.Suspend: the yield of a task that suspends itself is recorded with the first critical section.
- KernelCalls.Block: the time-out chain around it is modelled in `TimeOuts`, not in the kernel state.
- Wrap-around of the overflow counter (2^64 ticks): the number of tick wraps is an unbounded number.
- KernelFairness.EventWakesLongestWaiting: runs in which a waiting task is given another priority are covered by `KernelEvents.WaiterPriorityChangeIff` only.
- KernelTheorems.NoMissedPreemption: its runs make no mutex calls; runs that do are in `MutexRuns`.
- MutexRuns.MutexCallsKeepGoodIff: who holds which mutex is left open, so it speaks of any holder, base priority and new priority; ownership is in `Mutexes`, which has no scheduler.
- PriorityInheritance.InheritanceIsSoundIff: priorities are not set by calls, and neither held mutexes nor holders are deleted.
- Queue sets, queue deletion, event groups, task notifications, stream and message buffers, and xTaskAbortDelay, which are off or not part of this source.
- QueueProtocol.NoLostWakeUp: tasks that were woken and then deleted before trying again are not modelled; a waiter takes any place in the event list, since its order does not matter here.
- TimerRuns.NoDrift: the command queue has room, and commands sent by a callback are queued after the step that called it; pended function calls are not modelled.
- Timers.ReceiveKeeps: deleting a timer does not free its memory in the model.
- Contents of blocks and of task, timer and co-routine functions.
- The co-routine queue functions of queue.c, which repeat the ring buffer moves.
- Static allocation, MPU wrappers, trace, statistics, formatting, queue registry, thread-local storage, task tags, tickless idle and stack checks: bookkeeping or text output.
- MQTT client, drivers and lwIP: glue code and declarations.
