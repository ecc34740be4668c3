# FreeRTOS kernel, modelled and verified in Dafny

This project models the FreeRTOS V10.4.3 kernel that the repository carries under `core/freertos`
and proves what its pieces keep over whole runs. Constants are those of
`core/config/FreeRTOSConfig.h`: 32 priorities, 32-bit ticks, mutexes on, queue sets and tickless
idle off. The pieces and the files that model them:

- **Lists** (`Rings.dfy`, `Lists.dfy`). A kernel list denotes a `Ring`: its items in link order and
  the position of `pxIndex`. The pointer structure refines it.
- **Scheduler** (`Kernel.dfy`, `KernelInvariant.dfy`, `KernelRuns.dfy`, `KernelTime.dfy`,
  `KernelPreemption.dfy`, `KernelStale.dfy`, `KernelReady.dfy`, `KernelEffects.dfy`, `KernelLists.dfy`,
  `KernelTcbs.dfy`, `KernelWaits.dfy`, `KernelSlices.dfy`, `KernelExamples.dfy`, `Scheduler.dfy`,
  `DelayedLists.dfy`). `Kernel.State` holds the globals of `tasks.c`; each call, tick and context switch
  is a function on it, `Op` and `Step` put them into one state machine, and `Run` executes any sequence
  of them. What a step comes to is stated apart from how it is done, each time from the state before it:
  who is ready afterwards, who is suspended, pending or on an event list, what the TCBs hold, and whether
  a switch was asked for; the laws over runs in `KernelWaits.dfy` build on that.
  `KernelExamples.dfy` works runs out state by state. The class `Scheduler.Globals` updates the
  same globals in place, with the loops of the source, and is proved to do what the functions say;
  `DelayedLists.Delays` does so for the sleeping tasks on linked lists.
- **Time** (`Ticks.dfy`, `TimeOuts.dfy`). 32-bit counters against unbounded time.
- **Queues** (`Queues.dfy`, `QueueStorage.dfy`, `QueueLocks.dfy`, `QueueProtocol.dfy`). The byte storage
  refines a bounded double-ended queue; the lock protocol is a state machine over critical sections in
  which tasks and interrupts interleave.
- **Mutexes** (`Mutexes.dfy`, `MutexPremises.dfy`, `MutexTimeouts.dfy`, `MutexRuns.dfy`,
  `MutexExamples.dfy`). Taking, giving, waiting, timing out and inheriting priorities; which steps keep
  inheritance exactly; and mutexes and scheduler run together, each mutex call being the calls it makes
  of the scheduler.
- **Software timers** (`Timers.dfy`, `TimerRuns.dfy`, `TimerOneShot.dfy`, `TimerCommands.dfy`,
  `TimerService.dfy`). Auto-reload and one-shot timers over whole runs, and what each command does to
  its timer.
- **Stream and message buffers** (`StreamBuffers.dfy`, `MessageBuffers.dfy`).
- **Event groups** (`EventGroups.dfy`, `EventWaits.dfy`, `Rendezvous.dfy`).

Critical sections and regions with the scheduler suspended are atomic, except where the point of a
model is what happens between them (queue locks, message buffers, timer commands). The port's bitmap
macros are taken as set bit, clear bit and highest set bit. Words of flag bits are modelled as the
sets of their one bits. `xNumOfOverflows` is unbounded, so that it and `xTickCount` together give the
unbounded time.

## What the code does and does not meet

Where a property holds only under a condition, the project proves the exact condition:

- `vTaskPriorityDisinheritAfterTimeout` resets the ready bit of the new priority instead of the one
  whose list it removed the holder from (`tasks.c:4258`). The bitmap stays exact if and only if that
  list is not emptied (`DisinheritBitExact`). Otherwise exactly that one bit is left set over an empty
  list (`TimeoutLeavesStale`). The selection then finds a task if and only if the stale bit is not the
  highest (`StaleSelectionIff`); as long as it is not, every step does what it would do without the bit
  (`StepMarked`), and the bit survives the step if and only if nobody is ready at its priority afterwards
  and the step is not the suspension or deletion of a task of that priority that sleeps alone on its
  list, whose `taskRESET_READY_PRIORITY` clears it (`StaleSurvivesIff`).
  `KernelExamples.TimeoutBreaksSelection` is a run from the start that leaves such a bit, by raising a
  waiter's priority during its wait, and fails to select when that waiter next blocks;
  `KernelExamples.SuspensionRepairs` continues it to a suspension that puts the bit right.
- With base priorities fixed, in every run of scheduler and mutexes together in which callers keep to the
  premises of `MutexRuns.Entitled`, no timeout ever empties that list (`MutexRuns.TimeoutsKeepBitmap`).
- Every step keeps a switch flagged for a ready task above the running one, except two
  (`StepPreemptsIff`). Giving back a mutex that nobody waits for always keeps it; when a waiter is woken,
  the yield that `xTaskPriorityDisinherit` asks for is not looked at (`queue.c:870-892`), and it is kept if
  and only if the giver is not lowered, a switch was flagged already, the waiter outranks the giver's base
  priority, or no other ready task is above that base (`GivePreemptsIff`).
  `KernelExamples.GivingMissesPreemption` is a run in which it is not: two mutexes given in the other
  order. The disinheritance after a timeout has its own exact condition (`TimeoutPreemptsIff`). No run
  whose steps meet the conditions misses a preemption (`NoMissedPreemptionOverRuns`).
- Locking a queue is transparent: interrupt sends and receives between lock and unlock have the effect
  they would have on the unlocked queue, if and only if on each side at most 127 of them succeed, nobody
  waits, or the 8-bit count has come so far round that everybody was woken (`LockTransparentIff`). The
  assertion against the 128th only reports it (`core/config/FreeRTOSConfig.h:104`). `OneSendTooMany`: after
  127 sends the unlock wakes the waiter, after 128 it does not.
- `vTaskPrioritySet` and `xTaskPriorityInherit` rewrite the event item of a waiting task where it stands.
  A step keeps the event lists in priority order if and only if it is not a rewriting to a value that does
  not fit between the neighbours (`StepOrderedIff`); `RaisedWaiterIsPassedOver` is a run in which the next
  send wakes a waiter of priority 5 and passes over one of priority 9.
- `xTaskCheckForTimeOut` is wrong if and only if the tick count wrapped at least twice unseen, shows
  a tick below the one on entering, and the wrapped distance looks short (`CheckExactIff`,
  `UnseenWraps`).
- The space computations of a stream buffer are exact if and only if their intermediate sum fits 32
  bits (`SpaceExactIff`). Where they are not they report too little, never too much (`SpaceNeverOver`);
  `LargeBuffersUnderReport` gives such buffers of more than 2^31 bytes, and `CutsLargeMessageShort` sends
  a message through one and receives only its first part.
- Overwriting a full queue of zero-size items pushes the message count over the queue length
  (`OverwriteExceedsBound`); any other permitted send keeps the bound (`SendKeepsBoundIff`), and so does
  every run without such overwriting (`BoundedOverRuns`).
- Stopping a timer leaves nothing of it behind, and silences it until its next command, if and only if no
  message for it is queued behind the stop (`StopSilencesIff`). `StopUndone` is a run in which one is: the
  service task finds an auto-reload timer two periods late and a stop in its queue, posts the restart
  behind the stop (`timers.c:530-536`), and the restart brings the stopped timer back to life.
- A one-shot timer is marked inactive after its callback only by `prvProcessExpiredTimer`. The loop that
  switches the lists, and a start command that finds its timer due, leave it marked active with nothing
  to call it back (`ActiveAfterCallback`; `timers.c:800-826`, `timers.c:896-953`).
- Priority inheritance survives a take if and only if nobody left waiting outranks the taker
  (`TakeKeepsIff`), a wait if and only if the holder is not itself held up by a lower task
  (`WaitKeepsIff`), and a new base priority if and only if it fits (`PrioritySetKeepsIff`). The
  examples `TakerMustRun`, `WaiterMustHoldNothing`, `WokenMustStayReady` and `BasesMustStay` each drop
  one premise of the theorem over runs and break the property.

## Model

| member | source | states |
|---|---|---|
| Rings.WalkServesEachOnce | core/freertos/include/list.h:279-290 | n cursor steps on an unchanged n-item list return each owner exactly once, in service order |
| Rings.AdvanceRotates | core/freertos/include/list.h:279-290 | a cursor step serves the head of the service order and rotates it to the back |
| Rings.InsertEndServedLast | core/freertos/list.c:85-112 | an item added by vListInsertEnd is served after every other item except the one under the cursor |
| Rings.RemoveKeepsServiceOrder | core/freertos/list.c:183-209 | removal drops one item and keeps the walk order of the rest, even when the cursor was on it |
| Rings.RemoveUndoesInsertEnd | core/freertos/list.c:85-209 | removing what was just inserted at the end restores list and cursor |
| Rings.InsertSortedStable | core/freertos/list.c:115-180 | sorted insertion keeps the order and puts the item behind its equals |
| Rings.InsertSortedAdds | core/freertos/list.c:115-180 | sorted insertion adds exactly the one item |
| Lists.List.constructor | core/freertos/list.c:48-70 | vListInitialise yields a valid empty list whose end marker links to itself |
| Lists.List.InsertEnd | core/freertos/list.c:85-112 | the four pointer writes refine Rings.InsertEnd |
| Lists.List.Insert | core/freertos/list.c:115-180 | the search loop ends for every value, the maximum included, and refines sorted insertion |
| Lists.List.Remove | core/freertos/list.c:183-209 | unlinking refines Rings.RemoveAt and returns the number of items left |
| Lists.List.OwnerOfNextEntry | core/freertos/include/list.h:279-290 | the cursor macro refines Rings.Advance and returns the selected owner |
| KernelInvariant.OnExactlyOneList | core/freertos/tasks.c:188-238 | a live task's state item is on exactly one list; ready, asleep and terminating exclude each other |
| KernelInvariant.PutReadyInv | core/freertos/tasks.c:222-226 | a task on no list that is added to its ready list is ready, on exactly that list, and the whole invariant holds again |
| KernelRuns.StepInv | core/freertos/tasks.c:1001-1175 | every call, tick and switch keeps the partition of tasks over lists, own-priority ready lists, exact bitmap, ordered future wake times and a sound unblock cache |
| KernelRuns.PartitionOverRuns | core/freertos/tasks.c:188-238 | in every run from the start each task is on exactly one list, list lengths sum to the task count, ready tasks are on their own list and bit p is set iff ready list p is non-empty |
| KernelRuns.LengthsCount | core/freertos/tasks.c:1001-1035 | the lengths of all state lists sum to uxCurrentNumberOfTasks |
| KernelRuns.CreateInv | core/freertos/tasks.c:1001-1083 | creating a task keeps the invariant |
| KernelRuns.DeleteInv | core/freertos/tasks.c:1087-1175 | deleting a task, the running one included, keeps the invariant |
| KernelRuns.CleanUpInv | core/freertos/tasks.c:3613-3638 | freeing a terminated task keeps the invariant |
| KernelRuns.SuspendInv | core/freertos/tasks.c:1639-1740 | suspending a task from any list keeps the invariant |
| KernelRuns.ResumeInv | core/freertos/tasks.c:1745-1837 | resuming, with its test for tasks waiting on events, keeps the invariant |
| KernelRuns.PrioritySetInv | core/freertos/tasks.c:1473-1634 | changing a priority moves a ready task to its new list and keeps the invariant |
| KernelRuns.ReprioritiseInv | core/freertos/tasks.c:4046-4068 | inheriting a priority moves a ready holder and keeps the invariant |
| KernelRuns.DisinheritInv | core/freertos/tasks.c:4107-4180 | giving a mutex back keeps the invariant |
| KernelRuns.GiveInv | core/freertos/queue.c:866-892 | giving a mutex back and waking its first waiter, in one critical section, keeps the invariant |
| KernelRuns.DisinheritBitExact | core/freertos/tasks.c:4187-4286 | disinheriting after a timeout keeps the bitmap exact iff it does not empty the ready list it removes from, and then keeps the whole invariant |
| KernelRuns.RemoveFromEventListInv | core/freertos/tasks.c:3098-3163 | unblocking takes the task off its event list and puts it on its ready list or, with the scheduler suspended, on the pending-ready list, and keeps the invariant |
| KernelRuns.RemoveFromUnorderedEventListInv | core/freertos/tasks.c:3166-3212 | the unordered form readies the task at once and keeps the invariant |
| KernelRuns.AbortDelayInv | core/freertos/tasks.c:2580-2653 | aborting a delay keeps the invariant |
| KernelRuns.NotifyInv | core/freertos/tasks.c:4809-4928 | notifying a waiting task keeps the invariant |
| KernelRuns.BlockCurrentInv | core/freertos/tasks.c:5230-5304 | blocking, on whichever list the wake time belongs or, without a time limit, on the suspended list, keeps the invariant |
| KernelRuns.EmptyAtWrap | core/freertos/tasks.c:202-214 | the current delayed list is empty whenever the tick count is about to wrap and the lists are swapped |
| KernelRuns.TickNowInv | core/freertos/tasks.c:2658-2812 | a processed tick keeps the invariant |
| KernelRuns.ResumeAllInv | core/freertos/tasks.c:2143-2251 | resuming the scheduler, with its drain and its replayed ticks, keeps the invariant |
| KernelRuns.SwitchContextInv | core/freertos/tasks.c:2943-2996 | a context switch keeps the invariant |
| KernelRuns.SelectionSucceeds | core/freertos/tasks.c:173-181 | the highest set ready bit always names a non-empty list |
| KernelTime.EarlyOutSound | core/freertos/tasks.c:2692-2768 | the tick handler with the early-out on xNextTaskUnblockTime readies the same tasks and asks for the same switch as one that scans the delayed list on every tick |
| KernelTime.BlockWakesAt | core/freertos/tasks.c:5230-5304 | blocking for d ticks at time T lists the task for the unbounded time T + d, across the wrap |
| KernelTime.TickWakesExactly | core/freertos/tasks.c:2658-2768 | the tick that makes time w readies the tasks due at w and leaves every other delayed task listed |
| KernelTime.WakesExactly | core/freertos/tasks.c:202-214 | over every run, a delayed task nobody disturbs stays delayed until its time in every earlier state and is on its own ready list in the first state at which the time has come |
| KernelTime.ResumeAllComplete | core/freertos/tasks.c:2143-2251 | after the outermost resume no tick is pended, no task pending, time has advanced by the pended ticks, every task readied or expired meanwhile is on its own ready list and all others keep their wake time |
| KernelTime.NoTickLost | core/freertos/tasks.c:2814-2825 | over any nesting of suspend and resume, tick count plus pended ticks counts every tick modulo 2^32 |
| KernelEffects.StepReadies | core/freertos/tasks.c:2580-3212 | every call, tick and switch makes ready exactly the tasks it is for and takes off their ready lists exactly those it is for, told from the state before it: a tick the tasks due at it, a resume those woken or due meanwhile, an unblocking, notification, abort or resumption its one task, and no step anybody else |
| KernelLists.StepLists | core/freertos/tasks.c:1639-1837 | every step puts on the suspended and the pending-ready list, and takes off them, exactly the tasks it should: among others a caller that blocks without a time limit, and a task woken while the scheduler is suspended |
| KernelLists.StepListed | core/freertos/tasks.c:3019-3212 | every step puts on an event list, and takes off it, exactly the tasks it should |
| KernelLists.StepTerminating | core/freertos/tasks.c:1117-1139 | a task that deletes itself waits to be freed, in order; no other step changes who does |
| KernelTcbs.StepTcbs | core/freertos/tasks.c:4017-4286 | every step's exact effect on base and inherited priorities, mutex counts and the two flags of each TCB, and on which tasks exist |
| KernelTcbs.StepNests | core/freertos/tasks.c:2059-2078 | suspending and resuming the scheduler nest, and only a switch with the scheduler running changes the running task |
| KernelWaits.WokenIsReady | core/freertos/tasks.c:3098-3163 | nothing woken is lost: with the scheduler running the task is ready at once; with it suspended, after any steps that neither suspend nor delete the task, it is ready when the scheduler runs again |
| KernelWaits.BlockedForever | core/freertos/tasks.c:5258-5267 | a task that waits with portMAX_DELAY, by whichever call, is ready in no state of any run that neither ends its wait nor resumes it, however many ticks pass |
| KernelWaits.WaitWakesAt | core/freertos/tasks.c:4723-4806 | a wait for an event or a notification with a time limit of d ticks lists the task for the unbounded time T + d |
| KernelWaits.BlockedForExactly | core/freertos/tasks.c:5230-5304 | over every run, a task that blocks for d ticks by whichever call and that nobody disturbs is delayed in every state before T + d and ready in the first state at which that time has come |
| KernelWaits.SuspendedUntilResumed | core/freertos/tasks.c:1639-1837 | a suspended task is ready in no state of any run until it is resumed or deleted, whatever it waited for and whatever else is called, and resuming it then makes it ready unless it is still the running task |
| KernelSlices.SlicesTime | core/freertos/tasks.c:2745-2808 | a tick asks for a switch exactly when one was asked for or pending, another task of the running task's priority is ready, or a task of higher priority wakes at it |
| KernelSlices.ResumeAsksIff | core/freertos/tasks.c:2166-2240 | exactly when the outermost xTaskResumeAll leaves a yield pending and asks for a switch |
| KernelSlices.CallAsksIff | core/freertos/tasks.c:1473-1634 | exactly when each call asks for a switch or leaves a yield pending |
| KernelSlices.RoundRobin | core/freertos/tasks.c:2943-2996 | switches that follow one another run the ready tasks of the highest priority in turn, for any number of them |
| KernelSlices.ReadiedServedLast | core/freertos/tasks.c:222-226 | a task that a call readies joins the service order of its priority behind the tasks already there, and no other list changes |
| KernelPreemption.NoMissedPreemptionOverRuns | core/freertos/tasks.c:2943-2996 | in every state of every run from the start whose mutex gives and timeouts meet their conditions, a ready task that outranks the running one has a switch pending or requested |
| KernelPreemption.NoMissedPreemptionWithoutMutexes | core/freertos/tasks.c:2943-2996 | in particular in every run without mutexes |
| KernelPreemption.StepPreemptsIff | core/freertos/tasks.c:1510-1620 | every step keeps that property, lowering another task's priority included, except exactly the gives and timeouts that fail their conditions |
| KernelPreemption.TimeoutPreemptsIff | core/freertos/tasks.c:4187-4286 | a disinheritance after a timeout keeps it iff it changes no priority, a switch is flagged, or it neither raises a ready holder above the caller nor takes the caller below another ready task |
| KernelPreemption.SelectsHighest | core/freertos/tasks.c:173-181 | a permitted switch selects the head of the service order of the highest non-empty ready list |
| KernelPreemption.PendingYieldServed | core/freertos/tasks.c:2770-2812 | with the scheduler running a pending yield becomes a request at the next tick |
| KernelPreemption.GivePreemptsIff | core/freertos/queue.c:866-892 | giving back a mutex nobody waits for keeps the property always; with a waiter iff the giver is not lowered, a switch was flagged, the waiter outranks the giver's base, or no other ready task is above that base |
| KernelExamples.GivingMissesPreemption | core/freertos/queue.c:866-892 | a run from the start, two mutexes given in the other order, after which a give leaves a higher ready task and no switch flagged |
| KernelStale.TimeoutLeavesStale | core/freertos/tasks.c:4251-4265 | a disinheritance after a timeout that empties the entry list is an ordinary reprioritisation with exactly that list's bit left set |
| KernelStale.StaleSelectionIff | core/freertos/tasks.c:173-181 | in every state with one stale bit the selection finds a task iff that bit is not the highest |
| KernelStale.StepMarked | core/freertos/tasks.c:185-194 | every step from a state with a stale bit below the highest is the step without the bit, with the bit kept unless the step is a suspension or deletion whose reset clears it |
| KernelStale.StaleSurvivesIff | core/freertos/tasks.c:1098-1101 | a stale bit survives a step iff nobody is ready at its priority afterwards and the step is not such a suspension or deletion; otherwise the bitmap is exact again |
| KernelStale.StaleOverRuns | core/freertos/tasks.c:1653-1656 | a run with a stale bit goes as it would without, with the bit or cured of it, until it reaches a state in which the selection fails |
| KernelExamples.TimeoutBreaksSelection | core/freertos/tasks.c:4251-4265 | a run from the start that reaches a timeout leaving a stale bit: the next selection succeeds and the one after the waiter blocks fails |
| KernelExamples.SuspensionRepairs | core/freertos/tasks.c:1653-1656 | a continuation of that run in which suspending a sleeping task makes the bitmap exact while nobody becomes ready |
| Scheduler.Globals.constructor | core/freertos/tasks.c:1920-2045 | the started scheduler has only the idle task and satisfies the invariant |
| Scheduler.Globals.AddCurrentTaskToDelayedList | core/freertos/tasks.c:5230-5304 | leaves the caller suspended when it may block indefinitely and asks to, and otherwise listed for the unbounded time T + d; refines Kernel.BlockCurrent and keeps the invariant |
| Scheduler.Globals.UnblockDue | core/freertos/tasks.c:2692-2768 | the unblocking loop ends and refines Kernel.Expire |
| Scheduler.Globals.DrainPending | core/freertos/tasks.c:2166-2185 | the pending-ready loop ends with the list empty and refines Kernel.Drain |
| Scheduler.Globals.ReplayTicks | core/freertos/tasks.c:2204-2228 | the loop over pended ticks refines Kernel.Replay |
| Scheduler.Globals.ResumeScheduler | core/freertos/tasks.c:2143-2251 | xTaskResumeAll refines Kernel.ResumeAll, keeps the invariant and reports whether it yielded |
| Scheduler.Globals.CheckTasksWaitingTermination | core/freertos/tasks.c:3613-3638 | the idle task's loop frees every terminated task, ends with both counts agreeing at zero and keeps the invariant |
| Scheduler.Globals.PriorityDisinheritAfterTimeout | core/freertos/tasks.c:4187-4286 | refines the function on states; the bitmap stays exact iff the entry list survives |
| DelayedLists.InsertInto | core/freertos/list.c:115-180 | insertion into the linked list, seen as owners and wake times, is sorted insertion |
| DelayedLists.ExpireTakesDue | core/freertos/tasks.c:2692-2768 | the scheduler's expiry takes exactly the due prefix off the delayed list and resets the unblock time to the new head |
| DelayedLists.TickTakesDue | core/freertos/tasks.c:2658-2768 | so does a tick, unless its early-out skips the list |
| DelayedLists.Delays.Sleep | core/freertos/tasks.c:5274-5304 | listing a task on the linked list its wake time belongs to simulates the scheduler's blocking |
| DelayedLists.Delays.UnblockDue | core/freertos/tasks.c:2692-2730 | the loop over the linked list ends, takes off the due items in order and leaves an undue head |
| DelayedLists.Delays.ProcessTick | core/freertos/tasks.c:2658-2730 | a tick on the two linked lists, with their switch at the wrap, simulates the scheduler's tick |
| TimeOuts.CheckExactIff | core/freertos/tasks.c:3235-3297 | one check reports a timeout iff the wait has passed, unless two wraps went unseen in a way the condition describes, and then it does not |
| TimeOuts.UnseenWraps | core/freertos/tasks.c:3235-3297 | a concrete check that misses a timeout |
| TimeOuts.ChecksTelescope | core/freertos/tasks.c:3235-3297 | over any sequence of checks with at most one wrap between them the first to report a timeout is the first at which the original wait has passed in full |
| TimeOuts.ForeverNeverReports | core/freertos/tasks.c:3261-3268 | no check reports a wait of portMAX_DELAY over, in any sequence of checks, and none changes it |
| TimeOuts.TimeOut.Check | core/freertos/tasks.c:3235-3297 | the in-place update, with the aborted delay first, refines CheckForTimeOut; a wait of portMAX_DELAY never times out and a reported timeout leaves no ticks to wait |
| TimeOuts.UntilExact | core/freertos/tasks.c:1182-1240 | xTaskDelayUntil delays iff the unbounded wake time lies ahead, and then by exactly the distance to it |
| TimeOuts.PeriodicWithoutDrift | core/freertos/tasks.c:1182-1262 | over any sequence of calls the wake times are start + k * increment |
| TimeOuts.DelayUntilWakes | core/freertos/tasks.c:1230-1242 | in the scheduler the delayed caller is listed for exactly that unbounded time |
| Queues.CreationCheckExact | core/freertos/queue.c:390-401 | the overflow assertion passes iff length times item size fits 32 bits |
| QueueStorage.Queue.constructor | core/freertos/queue.c:444-487 | a created queue is empty and unlocked |
| QueueStorage.Queue.CopyDataToQueue | core/freertos/queue.c:2126-2206 | for every length and item size: back appends, front prepends, overwrite on length 1 replaces |
| QueueStorage.Queue.Dequeue | core/freertos/queue.c:2209-2227 | takes the front item and leaves the rest in order |
| QueueStorage.Queue.TrySend | core/freertos/queue.c:771-925 | the sending critical section succeeds iff there is room or it overwrites, puts the item where it was told to, and wakes the first waiting receiver |
| QueueStorage.Queue.TrySendFromIsr | core/freertos/queue.c:983-1147 | the interrupt form wakes on an unlocked queue and on a locked one counts, in 8 bits |
| QueueStorage.Queue.TryReceive | core/freertos/queue.c:1318-1403 | pops the front and wakes the first waiting sender, or leaves the empty queue alone |
| QueueStorage.Queue.TryReceiveFromIsr | core/freertos/queue.c:1831-1923 | the interrupt form, waking or counting in 8 bits |
| QueueStorage.Queue.TryPeek | core/freertos/queue.c:1706-1745 | returns the front, changes no contents and passes the item on to the next receiver |
| QueueStorage.Queue.ResetQueue | core/freertos/queue.c:264-319 | leaves the queue empty and unlocked and its receivers waiting, and wakes the first waiting sender |
| QueueLocks.LockTransparentIff | core/freertos/queue.c:2230-2347 | interrupt sends and receives between lock and unlock end in the same queue, and wake the same tasks, as on an unlocked queue iff neither 8-bit count overflows with somebody left to wake |
| QueueLocks.LockIsTransparent | core/freertos/queue.c:249-261 | so they do whenever there are at most 127 of them |
| QueueLocks.OneSendTooMany | core/freertos/queue.c:1131-1133 | 127 sends to a locked queue wake its waiter on unlocking, 128 do not |
| QueueStorage.Queue.UnlockSending | core/freertos/queue.c:2237-2317 | the loop wakes one receiver per counted item, from the head of the list, as long as there are any |
| QueueStorage.Queue.UnlockReceiving | core/freertos/queue.c:2319-2347 | the same for senders |
| QueueProtocol.StepInv | core/freertos/queue.c:771-1147 | every critical section of every task and interrupt keeps the wake-up accounting |
| QueueProtocol.NoLostWakeup | core/freertos/queue.c:2230-2347 | in every interleaving, while a receiver waits the items queued are at most the woken but not retried receivers plus the locked count, and symmetrically for senders and free slots |
| QueueProtocol.QuiescentWaitersAreRight | core/freertos/queue.c:1318-1458 | with the queue unlocked and nobody between waking and retrying, receivers wait only on an empty queue and senders only on a full one |
| QueueProtocol.WaitsIff | core/freertos/queue.c:935-980 | a task that looks at the queue again with the scheduler suspended comes to wait, with the value of its priority, iff its time is not up and the queue is still full, or empty; otherwise the queue is as it was |
| QueueProtocol.StopEndsWait | core/freertos/tasks.c:2732-2742 | a task whose block time ends is on neither event list, and everyone else stays |
| QueueProtocol.RewriteKeepsOrderIff | core/freertos/tasks.c:1578-1583 | rewriting a waiter's event item value in place keeps the list in order iff the value fits between its neighbours |
| QueueProtocol.StepOrderedIff | core/freertos/tasks.c:4034-4040 | every step keeps both event lists in priority order iff it is not a rewriting that does not fit |
| QueueProtocol.HighestWokenFirst | core/freertos/tasks.c:3019-3034 | in every run that rewrites no waiter out of its place both event lists are in order, so each wake-up takes a waiter whose event item carries the highest priority: the one it began to wait with, or the base it was given since, even below one it has inherited |
| QueueProtocol.WokenOutranks | core/freertos/tasks.c:3098-3113 | whoever a step wakes from ordered event lists is at least as urgent, by the event item values, as everyone it leaves waiting |
| QueueProtocol.RaisedWaiterIsPassedOver | core/freertos/tasks.c:1560-1583 | a run in which a waiter raised in place is passed over by the next wake-up |
| QueueProtocol.StepContents | core/freertos/queue.c:771-1147 | a send with room adds its item where it was told to, a receive with an item takes the first, and every other step leaves the contents alone |
| QueueProtocol.FrontServedNext | core/freertos/queue.c:2158-2191 | an item sent to the front is the next one received, whatever is sent to the back meanwhile, and leaves what was queued before in order |
| QueueProtocol.OverwriteReplaces | core/freertos/queue.c:2182-2200 | overwriting leaves the one item last written, which the next receive takes |
| QueueProtocol.FirstInFirstOut | core/freertos/queue.c:1831-1923 | with sends to the back, received plus queued is what was sent, in order, in every run |
| QueueProtocol.SendKeepsBoundIff | core/freertos/queue.c:2126-2206 | a permitted send keeps the length bound iff it is not the overwriting of a full queue of zero-size items |
| QueueProtocol.BoundedOverRuns | core/freertos/queue.c:2126-2206 | every run that does not overwrite zero-size items keeps the length bound |
| QueueProtocol.OverwriteExceedsBound | core/freertos/queue.c:2126-2206 | a run of two overwrites that leaves two items in a queue of length one |
| Mutexes.SameAsKernel | core/freertos/tasks.c:4017-4286 | the priority effects used here are those of the scheduler's own inherit and disinherit functions |
| Mutexes.HighestIsHighest | core/freertos/queue.c:2101-2123 | the head of the receive list carries the highest priority of all waiters |
| Mutexes.HighestIsSomebodys | core/freertos/queue.c:2101-2123 | and it is the priority of one of them; with nobody waiting it is the lowest |
| Mutexes.TakeInv | core/freertos/queue.c:1461-1560 | a take by the running task keeps the inheritance invariant |
| Mutexes.WaitInv | core/freertos/queue.c:1580-1620 | waiting, with the holder inheriting, keeps it |
| Mutexes.GiveInv | core/freertos/queue.c:2140-2156 | giving back and waking the first waiter keeps it |
| Mutexes.DisinheritForInv | core/freertos/queue.c:1635-1672 | the disinheritance of a timed-out waiter keeps it |
| Mutexes.InheritanceOverRuns | core/freertos/queue.c:1461-1677 | in every run under the stated premises every holder is at least at its base and at least at every waiter on any mutex it holds, uxMutexesHeld counts the mutexes naming it, and with none held its priority is its base |
| MutexPremises.TakeKeepsIff | core/freertos/queue.c:1486-1512 | a take keeps inheritance iff nobody left waiting outranks the taker |
| MutexPremises.WaitKeepsIff | core/freertos/tasks.c:4017-4100 | a wait keeps it iff the holder waits for no mutex of another holder below the inherited priority |
| MutexPremises.PrioritySetKeepsIff | core/freertos/tasks.c:1556-1574 | a new base priority keeps it iff an inherited priority is not below it and a priority that moves with it fits between those held up and those waited for |
| MutexPremises.RebasedAsKernel | core/freertos/tasks.c:1556-1574 | the effect on the TCB is that of the scheduler's own vTaskPrioritySet |
| MutexPremises.TakerMustRun | core/freertos/queue.c:1486-1512 | a take by an outranked task breaks the property |
| MutexPremises.WaiterMustHoldNothing | core/freertos/tasks.c:4017-4100 | waiting for a mutex while holding another breaks it, since inheritance is not passed on |
| MutexPremises.WokenMustStayReady | core/freertos/queue.c:1486-1512 | a woken waiter suspended before it retries lets a lower task take and break it |
| MutexPremises.BasesMustStay | core/freertos/tasks.c:1556-1574 | raising the base of a waiter, or of a holder that has inherited, breaks it |
| MutexTimeouts.StepLate | core/freertos/queue.c:1635-1672 | every orderly step keeps the holder of each mutex above everyone whose wait on it has ended, or at a priority that its base, a waiter or such a task explains |
| MutexTimeouts.HolderHasCompany | core/freertos/queue.c:1648-1665 | a ready holder about to be lowered by a timed-out waiter shares its priority with another ready task |
| MutexTimeouts.BitKept | core/freertos/tasks.c:4187-4286 | so in every scheduler state that matches, its ready list survives the lowering |
| MutexRuns.CallsTakeEffect | core/freertos/queue.c:1461-1677 | each mutex call is the scheduler calls it makes, all of them enabled, and leaves the two states matching: same priorities, same ready tasks, every waiter on an event list |
| MutexRuns.StepInv | core/freertos/queue.c:1461-1677 | every step of mutexes and scheduler together, task creation, ticks, switches and other calls included, keeps both invariants and the match |
| MutexRuns.TimeoutsKeepBitmap | core/freertos/tasks.c:4187-4286 | in every such run from the start with fixed base priorities the bitmap is exact, the priorities in the TCBs obey inheritance, and the call a timed-out waiter makes empties no ready list |
| MutexExamples.TimeoutLowersHolder | core/freertos/queue.c:1635-1672 | such a run from the start in which a timed-out waiter lowers a ready holder from priority 3 to 1 |
| Timers.ClassifyExact | core/freertos/timers.c:702-743 | process now iff the expiry has passed, current list iff it is in this tick epoch, overflow list iff in the next |
| Timers.SwitchOneProgress | core/freertos/timers.c:896-945 | each turn of the switching loop lowers the sum of ticks left before the wrap |
| Timers.SwitchLists | core/freertos/timers.c:896-953 | the switch ends, the drained list is empty before the swap and the overflow list becomes current |
| TimerRuns.InsertLocates | core/freertos/timers.c:702-743 | a timer is due iff its unbounded expiry has passed, and otherwise ends up on the one list of the epoch it expires in |
| TimerService.Service.SwitchTimerLists | core/freertos/timers.c:896-953 | the loop terminates and refines Timers.SwitchLists |
| TimerRuns.SampleTracks | core/freertos/timers.c:679-699 | sampling switches the lists iff the epoch has changed and leaves a tracked timer listed, or its restart posted, for the expiry after the callbacks it has had |
| TimerRuns.ExpiredSelf | core/freertos/timers.c:511-551 | processing a due auto-reload timer adds exactly one callback, not early, and lists it or posts its restart for the next expiry |
| TimerService.Service.ProcessTimerOrBlock | core/freertos/timers.c:590-675 | processes a due head unless the lists were switched, blocks exactly when nothing is due, and hands the queue the ticks to the head or to the wrap and the flag for no timers at all |
| TimerService.Service.ProcessReceivedCommands | core/freertos/timers.c:746-890 | the loop over received commands refines the one-by-one processing |
| TimerRuns.StepTracked | core/freertos/timers.c:511-551 | every step of the service task and every command for other timers keeps an auto-reload timer listed, or its restart posted, for exactly its next expiry |
| TimerRuns.OncePerPeriod | core/freertos/timers.c:746-838 | in every run that keeps up, a caught-up service task has called back exactly (N - C) / p times, callback k never before C + k * p, across any number of wraps |
| TimerOneShot.DueHeadFires | core/freertos/timers.c:511-551 | a timer taken off the head of the current list gets one callback at once, whichever kind it is |
| TimerOneShot.CalledBackWhenDue | core/freertos/timers.c:590-650 | between wraps the service task calls back the head of the list exactly when it is due |
| TimerOneShot.StepOnce | core/freertos/timers.c:511-551 | every step of the service task and every command for other timers keeps a one-shot timer listed for its expiry, or called back once and gone |
| TimerOneShot.FiresExactlyOnce | core/freertos/timers.c:746-838 | in every run without another command for it a one-shot timer started at c is called back at most once, never before c + p, exactly once when the service task has caught up at N >= c + p, and is then on no list with no message queued |
| TimerCommands.GoneIsSilent | core/freertos/timers.c:746-838 | a timer on no list with no message queued is never called back until it is commanded again |
| TimerCommands.StopSilencesIff | core/freertos/timers.c:839-843 | stopping takes the timer off its list and calls nothing back; it leaves nothing behind, and so silences the timer, iff no message for it is queued behind the stop |
| TimerCommands.StopUndone | core/freertos/timers.c:522-537 | a run from the start of the timer in which a restart is, and the stopped timer comes back to life |
| TimerCommands.ChangedIsNew | core/freertos/timers.c:845-859 | a changed timer, running or not and of either kind, next expires at the time of change plus the new period, and over every run from then on as a new timer does |
| TimerCommands.RestartedIsNew | core/freertos/timers.c:796-828 | a start command taken up less than a wrap later makes the timer, running or not and of either kind, expire over every run as a new one started when the command was given |
| TimerCommands.ActiveAfterCallback | core/freertos/timers.c:511-551 | a one-shot timer is marked inactive by the processing of its expiry, and not by the loop that switches the lists |
| TimerRuns.NeverOversleeps | core/freertos/timers.c:590-675 | in every run that keeps up, whenever the service task blocks its wait is finite and ends no later than the next expiry of the timer, whichever list it is on |
| StreamBuffers.SpaceExactIff | core/freertos/stream_buffer.c:483-504 | used and free space are computed exactly iff the intermediate sums fit 32 bits |
| StreamBuffers.SpaceNeverOver | core/freertos/stream_buffer.c:483-504 | where they are not exact they are too small |
| StreamBuffers.LargeBuffersUnderReport | core/freertos/stream_buffer.c:483-504 | buffers of 3 * 2^30 bytes in which they are not exact |
| StreamBuffers.UsedPlusFree | core/freertos/stream_buffer.c:1238-1256 | up to 2^31 bytes both are exact and add up to the length less one |
| StreamBuffers.DecodeEncode | core/freertos/stream_buffer.c:720-731 | a stored message length reads back as it was |
| StreamBuffers.StreamBuffer.constructor | core/freertos/stream_buffer.c:220-268 | a created buffer is empty and one byte longer than it may hold |
| StreamBuffers.StreamBuffer.WriteBytes | core/freertos/stream_buffer.c:1131-1177 | the two-part copy appends the bytes to the contents |
| StreamBuffers.StreamBuffer.ReadBytes | core/freertos/stream_buffer.c:1180-1235 | the two-part copy takes bytes off the front of the contents |
| StreamBuffers.StreamBuffer.Send | core/freertos/stream_buffer.c:700-749 | a message is written whole with its length or not at all; a stream takes as many bytes as the reported space allows, which up to 2^31 bytes is all the free space |
| StreamBuffers.StreamBuffer.ReceiveMessage | core/freertos/stream_buffer.c:958-1007 | the next frame is returned whole when the bytes reported cover it, as they do up to 2^31 bytes, or left in place when the destination is too small |
| StreamBuffers.CutsLargeMessageShort | core/freertos/stream_buffer.c:958-1007 | a buffer of 3 * 2^30 bytes and a message that is sent whole and received as its first part only |
| MessageBuffers.StepInv | core/freertos/stream_buffer.c:700-749 | each step of the writer and of the reader keeps the ring sound and framed |
| MessageBuffers.WholeMessagesInOrder | core/freertos/stream_buffer.c:958-1007 | in every interleaving the contents are whole frames plus at most one bare header, the messages received are the first of those sent, whole and in order, and used plus free is the length less one |
| MessageBuffers.NextDelivered | core/freertos/stream_buffer.c:752-853 | a completely sent message is delivered by the reader's next pass |
| MessageBuffers.SentIff | core/freertos/stream_buffer.c:700-749 | the steps of a send complete the message iff it fits, and otherwise change nothing |
| MessageBuffers.TooLongIsLeft | core/freertos/stream_buffer.c:958-1007 | a message longer than the reader has room for is left where it is |
| EventGroups.SetBitsExact | core/freertos/event_groups.c:531-623 | setting bits wakes exactly the waiters satisfied by old or new bits, all judged against one value, and clears exactly the union of the masks of those that ask for it |
| EventGroups.EventGroup.Set | core/freertos/event_groups.c:545-615 | the loop that unlinks waiters while walking the list refines the filter |
| EventGroups.EventGroup.Synchronise | core/freertos/event_groups.c:192-262 | xEventGroupSync up to its blocking refines Sync |
| EventGroups.EventGroup.Await | core/freertos/event_groups.c:340-405 | xEventGroupWaitBits up to its blocking refines WaitBits |
| EventGroups.EventGroup.Resumed | core/freertos/event_groups.c:424-452 | what a timed-out waiter does when it runs again refines AfterTimeOut |
| EventGroups.EventGroup.Clear | core/freertos/event_groups.c:471-494 | xEventGroupClearBits refines ClearBits |
| EventWaits.WaitBitsExact | core/freertos/event_groups.c:340-405 | a condition met already is answered with the old bits and clears exactly the awaited ones iff asked; one not met is answered with the bits when there is no block time, and otherwise adds one waiter at the end whose matching is that condition for every value |
| EventWaits.SyncExact | core/freertos/event_groups.c:205-262 | the same for a rendezvous, after its bits were set |
| EventWaits.ClearBitsExact | core/freertos/event_groups.c:471-494 | clearing clears what it is told to, wakes nobody and answers with the bits before |
| EventWaits.AfterTimeOutExact | core/freertos/event_groups.c:424-452 | a timed-out waiter answers with the bits it finds and clears the awaited ones iff that was asked and the condition is met after all |
| EventWaits.WokenByFirst | core/freertos/event_groups.c:556-610 | in every run a blocked task waits until the first setting of bits that meets its condition and is woken by that one; the awaited bits are clear then if it asked for that, and otherwise the bits are what they would be without it |
| EventWaits.MeetsWakes | core/freertos/event_groups.c:590-604 | the step that meets the condition hands the waiter over with the others it wakes |
| EventWaits.DeliveredExact | core/freertos/event_groups.c:600-608 | a woken task finds the value that met its condition, marked as set |
| EventWaits.OthersWait | core/freertos/event_groups.c:416-424 | a timeout ends the one task's wait and nobody else's |
| EventGroups.WaitBitsQuiescent | core/freertos/event_groups.c:315-405 | waiting never leaves a satisfied waiter on the list |
| EventGroups.SyncQuiescent | core/freertos/event_groups.c:192-262 | neither does a rendezvous |
| EventGroups.QuiescentOverRuns | core/freertos/event_groups.c:471-496 | in every reachable state no task waits whose condition is met |
| Rendezvous.StepInv | core/freertos/event_groups.c:192-312 | each step of the tasks of a rendezvous stays in its round or opens the next one |
| Rendezvous.Barrier | core/freertos/event_groups.c:192-312 | in every run nobody has returned from more syncs than anybody else has entered, and every return value holds all rendezvous bits, even when faster tasks are already in the next round |

## Left out

- Scheduler.Globals.constructor: does not model the timer service task or tasks created before the scheduler starts, because the runs begin with the idle task running and create every other task by calls.
- The moment of starting the scheduler itself.
- The wrap of xNumOfOverflows after 2^32 wraps of the tick count; xTimerGenericCommand's time stamp is taken as part of the message.
- Event lists inside the scheduler model are the set of tasks on some event list; their priority order, and the rewriting of event item values, is modelled in `Queues` and `QueueProtocol`. The waiters of `Mutexes` keep their priorities, since they hold nothing and base priorities are fixed there.
- The pointer form of the ready, suspended, pending-ready and event lists: only the two delayed lists are built from `Lists.List`; `Scheduler.Globals` has its lists as values, which does not capture that one item links a task into one list at a time.
- xTaskGenericNotifyFromISR and vTaskGenericNotifyGiveFromISR, which go through the pending-ready list while the scheduler is suspended, as the modelled xTaskRemoveFromEventList does.
- Recursive mutexes: the call count kept on top of a modelled mutex.
- vTaskDelete and xTaskCreate yield inside their own regions in the source; here the yield is the next step.
- Blocking in xStreamBufferSend and xStreamBufferReceive, trigger levels and the notifications that end it; the interleaving of writer and reader steps is modelled, the waiting between them is not.
- Timer callbacks send no commands while the lists are being switched; commands at any other time are modelled. xTimerPendFunctionCall and timer deletion are left out.
- vEventGroupDelete, and the interrupt forms of event-group calls, which are the task forms run by the timer service.
- Co-routines (`core/freertos/croutine.c`): a second, smaller instance of the delayed-list scheme proved for tasks; it would repeat `KernelTime` on fewer states.
- xQueueCR* calls, queue sets, the queue registry, tickless idle and xTaskResumeFromISR, which the configuration compiles out or which deliberately skip wake-ups.
- Heap allocation, static allocation variants, MPU wrappers, stack checks, trace macros, run-time statistics, formatting functions, `include/atomic.h`, the port layer, start-up code and the tools.
