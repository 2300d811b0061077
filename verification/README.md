# A verified model of the PRS kernel core

PRS is a user-space real-time kernel built on lock-free atomics. This project models the parts of it where
an interleaving, a wrap-around or a forgotten reference could lose something, and proves that nothing is
lost, or exactly when something is.

Concurrent protocols are state machines. One step is one shared access of the program (a load, a store, a
compare-and-swap, a push, an unblock), a run is any sequence of steps by any number of participants, and
the theorems hold in every state of every run. Structures that the program changes in place in one context
are classes; each method is proved against a function or relation on values, and the laws are lemmas about
that function or relation over whole runs.

| part | files | source |
|---|---|---|
| worker and priority scheduler, interleaved | `Worker`, `WorkerProof`, `WorkerSteps`, `WorkerTheorems` | prs/worker.c, prs/sched/swprio.c |
| scheduler and task lifetime, serial | `Sched`, `SchedProof`, `SchedTheorems`, `SwPrio` | prs/sched/swprio.c, prs/sched.c, prs/task.c |
| intrusive queue with interfering producers | `Mpsciq` | prs/lib/ds/mpsciq.c, prs/msgq.c |
| blocking receive | `Msgq`, `MsgqProof`, `MsgqSteps`, `MsgqTheorems`, `MsgqReceive` | prs/msgq.c, prs/event.c |
| versioned task state | `Task` | prs/task.c |
| semaphore | `Sem`, `SemProof` | prs/sem.c |
| timer wheel | `TimerWheel`, `Timer`, `TimerProof` | prs/timer.c |
| timer entries in their pool | `TimerEntry` | prs/timer.c, prs/lib/ds/pool.c |
| directory headers, as records and as words | `Headers`, `Words` | prs/god.c, prs/lib/ds/pd.c, prs/lib/ds/pool.c |
| object directory: one entry, interleaved | `GodSlot`, `GodSlotProof` | prs/god.c |
| object directory, serial | `God`, `GodProof` | prs/god.c |
| pointer directory, serial | `Pd` | prs/lib/ds/pd.c |
| multi-consumer queue over its directory, serial | `Mpmcq` | prs/lib/ds/mpmcq.c |

## What the proofs found

- A timer request with a delay of 256 ticks or more whose deadline is 255 modulo 256 is never signaled.
  It is filed again while the timer still holds the old time, in the slot that was just emptied
  (prs/timer.c:337-343). `TimerProof.SignaledExactlyAtDeadline` is an equivalence: it says for every request
  in which tick it is signaled, or that it never is. `TimerProof.SleepThatNeverEnds` is one such sleep.
- The comment at prs/timer.c:276-280 expects a late request to be signaled at once. The 32-bit difference is
  unsigned, so a request that is filed after its deadline waits almost 2^32 ticks (`TimerProof.LateFiling`);
  `TimerProof.LateByOneTick` is a request that is one tick late.
- The object directory stops allocating for good once `write_index + max_entries` reaches 2^32
  (`GodProof.AllocationEnds`), even with every usable entry free (`GodProof.FailsWhileEmpty`).
- The comment at prs/god.c:183-187 says that the first allocation always meets an equal identifier. It does
  not: `write_index` starts at 1 and unused entries hold 0, so the first object gets identifier 1
  (`GodProof.FirstIdentifier`).
- `prs_god_try_unlock_final` is documented to return PRS_NOT_FOUND for an object that is gone. It returns
  PRS_INVALID_STATE exactly for a non-zero identifier that is not live, and PRS_NOT_FOUND exactly for 0
  (`GodProof.UnlockFinalRefines`; `GodProof.GoneIsInvalidState` is a run).
- A timed receive that finds a message in its second search never drops the timer's event reference.
  `MsgqTheorems.LeakedExactly` shows that this is exactly when an event is not freed, and
  `MsgqTheorems.LeakingRun` is such a receive.
- A negative initial semaphore count is accepted and not made up for: the bound that a caller expects on
  releases holds in every run exactly when the initial count is not negative (`SemProof.BoundHoldsExactly`).
- `prs_mpmcq_pop` answers PRS_UNKNOWN, not PRS_EMPTY, exactly as long as a queue was never pushed to
  (`Mpmcq.Queue.Pop`).
- A pointer directory keeps 52 bits of a 64-bit identifier. An identifier from 2^52 on can be neither locked nor
  unlocked (`Pd.LockableExactly`). Runs reach that point for every size (`Pd.NeverGivenBack`), and an old
  identifier that was freed can then be locked again and reaches the new pointer (`Pd.OldIdentifierReturns`). A
  push that gets such an identifier succeeds and loses its element (`Mpmcq.Queue.Push`).
- The version in a task token comes round after exactly 2^40 state changes: a token of an earlier blocking can
  then end a later one (`Task.StaleTokenWins`), and it cannot before (`Task.OneSignalWins`). Even so each
  blocking is ended by one signal, and the task reads that signal's type, because tokens carry cause 0 and all
  event types are above 0 (`Task.WinsAreSeparated`, `Task.CauseIsKept`). With type 0 both fail
  (`Task.TypeZeroIsLost`).

## Assumptions

- Atomics are sequentially consistent, as include/prs/pal/atomic.h:40-53 requests. There is one worker per
  scheduler.
- In `Worker`, interrupted code is user text; another worker does not remove a task while it is being
  unblocked or scheduled, because prs/task.c:395-404 is a load followed by a store; a task changes only its
  own priority. A ready queue is a set there, so any queued task of the level may be popped; order is the
  subject of `Sched` and `Mpsciq`.
- In `Msgq` a search is one step, because it looks at the messages below the head that it loads once. Filters are pure, the receiving task is alive, fewer than 4095 senders lock a filter at once, and
  each search finds the oldest match, which `Mpsciq.Queue.Search` proves of the search itself.
- In `Timer`, the clock advances by one between two ticks (prs/clock.c:60-68), and the shift at
  prs/timer.c:319 masks its count as AMD64 does. Slot lists are sequences.
- `id & max_entries_mask` is the remainder modulo `max_entries`, a power of two. Token fields in `Task` do not
  overlap, so masks and shifts are remainder and division. Tokens, pool and pointer-directory headers are the
  64-bit ones.
- Clients of a directory release only references that they hold.
- The build is the one of include/prs/config.h without DEBUG: PRS_RUN_TIME_CHECKING is defined, so that unlock
  and the final unlock refuse what they refuse here, and PRS_ASSERTIONS is not, so that a refusal returns.
- In `TimerEntry`, `LockFirst` is one step because nobody but the allocator changes an entry that is allocated
  and not locked. `LockAndPush` is one step because nobody else knows the entry before the push.
- In `TimerEntry` pool identifiers stay below 2^52. In `Mpmcq` the queue owns its pointer directory, as in
  prs/lib/ds/mpmcq.c:122-136.
- Memory allocation succeeds, except where a directory reports that it is full.

## Model

| member | source | states |
|---|---|---|
| WorkerTheorems.NoMissedPreemption | prs/worker.c:145-206 | in every interleaving, while the flags word is exactly INTERRUPTIBLE the current task runs, and a task that is READY or in a queue and more urgent still has its ready() call under way |
| WorkerTheorems.PendingInterruptIsUnderWay | prs/worker.c:432-468 | INTERRUPTIBLE with PENDING means that an interrupt was sent or a poster is about to send it |
| WorkerTheorems.NoLostWakeUp | prs/worker.c:125-135 | resume tokens + posters about to resume + [IDLE] = [worker inside suspend]; IDLE is clear outside suspend; when the worker is parked with IDLE set, every task that is READY or in a queue has its ready() call under way, and with no call and no token left there is no such task |
| WorkerTheorems.ReadyIsQueued | prs/sched/swprio.c:238-246 | in every state of every run a READY task is in its ready queue, or its ready() call has not pushed it yet |
| WorkerTheorems.TaskMoves | prs/sched/swprio.c:193-230 | each step moves a task from state to state as its life cycle says, and only the task itself changes its priority |
| WorkerTheorems.PriorityIsLastGiven | prs/task.c:315-340 | over every run the priority of a task is the one given by its last change, or by its creation |
| WorkerTheorems.UndisturbedWorker | prs/worker.c:237-252 | a worker whose flags nobody sets after its check runs its task with exactly INTERRUPTIBLE, or parks with IDLE |
| WorkerTheorems.InterruptIsAnswered | prs/worker.c:145-166 | an interrupted worker checks its flags before any code of a task runs; a check that finds STOP exits and one that finds PENDING schedules |
| WorkerTheorems.StopIsRemembered | prs/worker.c:397-420 | once a stop request was made the STOP flag stays set in every later state |
| WorkerTheorems.MaskNeverHidesWork | prs/sched/swprio.c:149-191 | a queued task has its mask bit, or its ready() call is between push and fetch_or, or the worker is between clearing the bit and the end of its recheck |
| WorkerTheorems.StopIsNotLost | prs/worker.c:397-420 | a stop request whose call is over reaches the worker, whatever ready() calls are under way: it is pending, the suspended worker has its one token or a poster about to resume it, user code has its interrupt or a poster about to send it |
| WorkerTheorems.OneTaskRuns | prs/sched/swprio.c:194-230 | at most one task is RUNNING, task code has a current task, and a task found by the scan is still queued and READY when it is popped |
| WorkerTheorems.StepKeepsInv | prs/worker.c:145-252 | every step of callers, posters, the worker and task code keeps the invariant |
| SchedTheorems.ScheduleChooses | prs/sched/swprio.c:169-236 | the running task stays exactly when no ready task is more urgent; else the oldest of the most urgent ready tasks runs; nobody runs only if nobody is ready |
| SchedTheorems.MostUrgentRuns | prs/sched/swprio.c:193-232 | after a call of the scheduler in any run the current task is RUNNING and no ready task has a smaller priority value |
| SchedTheorems.OneRuns | prs/sched/swprio.c:225-230 | in every run at most one task is RUNNING, and it is the current one |
| SchedTheorems.FirstComeFirstServed | prs/sched/swprio.c:238-246 | over every run, of two tasks of one priority the one that became ready first stays ahead in the queue while both wait |
| SchedTheorems.OrderKept | prs/sched/swprio.c:130-246 | no operation swaps two tasks that stay ready, and a task that becomes ready or is preempted goes behind those that are ready |
| SchedTheorems.StrictRotation | prs/sched.c:455-463 | k tasks of equal priority that only yield run in strict rotation, for any number of rounds |
| SchedTheorems.FreedOnce | prs/task.c:265-291 | in every run a task is freed at most once, and never while it is in a ready queue, in the remove queue or current |
| SchedTheorems.FreedExactly | prs/task.c:265-291 | over every run a task is freed if and only if it was destroyed and, in case the scheduler knew it, the scheduler was called since |
| SchedTheorems.JustDestroyed | prs/sched/swprio.c:296-320 | a destroyed task has lost its name; if the scheduler knew it, it is STOPPED in the remove queue, else it is freed |
| SchedTheorems.TaskMoves | prs/sched.c:331-491 | every operation, for every task: its next state, its priority, whether it keeps its name, whether the scheduler knows it, and that adding it succeeds exactly if it was not freed |
| SchedTheorems.CurrentMoves | prs/worker.c:137-143 | only a call of the scheduler changes the current task |
| SchedTheorems.PriorityIsGiven | prs/task.c:157-215 | a created task is STOPPED and has the priority it was given in every later state |
| SchedTheorems.BlockedUntilUnblocked | prs/sched.c:485-491 | a blocked task stays BLOCKED through every later call of the scheduler until it is unblocked or destroyed |
| SchedProof.StepKeepsInv | prs/sched.c:331-422 | create, add, unblock, block, yield, destroy and schedule keep references = creation + add_task + scheduler, queues, mask and remove queue consistent |
| SchedProof.DrainOneKeeps | prs/sched/swprio.c:136-167 | taking a removed task out keeps the invariant, unless it is the current task |
| SwPrio.Scheduler.CallScheduler | prs/worker.c:160-200 | the worker's call: a task being removed leaves its context first, then the state is drained and one task picked |
| SwPrio.Scheduler.GetNext | prs/sched/swprio.c:130-236 | drains the remove queue up to the current task, then picks from what is left |
| SwPrio.Scheduler.Drain | prs/sched/swprio.c:136-167 | stops exactly at the current task, and the rest of the work is unchanged |
| SwPrio.Scheduler.TakeOut | prs/sched/swprio.c:148-165 | one removed task leaves its ready queue and the scheduler and drops one reference; its bit is cleared exactly if that emptied the queue |
| SwPrio.Scheduler.Scan | prs/sched/swprio.c:169-191 | finds the most urgent bit with a non-empty queue; clears the bits of empty queues before it |
| SwPrio.Scheduler.Choose | prs/sched/swprio.c:193-236 | keeps, preempts or replaces the current task as the specification of the choice says |
| SwPrio.Scheduler.Push | prs/sched/swprio.c:245-246 | appends to the queue of the task's priority and sets its bit |
| SwPrio.Scheduler.Add | prs/sched.c:331-372 | two references, READY, queued; refused for a task that is gone |
| SwPrio.Scheduler.UnblockTask | prs/task.c:446-463 | BLOCKED becomes RUNNING for the current task, else READY and queued |
| SwPrio.Scheduler.DestroyTask | prs/task.c:265-291 | only the first call has an effect: remove_task and the creation reference |
| SwPrio.Scheduler.BlockCurrent | prs/sched.c:485-491 | RUNNING becomes BLOCKED, nothing else changes |
| SwPrio.Scheduler.YieldCurrent | prs/sched.c:455-463 | one round: requeue the running task and schedule |
| SwPrio.Scheduler.CreateTask | prs/task.c:157-215 | a STOPPED task with one reference |
| Mpsciq.Queue.Push | prs/lib/ds/mpsciq.c:165-187 | whatever swaps fail, the node becomes the newest; pushes of others stay in order |
| Mpsciq.Queue.Interfere | prs/lib/ds/mpsciq.c:165-187 | any number of pushes only adds nodes at the newest end |
| Mpsciq.Queue.BuildReverse | prs/lib/ds/mpsciq.c:132-155 | with pushes between all steps the walk ends and every node up to the loaded head gets its back link |
| Mpsciq.Queue.Begin | prs/lib/ds/mpsciq.c:264-271 | returns the oldest node published by its head load, null exactly if there was none |
| Mpsciq.Queue.IsInserted | prs/lib/ds/mpsciq.c:346-354 | answers exactly whether the node was among those published by its head load |
| Mpsciq.Queue.Remove | prs/lib/ds/mpsciq.c:197-254 | deletes exactly that node; all others, and nodes pushed meanwhile, keep their order, and both chains stay consistent |
| Mpsciq.Queue.GiveBack | prs/lib/ds/mpsciq.c:240-254 | a removed node may be pushed again |
| Mpsciq.Queue.Resend | prs/lib/ds/mpsciq.c:165-254 | a node removed and sent again becomes the newest; the ones it left behind keep their order |
| Mpsciq.Queue.Search | prs/msgq.c:292-326 | a search resumed from its hint finds what a full scan finds: the oldest match, or none |
| Mpsciq.Queue.SearchRepeatedly | prs/msgq.c:333-396 | any number of searches with pushes between them end with the oldest match of the last one |
| Mpsciq.Queue.Receive | prs/msgq.c:333-405 | returns the oldest match and leaves all other messages in order, with pushes in between |
| MsgqTheorems.NoMessageIsMissed | prs/msgq.c:231-272 | a receiver that passed its second search and is BLOCKED while no sender is inside send has no matching message queued, and its event is in the published filter |
| MsgqTheorems.EveryMatchIsUnderWay | prs/msgq.c:343-396 | with senders inside send, each matching message has a sender on its way to the event, or a sender has the event |
| MsgqTheorems.EventsFreedOnce | prs/event.c:92-121 | an event's counter is the number of its references; it is freed at most once, at zero, and nobody holds a freed event |
| MsgqTheorems.LeakedExactly | prs/msgq.c:350-360 | an event that the receive is past, and that neither a sender nor the timer has in hand, is not freed if and only if in some step its receive was timed and its second search found a message |
| MsgqTheorems.LeakingRun | prs/msgq.c:343-396 | a complete receive whose event is never freed |
| MsgqTheorems.FoundMessageIsTaken | prs/msgq.c:401-405 | a found message is wanted and still queued when it is removed |
| MsgqTheorems.UnblockedOnce | prs/msgq.c:149-163 | once anybody unblocked the receiver, the token of that blocking never holds it again |
| MsgqReceive.CauseIsTrue | prs/event.c:92-121 | a receiver that was unblocked reads the type of the signal that unblocked it: a send by a sender of its round, or the timeout of its own timer |
| MsgqReceive.SignaledIsAwake | prs/event.c:110-118 | after a signal of a round the task is never again blocked in that round |
| MsgqReceive.ExpiredReachesTask | prs/timer.c:274-285 | once a timer has expired it is about to signal its task until the task is not blocked in that round any more |
| MsgqReceive.ReceiveEnds | prs/msgq.c:333-409 | a receive ends with its message, or it is timed and either gave up before a round or was unblocked in this round by its own timer; so an untimed receive ends only with a message |
| MsgqReceive.TakenWasOldest | prs/msgq.c:292-326 | the message that a receive holds was the oldest wanted one in the search that found it |
| MsgqReceive.FoundIsKept | prs/msgq.c:398-402 | a message that a search found is kept until it is taken, and the receive does not end before |
| MsgqReceive.MessagesConserved | prs/msgq.c:231-405 | over every run, messages sent = messages returned + messages queued, as multisets |
| MsgqReceive.SendOrderKept | prs/msgq.c:245-245 | messages stay in the order in which they were sent |
| MsgqTheorems.StepKeepsInv | prs/msgq.c:231-405 | every step of senders, timer and receiver keeps the invariant |
| Task.OneSignalWins | prs/task.c:446-463 | of all sources with the token of one blocking, a second one can win only a multiple of 2^40 changes later |
| Task.FirstSignalWins | prs/task.c:446-463 | the first signal after a blocking succeeds |
| Task.CountRepeatsExactly | prs/task.c:76-90 | two states have the same count exactly when a multiple of 2^40 changes lies between them |
| Task.CauseIsKept | prs/task.c:469-474 | the type of a winning signal, if it is not 0, is the cause read in every state up to the next blocking, whatever tokens are presented meanwhile |
| Task.WinsAreSeparated | prs/task.c:417-463 | between a win of a type that is not 0 and the next win the task was blocked again: one signal wins for each blocking |
| Task.UnblockSucceedsExactly | prs/task.c:446-463 | an unblock succeeds if and only if the task is BLOCKED with cause 0 and a multiple of 2^40 changes lies between the issue of the token and its use |
| Task.CauseZeroIsKept | prs/task.c:469-474 | for type 0 the cause is kept if each token presented meanwhile is younger than 2^40 changes or meets a task that is not BLOCKED |
| Task.TypeZeroIsLost | prs/sched.c:485-491 | a history in which a win of type 0 is followed by another win with no blocking by token between |
| Task.StaleTokenWins | prs/task.c:76-90 | a history in which the token of one blocking wins a second time, 2^40 changes later |
| Task.NoUnblockUnlessBlocked | prs/task.c:395-430 | no unblock succeeds on a task that is not BLOCKED, so none falls between load and store of a state change |
| Task.TokenFields | prs/task.c:84-90 | the three fields read back what SET_TOKEN stored, modulo their width |
| Task.StateAfter | prs/task.c:395-463 | over histories: BLOCKED after a block, RUNNING or READY after a winning unblock, the state asked for after a change, and no change by a failed unblock |
| Task.StateWord.ChangeState | prs/task.c:395-404 | the word read back holds the new state, the same cause and the next count |
| Task.StateWord.Block | prs/task.c:417-430 | the word read back holds BLOCKED, cause 0 and the next count; it is returned as the token |
| Task.StateWord.Unblock | prs/task.c:446-463 | succeeds exactly on the same word; then the word read back holds RUNNING for the caller itself, else READY, the cause and the next count; otherwise the word is unchanged |
| SemProof.ReleasesAreBounded | prs/sem.c:142-268 | releases never exceed max(initial, 0) + signals - max(count, 0), in any interleaving and with timeouts |
| SemProof.NoVainPop | prs/sem.c:142-176 | without timeouts, from an initial count that is not negative, every pop finds a waiter |
| SemProof.BlockedAtRest | prs/sem.c:221-249 | at rest, blocked + timed out = max(-count, 0) - max(-initial, 0) + pops in vain |
| SemProof.NegativeCountIsWaiters | prs/sem.c:185-207 | at rest and without timeouts, blocked waiters = max(-count, 0) |
| SemProof.NegativeInitialCount | prs/sem.c:113-114 | from every negative count, a run in which the first signal releases a waiter |
| SemProof.PoppedInOrder | prs/sem.c:142-176 | over every run the wait queue is FIFO: when a later waiter is popped, an earlier one was popped before |
| SemProof.WaitOrderKept | prs/sem.c:185-207 | waiters keep the order in which they were pushed, and a new one goes behind all others |
| SemProof.WaiterMoves | prs/sem.c:155-171 | a waiter leaves BLOCKED exactly by the signal of the call that popped its event or by its timeout, and which of the two is recorded for good |
| SemProof.BoundHoldsExactly | prs/sem.c:113-268 | releases stay within initial + signals - max(count, 0) in every run if and only if the initial count is not negative |
| SemProof.NoVainPopExactly | prs/sem.c:142-176 | in every run without timeouts no pop is in vain, if and only if the initial count is not negative |
| SemProof.StepKeepsInv | prs/sem.c:142-268 | every step keeps the accounts and the wait queue |
| TimerProof.SignaledExactlyAtDeadline | prs/timer.c:271-350 | over any run of ticks an uncanceled request is signaled in the first tick if its delay is 0, else in the tick whose old time is its deadline and in no other, if and only if delay < 256 or deadline mod 256 is not 255 |
| TimerProof.HonouredFires | prs/timer.c:310-350 | through every cascade and wrap, such a request is signaled in exactly that tick |
| TimerProof.StuckNeverFires | prs/timer.c:337-343 | any other request is signaled in no tick |
| TimerProof.SleepThatNeverEnds | prs/timer.c:271-302 | a concrete request of the second kind |
| TimerProof.LateFiling | prs/timer.c:274-281 | a request filed `lag` ticks after it was made is signaled at once exactly if lag is its timeout, at its deadline if it is early, and 2^32 ticks after its deadline if it is late, each if the wheel honours the delay |
| TimerProof.LateByOneTick | prs/timer.c:274-281 | a request one tick late is signaled in round 2^32 and in no other |
| TimerProof.TickMember | prs/timer.c:310-350 | what one tick does to one entry, wherever it is filed |
| TimerProof.NeverEarly | prs/timer.c:271-285 | whatever is canceled, a tick signals only entries whose deadline is its old time, and requests from its queue whose deadline is its new time |
| TimerProof.OnlyDueFire | prs/timer.c:271-350 | in every tick of every run, canceled or not, only an entry that is due is signaled |
| TimerProof.OnlyCanceledDropped | prs/timer.c:286-290 | only a canceled entry is dropped without a signal |
| TimerProof.CanceledTick | prs/timer.c:286-290 | a canceled entry stays filed until its slot is drained; then it is signaled exactly if it is due, else dropped, and it is in no list any more |
| TimerProof.CanceledRequest | prs/timer.c:345-349 | a request canceled before it is filed is signaled exactly if it is due, else dropped, and never filed |
| TimerProof.CanceledIsDropped | prs/timer.c:271-350 | over every run an entry canceled while filed is dropped, or signaled if it is due, in the first round that drains its slot and in no other |
| TimerWheel.ChangedWheelsMeaning | prs/timer.c:313-317 | the exclusive-or test drains a wheel exactly when all lower digits are 255 |
| TimerWheel.WheelBounds | prs/timer.c:290-297 | the highest bit selects the wheel whose span holds the delay |
| Timer.Wheel.Tick | prs/timer.c:310-350 | the loops over wheels, slots, temporary list and queue compute the tick specification |
| Timer.Wheel.QueueInternal | prs/timer.c:271-302 | signals an entry exactly if it is due; else drops it exactly if it is canceled, without a signal; else files it last in the slot of its delay |
| Timer.Wheel.DrainWheels | prs/timer.c:313-335 | empties the current slot of every wheel whose digit changes, in order |
| Timer.Wheel.MoveSlot | prs/timer.c:325-333 | moves a slot list entry by entry, keeping its order |
| Timer.Wheel.FileTemporary | prs/timer.c:336-342 | files all drained entries at the old time |
| Timer.Wheel.FileQueued | prs/timer.c:345-349 | files all queued requests at the new time |
| Timer.Wheel.Queue | prs/timer.c:198-222 | records the 32-bit deadline and queues the request |
| Timer.Wheel.Cancel | prs/timer.c:243-246 | marks the request as canceled |
| TimerEntry.EventDroppedOnce | prs/timer.c:243-302 | however cancel interleaves with the tick, an entry drops its event reference at most once, and exactly once before its slot is free or reused |
| TimerEntry.EventUsedWhileHeld | prs/timer.c:260-285 | a signal or destructor that is still to run belongs to an entry whose reference is held |
| TimerEntry.DestructorOnce | prs/lib/ds/pool.c:393-447 | the destructor runs at most once, after the last unlock; it has run before the slot is cleared, and the slot is not reallocated before |
| TimerEntry.SlotIsReturned | prs/lib/ds/pool.c:393-447 | an entry that owner and tick have let go of leaves a free slot |
| TimerEntry.CanceledIsReleased | prs/timer.c:286-290 | a canceled entry that the tick tries to release is never filed again: the swap is retried, or the entry is destructed |
| TimerEntry.StepKeepsInv | prs/lib/ds/pool.c:196-447 | every load, swap and drop keeps the counts |
| GodSlotProof.CountIsOutstanding | prs/god.c:270-360 | the counter is the number of references held, at most 4095; while one is held the entry keeps its identifier and has no delete mark |
| GodSlotProof.CallbackOnce | prs/god.c:209-240 | the free callback was called exactly once for each earlier object, at most once for the last, never while a reference is held |
| GodSlotProof.NotReusedEarly | prs/god.c:164-207 | the slot passes to a new object only after the callback of the last one has returned |
| GodSlotProof.NoLockAfterMark | prs/god.c:270-299 | with the delete mark no lock succeeds, and the header changes only by being cleared |
| GodSlotProof.UnlockIsNotRefused | prs/god.c:326-404 | the run-time checks never drop an unlock of a reference that is held |
| GodSlotProof.NothingIsLeaked | prs/god.c:326-360 | an object without references that no call is still freeing was freed and its slot is free, whatever lock and allocation attempts are under way |
| GodSlotProof.LockEnds | prs/god.c:270-299 | a lock ends with a new reference to its object, or because the header it saw refused it, and then changed nothing |
| GodSlotProof.UnlockEnds | prs/god.c:326-360 | an unlock ends with its reference dropped |
| GodSlotProof.FinalEnds | prs/god.c:371-404 | a final unlock ends with the last reference dropped and the object being freed, or it saw other references and changed nothing |
| GodSlotProof.ClearEnds | prs/god.c:231-239 | clearing ends with a free slot that keeps its identifier |
| GodSlotProof.StepKeepsInv | prs/god.c:164-404 | every load, swap, store and callback step keeps the invariant |
| GodProof.LockRefines | prs/god.c:270-299 | lock succeeds exactly on a live object below the limit and counts one more |
| GodProof.UnlockRefines | prs/god.c:326-360 | unlock frees exactly at the last reference and ignores identifiers that are not live |
| GodProof.UnlockFinalRefines | prs/god.c:371-404 | only a last reference is dropped; each of the four results exactly in its case, PRS_INVALID_STATE for every non-zero identifier that is not live |
| GodProof.GoneIsInvalidState | prs/god.c:371-404 | a run that frees an object and then gets PRS_INVALID_STATE for it |
| GodProof.AllocRefines | prs/god.c:164-207 | a new object has an identifier that is not live and disturbs no other object |
| GodProof.AllocFailsExactly | prs/god.c:164-207 | allocation fails exactly when all usable entries are taken or the scan range wraps |
| GodProof.IdsIncrease | prs/god.c:164-207 | over every serial run identifiers strictly increase |
| GodProof.AllocationEnds | prs/god.c:172-175 | once the scan range wraps, no later allocation succeeds |
| GodProof.FailsWhileEmpty | prs/god.c:172-175 | for every size, a run after which no object is live and allocation fails |
| GodProof.FirstIdentifier | prs/god.c:183-189 | in a new directory the first object gets identifier 1 |
| God.Directory.AllocAndLock | prs/god.c:164-207 | the scan returns the first free entry, or 0 if it meets none |
| God.Directory.LockEntry | prs/god.c:270-299 | one lock, as the specification says |
| God.Directory.UnlockEntry | prs/god.c:326-360 | one unlock with its free |
| God.Directory.TryUnlockFinal | prs/god.c:371-404 | one final unlock with its result code |
| God.Directory.constructor | prs/god.c:102-127 | entry 0 is reserved, all others are zero, the next identifier is 1 |
| Words.GodLockRefines | prs/god.c:277-296 | locking the 64-bit word is locking the record: only the count changes |
| Words.GodUnlockRefines | prs/god.c:338-354 | the same for unlock, with the delete mark set exactly at the last reference |
| Words.GodUnlockFinalRefines | prs/god.c:383-400 | the final unlock on the word has the same result and the same new record |
| Words.GodReserveRefines | prs/god.c:177-193 | the new word has that identifier, the reserved mark and count 1 |
| Words.GodStoresRefine | prs/god.c:200-235 | the used mark and the clearing mask change just those fields |
| Words.PdLockRefines | prs/lib/ds/pd.c:245-258 | adding the increment changes only the count |
| Words.PdUnlockRefines | prs/lib/ds/pd.c:285-298 | subtracting it does not borrow from the identifier |
| Words.PdAllocRefines | prs/lib/ds/pd.c:188-206 | the new word has that identifier and count 1 |
| Words.PoolAllocRefines | prs/lib/ds/pool.c:214-233 | the new word is allocated and cannot be locked yet |
| Words.PoolLockFirstRefines | prs/lib/ds/pool.c:299-315 | the first lock sets the count to 1 |
| Words.PoolLockRefines | prs/lib/ds/pool.c:371-388 | no carry reaches the alloc bit |
| Words.PoolUnlockRefines | prs/lib/ds/pool.c:406-428 | no borrow; the alloc bit is cleared exactly by a last unlock without destructor |
| Words.PoolClearRefines | prs/lib/ds/pool.c:430-444 | the mask after the destructor leaves only the identifier |
| Pd.Directory.AllocAndLock | prs/lib/ds/pd.c:175-218 | the scan returns the first free identifier, or none if it meets none |
| Pd.Directory.LockEntry | prs/lib/ds/pd.c:230-261 | one lock, as the specification says |
| Pd.Directory.UnlockEntry | prs/lib/ds/pd.c:272-301 | one unlock, and whether it was the last |
| Pd.Directory.constructor | prs/lib/ds/pd.c:108-137 | all entries are zero, the next identifier is 1 |
| Pd.LockRefines | prs/lib/ds/pd.c:230-261 | lock succeeds exactly on a live identifier below the limit and counts one more |
| Pd.UnlockRefines | prs/lib/ds/pd.c:272-301 | unlock drops one reference of a live identifier and frees it exactly at the last |
| Pd.AllocRefines | prs/lib/ds/pd.c:175-218 | a new identifier is larger than all before; its low 52 bits were not live and get one reference; the identifier itself is live exactly if it is below 2^52 |
| Pd.AllocFailsExactly | prs/lib/ds/pd.c:175-218 | allocation fails exactly when every entry is live or the scan range wraps |
| Pd.FullIsSize | prs/lib/ds/pd.c:175-218 | every entry is live exactly when there are as many live identifiers as entries |
| Pd.LockableExactly | prs/lib/ds/pd.c:62-64 | an identifier that was just allocated can be locked and unlocked if and only if it is below 2^52 |
| Pd.NeverGivenBack | prs/lib/ds/pd.c:175-301 | for every size, a run that hands out identifier 2^52 and cannot unlock it: the entry stays taken |
| Pd.OldIdentifierMatches | prs/lib/ds/pd.c:202-206 | the low 52 bits of a new identifier can be locked as an identifier and reach its entry |
| Pd.OldIdentifierReturns | prs/lib/ds/pd.c:175-261 | for every size that divides 2^52, a run in which identifier 1 is freed and later locked again on the entry of identifier 2^52 + 1 |
| Mpmcq.Queue.Push | prs/lib/ds/mpmcq.c:180-239 | fails exactly when elements and dummy fill the directory or the scan wraps, and then changes nothing; appends one element in a node that was never used before if its identifier is below 2^52; with a larger one succeeds, leaves a tail that cannot be locked, and the element is not reachable |
| Mpmcq.Queue.Pop | prs/lib/ds/mpmcq.c:247-300 | removes the front element; freed nodes followed by live ones are always the same sequence; PRS_UNKNOWN exactly on a queue never pushed to, which no pop restores |
| Mpmcq.Queue.AllocNode | prs/lib/ds/mpmcq.c:58-80 | a node with a new identifier, whose kept part becomes live; none exactly when the directory is full or the scan wraps |
| Mpmcq.Queue.LockLast | prs/lib/ds/mpmcq.c:189-206 | from any node of the chain the tail moves up to the last one |
| Mpmcq.Queue.LockHead | prs/lib/ds/mpmcq.c:252-280 | a consumed head with a successor is dropped and freed first |
| Mpmcq.Queue.Lock | prs/lib/ds/mpmcq.c:82-90 | locks a live entry below the limit |
| Mpmcq.Queue.Unlock | prs/lib/ds/mpmcq.c:92-98 | the last reference frees the node |
| Mpmcq.LiveEntries | prs/lib/ds/mpmcq.c:180-300 | between calls the live entries number the elements plus one for a consumed head, all with count 1 |

## Left out

- Several workers on one scheduler, and a removal from another worker that interleaves with an unblock or a
  schedule: the state change of prs/task.c:395-404 is not atomic, so the invariants do not hold there.
- Progress: that a worker, timer or sender eventually takes its next step is not stated; the theorems say what
  is under way.
- Concurrent runs of prs/lib/ds/mpmcq.c: the tail is set before the head on a first push, and a lagging tail can
  name a freed node. The semaphore uses an atomic queue instead.
- Identifiers under concurrent allocation: `write_index` is a plain store that a stalled allocator can move back.
- The scan of prs/lib/ds/pool.c for a free entry: the same loop as in prs/god.c and prs/lib/ds/pd.c.
- Mpmcq.Queue.Pop: the state after a push with an identifier from 2^52 on is not followed further; `Mpmcq.Queue.Push`
  says what is wrong with it. The second load of the head in prs/lib/ds/mpmcq.c:288-296 sees the same value when calls
  run one at a time, so it is not a step.
- Several queues on one pointer directory: each queue of the model owns its directory.
- `prs_task_set_prio` in `Sched`: the worker model has it.
- Task.StateWord.Block: its load and store are one step; `Task.NoUnblockUnlessBlocked` is the reason why no unblock
  can come between them.
- `prs_god_find` and `prs_god_object_destroy`: a read, and a lock around a callback.
- Processes, names, the loader, logging, exceptions and start-up (prs/proc.c, prs/name.c, prs/log.c, prs/excp.c,
  prs/init.c), and the platform layer.
- prs/sched/swcoop.c, prs/lib/ds/mpscq.c, prs/lib/ds/mpmcring.c and the linked lists: near copies of modelled code or
  plain lists.
- The maximum count of a semaphore: it is stored and never checked.
- 32-bit builds: tokens and pool headers have other widths there.
