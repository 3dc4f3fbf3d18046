# epox: a verified model of the executor

epox is a single-threaded async executor with three priorities on top of
edge-triggered epoll. This project models its core and proves, over every run,
what its users rely on: no wakeup is lost, no task is forgotten, no reference
leaks, polls happen in the promised order, and the loop ends when it should.

## How it is put together

| file | models |
|---|---|
| `QueueSpec.dfy` | what a family of intrusive queues holds, as sequences, oldest first |
| `Rings.dfy` | `src/queue.rs` on the heap: circular doubly linked rings through the tasks, reference ownership; refines `QueueSpec` |
| `ExecState.dfy` | the executor, its tasks, fds, pipe and the kernel's side of them as one value, and every operation as a function on it |
| `ExecInv.dfy` | the invariant of every reachable state, kept by every operation |
| `RunLoop.dfy` | `run` as a transition system: the loop's steps interleaved with tasks, the calling program, destructors, the kernel and other threads |
| `RunTheorems.dfy`, `WakeTheorems.dfy`, `EventTheorems.dfy`, `CompletionTheorems.dfy`, `HandleTheorems.dfy`, `Scheduling.dfy`, `Bursts.dfy`, `YieldTermination.dfy` | the theorems about its runs |
| `Histories.dfy` | what the model remembers of the past, as functions of the steps of a run |
| `Teardown.dfy` | what the replacement of an executor destroys, in whatever order, and what the new one notices of it |
| `BlockOn.dfy` | `block_on` as a second loop over the same state |
| `Programs.dfy`, `Priorities.dfy` | programs that call both loops, in any order; what priorities mean in them |
| `TwoDirections.dfy`, `Exceptions.dfy` | for each exception below, a run from the start of the program |
| `TaskQueues.dfy` | the four rings of an executor, with the strong counts of its tasks: each queue operation, seen on both |
| `Executor.dfy`, `ExecutorSteps.dfy` | the executor as an object whose queues are those rings: methods that update it in place, the loops of `epoll_wait`, `poll_with`, `run` and `block_on`, each proved against the functions and transition systems above |
| `ThreadJoin.dfy` | joining a native thread, under every interleaving |
| `WakerRefs.dfy` | weak references behind task wakers and pipe messages |

The kernel is a poll mask and a ready-list bit per registration, plus the
contents of the wake-up pipe. What epoll_wait reports is any selection of what is
on the ready list. Futures are unconstrained: a poll performs any finite sequence
of effects and returns Pending or Ready. `hist` and `past` record what has
happened (who was woken, who waits for which fd, every queue operation); no
operation reads them.

Flags are EPOLLIN, EPOLLOUT and one flag for EPOLLHUP and EPOLLERR. The kernel
assumption on I/O is the one `poll_with` asks of its caller
(`src/executor.rs:501-505`): WouldBlock in a direction means that direction is
not ready and the peer has not hung up.

## What was found

Some expectations hold only under a condition; each condition is proved, and runs
from the start of the program show how they fail.

- An fd registered for both directions: one WouldBlock clears both cached
  directions. The cache is kept in agreement with the kernel exactly for fds
  registered for one direction (`WouldBlockKeepsCoherence`); for an fd registered
  for both, a wakeup can be lost (`TwoDirectionsLose`).
- "A completed task is never polled again": after its first completion a task can
  be polled again if and only if it was woken in its last poll and not unlinked
  since, or its handle was polled with its own waker (`PolledAgainIff`,
  `PolledAfterCompletion`). If so it will be, or is aborted, or the executor
  replaced, before `run` can block or leave its loop other than by an error or a
  shutdown (`RunnableIsServed`); and its handle can then give out a second value
  (`DeliversTwiceIff`, `TwoValuesTaken`). If such a second poll returns Pending the
  task sleeps for good: no wake removes it, and without an abort or a shutdown `run`
  never returns Ok (`StrandedForever`, `SleepsAfterCompletion`).
- An abort unlinks a task that an event has woken, but the event stays cached. A task
  that waits for an fd hears of every later event on it if and only if none was cached at
  the abort; one can be cached then only if the task is in its run queue, or missed it by
  an abort before (`AbortDeafens`). A task that aborts itself in its poll, having been
  linked by an event, sleeps on all the same, and `run` can block although the fd is
  ready (`SelfAbortDeafens`, `SelfAbortLoses`); no other task sleeps deaf
  (`SleepersHear`).
- Replacing an executor drops the old one when the new one is in place. If destructors
  do nothing but drop handles and fds, the new one keeps the slot of its event buffer
  if and only if no released task owned an fd; a task is released if it is alive and
  its handle is gone or held by a released task (`ReplacementBuffer`, `ChildDeafens`).
  In general the buffer has its right length exactly as long as no fd of an earlier
  executor was dropped (`BufferMatchesFds`). An executor without a buffer is deaf until
  an fd is registered (`DeafWithoutBuffer`).
- A future in `block_on` that wakes itself in its own poll does nothing by it
  (`SelfWakesDoNothing`), and can be left blocked (`SelfWakeCanBlock`,
  `SelfWakeBlocks`); wakes from anywhere else cannot be lost
  (`BlocksOnlyWithNothingDue`). The library wakes the future so itself when a burst is
  over: a future that reads an fd whose data never ends sees Pending after twenty
  results, and `block_on` blocks with the fd ready, if no task is runnable and the
  kernel has no event to report (`BlocksOnReadyIff`, `BurstBlocks`).
- "All tasks of equal or higher priority are polled before the yielding task is again"
  (`src/task.rs:170-175`) holds for those that are not woken again in between
  (`YieldIsFair`): a wake moves a queued task to the back (`YielderGoesFirst`).
- A thread whose closure panics never wakes its joiner, whose future then stays
  Pending (`PanicIsNeverDelivered`).

## Model

| member | source | states |
|---|---|---|
| Rings.QueueFamily.Push | src/queue.rs:42-61 | one entry, in whichever ring it was, becomes the newest of ring `q`; the contents of all rings become `QueueSpec.Push` of what they were, rings stay disjoint and well formed, and the caller's reference becomes the queue's or is dropped if a queue owned one already |
| Rings.QueueFamily.Pop | src/queue.rs:70-79 | the oldest task of ring `q` is returned with the queue's reference, or None exactly if the ring is empty |
| Rings.QueueFamily.Release | src/queue.rs:87-95 | called through any queue, unlinks the entry wherever it is and returns the queue's reference and the caller's, two or one |
| Rings.QueueFamily.ReleaseClone | src/executor.rs:204-207 | an abort: a clone of the handle's reference is released, which costs the task the queue's reference, if any, and no other |
| Rings.QueueFamily.Unqueue | src/queue.rs:128-138 | joins the neighbours of a linked entry and leaves everything else in order; no effect on an unlinked one |
| Rings.QueueFamily.DropQueue | src/queue.rs:105-110 | terminates with ring `q` empty, the other rings as they were, and every member's strong count one lower |
| TaskQueues.Push | src/queue.rs:42-61 | the same push on an executor's rings: queues, places and the counts in the task table agree with the rings again |
| TaskQueues.DropAll | src/queue.rs:105-110 | dropping an executor's queues takes from each task exactly the reference that a queue owned |
| Rings.QueueFamily.constructor | src/queue.rs:25-29 | any number of sentinels, each linked to itself, is a valid family of empty queues |
| Rings.QueueFamily.IsEmpty | src/queue.rs:100-102 | the sentinel's `prev` is the sentinel exactly if the queue holds nothing |
| Rings.CutOk | src/queue.rs:128-138 | after the three pointer writes of `unqueue` all rings are rings again and the family has lost that task only |
| Rings.GrowOk | src/queue.rs:46-53 | after the four pointer writes of `push` all rings are rings again and the task is the newest of its queue |
| Rings.NodesDistinct | src/queue.rs:31-41 | two different positions in the rings are two different entries, within a queue and across queues |
| QueueSpec.WithoutAt | src/queue.rs:128-138 | removing a task from a queue closes the gap and keeps the order of all others |
| ExecInv.ApplyInv | src/executor.rs:174-229 | every effect of user code, kernel and other threads keeps the whole invariant |
| ExecInv.DeliverFdCore | src/executor.rs:258-285 | one fd event keeps the invariant: no dormant task is left behind a filled cache |
| ExecInv.PollFdInv | src/executor.rs:506-544 | every outcome of `poll_with`, from any waker, keeps the invariant |
| ExecInv.PolledFdCoherent | src/executor.rs:506-544 | an fd poll keeps the cache in agreement with the kernel, for fds registered for one direction |
| ExecInv.WakeNowAwakens | src/executor.rs:277-293 | a sleeping incomplete task, or one being polled and unlinked, is alive: a wake upgrades it and leaves it linked in a run queue |
| ExecInv.FinishReadyInv | src/executor.rs:659-666 | storing the output, waking the handle's waker and marking the task keeps the invariant, even if that waker is the task's own |
| RunLoop.NextInv | src/executor.rs:652-706 | every step of `run` keeps the invariant |
| RunLoop.Reachable | src/executor.rs:680-706 | the invariant holds in every state of every program, `run` being called any number of times |
| RunTheorems.NoLostWakeup | src/executor.rs:680-699 | whenever `run` really blocks: no sleeping task waits for a ready single-direction fd (an event it missed by aborting itself in its poll excepted), every wake has been followed by a poll of its task or taken back by an abort, no waker waits on a finished task's handle, and every unfinished unaborted task is asleep |
| WakeTheorems.RunnableIsServed | src/executor.rs:652-706 | a task in a run queue, completed or not, stays there until it is polled, aborted or the executor replaced; until then `run` neither blocks nor leaves its loop, but by an error from epoll or a shutdown |
| WakeTheorems.LocalWakeLeadsToPoll | src/executor.rs:364-386 | the same from any wake of a live unfinished task on the executor's thread, even in the task's last poll |
| WakeTheorems.RemoteWakeLeadsToPoll | src/executor.rs:387-396 | after a wake from another thread `run` cannot block before the task is polled, or aborted with no message left, unless it has finished or nobody holds it when the message is read |
| WakeTheorems.ReadyFdLeadsToPoll | src/executor.rs:506-544 | after a Pending poll of a single-direction fd, while nobody polls or drops that fd and the task is neither polled nor aborts itself with an event cached: whenever `run` blocks with the task asleep, the fd is not ready |
| RunTheorems.QuietMeansNoReport | src/executor.rs:244-257 | "really blocks" is exactly: the kernel has no report to make |
| RunTheorems.EventWakesDormant | src/executor.rs:266-285 | an event on an fd that a dormant task waits for is never dropped as already contained; the task becomes the newest of its run queue |
| RunTheorems.EventEnqueuesIff | src/executor.rs:266-285 | helper: the guards of the event loop and of `enqueue`, put together |
| EventTheorems.EveryEventIsSeenTo | src/executor.rs:258-285 | whatever else the kernel reports with it, each reported fd event is cached and used up, and if it tells of something new the live unfinished task whose waker is stored is in its run queue |
| EventTheorems.ChecksPush | src/executor.rs:258-285 | the queue operations of an event check are exactly one push per report that names a live unfinished task, in the order of the reports |
| EventTheorems.ChecksCache | src/executor.rs:258-274 | an event check adds to each fd's cache exactly what is reported of it, and leaves fds that are not reported as they are |
| EventTheorems.ChecksSpare | src/executor.rs:258-285 | a task that no report names keeps its record and its place |
| EventTheorems.OtherWakeOnlyPushes | src/executor.rs:378-386 | a wake of a task other than the polled one looks at no events and only enqueues that task |
| RunTheorems.CacheAgreesWithKernel | src/fd.rs:33-44 | in every reachable state what is ready on a single-direction fd is cached or its edge is still to come |
| RunTheorems.SleepersHear | src/executor.rs:266-285 | in every reachable state a sleeping task is alive, and hears of every event on an fd it waits for if and only if it did not miss one by aborting itself |
| RunTheorems.SelfAbortDeafens | src/executor.rs:204-207 | a task that aborts itself in its poll and returns Pending sleeps on, and hears of all later events on an fd it waits for if and only if none was cached at the abort, that is, none had linked it in that poll |
| RunTheorems.AbortDeafens | src/executor.rs:204-207 | after any abort of a task that waits for an fd: it hears of every later event on it if and only if none was cached at the abort, which takes a task in its run queue, or one aborted before |
| RunTheorems.AbortUnlinks | src/executor.rs:204-207 | any abort, of a completed task too, unlinks the task and returns the queue's reference; all other tasks keep record and order |
| Exceptions.SelfAbortLoses | src/executor.rs:204-207 | a run from the start that blocks while a task that aborted itself sleeps on a ready single-direction fd |
| RunTheorems.PendingContract | src/fd.rs:48-97 | whenever `poll_with` or `poll_with_mut` reads as Pending, the cache is empty with the task's waker stored, or the task is the newest of its run queue |
| RunTheorems.WouldBlockKeepsCoherence | src/executor.rs:531-536 | WouldBlock keeps cache and kernel in agreement in all kernel states if and only if the fd is registered for one direction |
| TwoDirections.TwoDirectionsLose | src/executor.rs:531-536 | a run from the start of the program that blocks while a task sleeps on a ready fd registered for both directions |
| RunTheorems.Partition | src/executor.rs:289-306 | an unfinished unaborted task is polled, in the run queue of its priority, or asleep; never polled and asleep, never in two queues |
| RunTheorems.ReferencesAreConserved | src/queue.rs:31-110 | over every run the strong count is one for the handle, one if linked, one while polled |
| RunTheorems.RunCompletesTasks | src/executor.rs:693-706 | leaving the loop without a shutdown, every task has completed or was aborted |
| RunTheorems.WaitsForSleepers | src/executor.rs:693-699 | `run` waits only while some task sleeps |
| RunTheorems.EmptyLoopEnds | src/executor.rs:680-699 | if no task is linked when `run` asks for one, its second step from there ends the loop, whatever fds are open; it neither polls nor waits |
| RunTheorems.ReplacementReleasesTasks | src/executor.rs:701-706 | when the old queues have been dropped, and before destructors of tasks run, every old task is unlinked and each queue reference returned once; the new executor starts with empty queues and a clear flag |
| Teardown.ReplacementBuffer | src/executor.rs:701-706 | when destructors have dropped all handles and fds that destroyed tasks owned, in whatever order: exactly the released tasks are destroyed and the others keep their handle's reference; queues and flag of the new executor are as new, and its buffer is if and only if no released task owned an fd; without a shutdown it is |
| Teardown.WholeCounts | src/executor.rs:701-706 | the reference counts with which the destruction begins are those of the executor |
| Teardown.ReleasedIsClosed | src/executor.rs:701-706 | released means alive, and the handle gone or held by a released task |
| Teardown.ReleasedIsLeast | src/executor.rs:701-706 | and is the least such set: tasks that hold each other's handles stay |
| Teardown.SomeDrops | src/queue.rs:105-110 | the destruction comes to an end |
| Exceptions.ChildDeafens | src/fd.rs:115-127 | a run from the start after which the new executor is deaf, however the old one is destroyed: the fd belongs to a task whose handle belongs to a sleeping task |
| CompletionTheorems.CompletedStaysOut | src/executor.rs:64-66 | a task unlinked when it completed is never linked or polled in any continuation, whatever wakes it |
| CompletionTheorems.LinkedAtCompletionIff | src/executor.rs:661-671 | a task is linked when it is marked completed if and only if it was linked when its poll returned Ready, or its handle was last polled with its own waker |
| CompletionTheorems.PolledAgainIff | src/executor.rs:289-293 | after its first completion a task can be polled again, in some run of the same executor, if and only if that is so |
| CompletionTheorems.ReachPoll | src/executor.rs:300-306 | from any state a run of the loop leads to the next poll of any task in a run queue |
| CompletionTheorems.DeliversTwiceIff | src/task.rs:72-88 | after its task's first completion a handle can give out two values, to the program between two calls of `run`, if and only if the task was linked then |
| CompletionTheorems.StrandedIff | src/executor.rs:670-674 | helper: a Pending poll puts a completed task to sleep exactly if it is not linked |
| CompletionTheorems.StrandedForever | src/executor.rs:693-706 | a completed task that sleeps is never linked elsewhere nor polled, in every continuation without an abort of it, and `run` is left by an error or a shutdown only |
| Exceptions.PolledAfterCompletion | src/executor.rs:289-293 | a run from the start in which a completed task is polled |
| Exceptions.SleepsAfterCompletion | src/executor.rs:670-674 | a run from the start in which a completed task goes to sleep |
| Exceptions.TwoValuesTaken | src/task.rs:72-88 | a run from the start in which another task takes two values from one handle |
| RunTheorems.ShutdownStopsPolling | src/executor.rs:682-699 | flag set during a poll of this `run`: no further poll begins; set before: one at most |
| RunTheorems.ShutdownEndsRun | src/executor.rs:831-863 | a shutdown asked for in a poll: no further poll begins in this `run` |
| RunTheorems.ShutdownBeforeRun | src/executor.rs:682-690 | a shutdown asked for before `run`: exactly one task is polled, if one is runnable |
| RunTheorems.ErrorEndsRun | src/executor.rs:687-699 | after an error from epoll, or from making a new executor, no further poll begins in this `run` |
| RunTheorems.PipeIsFifo | src/executor.rs:312-335 | cross-thread messages are read in the order written, each once |
| Histories.ExecutorKeepsItsLog | src/executor.rs:387-396 | in every run the messages sent are those of wakes of live tasks, and of `block_on` futures, from other threads; the shutdown flag is set exactly if it was asked for; fds of earlier executors count as dropped exactly if some were |
| RunTheorems.CheckReadsOnce | src/executor.rs:259-264 | one event check reads exactly the first message if the pipe is reported, and none otherwise |
| RunTheorems.MessageEnqueues | src/executor.rs:327-333 | helper: a message naming a live incomplete task makes it the newest of its run queue and moves no other task |
| RunTheorems.BufferMatchesFds | src/executor.rs:209-243 | the event buffer has one slot more than there are fds if and only if no foreign fd was dropped here, and then the early return is out of reach |
| RunTheorems.DeafWithoutBuffer | src/executor.rs:240-243 | with an empty buffer no event check or wait of any run reads a message, until an fd is registered or the executor replaced |
| RunTheorems.LateDropDeafens | src/fd.rs:115-127 | helper: one drop of an fd of an earlier executor brings a fresh executor there |
| RunTheorems.SelfWakeGoesLast | src/executor.rs:378-386 | a task that wakes itself while polled lands behind everything its own event check enqueued |
| Bursts.BurstIsBounded | src/executor.rs:517-544 | any 21 consecutive fd polls, with any events between them, include a Pending or a yield |
| Bursts.BurstIsFull | src/executor.rs:517-544 | after any call that was Pending or yielded, the next twenty calls whose I/O finishes give results, once something is cached again, and the one after them yields |
| Bursts.BurstIsStreak | src/executor.rs:478-482 | over any calls on an fd, with any events between them, `burst` is the number of results since the last Pending or yield |
| Bursts.FdsTellTheirStory | src/executor.rs:506-544 | the same over every run, from the registration of the fd on; and the stored waker is that of the last poll that was Pending for want of an event |
| HandleTheorems.HandleDelivers | src/task.rs:72-88 | what a handle has given out and has on offer is among what the future returned, in order, the latest being on offer; for a task not linked when it completed that is one value, given out at most once and not lost |
| HandleTheorems.HandleWaiterIsWoken | src/executor.rs:659-666 | the task that last polled a handle and got Pending is enqueued when the value is there, whatever happens in between (for a future in `block_on` see `BlockOn.TasksLeadToPoll`) |
| Histories.TasksTellTheirTale | src/task.rs:72-88 | in every run a task counts as aborted exactly if its handle called abort, as late exactly if it was linked when marked completed; what it has on offer, returned and given out are the values of its Ready polls and of the handle polls that found one |
| Scheduling.RunLogged | src/executor.rs:300-306 | over every run the queues are what the log of queue operations says, and each poll in it was legal |
| Scheduling.EveryPollIsRight | src/executor.rs:300-306 | each poll was of the longest-queued task of the first run queue that is not empty |
| Scheduling.OlderRunsFirst | src/queue.rs:42-79 | a task ahead of another is polled, woken again or aborted before the other is polled |
| Scheduling.YieldIsFair | src/task.rs:170-178 | after a yield every runnable task of equal or higher priority is polled, woken again or aborted before the yielder is polled again |
| Exceptions.YielderGoesFirst | src/queue.rs:39-40 | a run from the start in which a task that was ahead at the yield is woken again, and the yielder polled first |
| YieldTermination.YieldersTerminate | src/executor.rs:680-699 | tasks that are finite scripts of yields: a run has at most six steps per remaining poll and two more, and where it cannot go on every task has completed |
| YieldTermination.ProgramYields | src/task.rs:154-168 | spawning any number of such tasks and calling `run` is where such a run begins |
| BlockOn.BlocksOnlyWithNothingDue | src/executor.rs:763-811 | every wake of the future from another thread or from a task of the loop is followed by a poll of it before `block_on` blocks; no task's wakeup is lost either; and no single-direction fd that read as Pending in the future's latest poll is ready, unless its burst was over |
| BlockOn.BlocksOnReadyIff | src/fd.rs:48-97 | `block_on` blocks although a single-direction fd is ready that has just read as Pending, if and only if its burst was over, no task is runnable and the kernel has nothing to report |
| Exceptions.BurstBlocks | src/executor.rs:517-526 | a run from the start of `block_on` that ends so |
| BlockOn.TasksLeadToPoll | src/executor.rs:797-811 | helper: between a poll of any task and the next wait there is a poll of the future, whatever waker the task used |
| BlockOn.RemoteWakeLeadsToPoll | src/executor.rs:763-811 | told by the steps alone: after a wake from another thread `block_on` cannot block before it has polled the future again |
| BlockOn.WaitsLeadToPoll | src/executor.rs:797-811 | between two waits there is a poll of the future |
| BlockOn.ReturnsIffReady | src/executor.rs:798-800 | `block_on` returns if and only if the future was Ready; a shutdown does not end it |
| BlockOn.LoopRemembers | src/executor.rs:763-811 | over every run, what `block_on` is said to know is what happened since the future's latest poll began: who used its waker, and what each fd polled in it and still open last read as |
| BlockOn.SelfWakesDoNothing | src/executor.rs:766-771 | a run of `block_on` with the future's wakes of itself left out is still a run, and ends the same |
| BlockOn.SelfWakeCanBlock | src/executor.rs:766-771 | whenever the future has woken itself, be it by an fd whose burst was over, and returned Pending, `block_on` blocks at once if and only if nothing is runnable and the kernel is quiet |
| Exceptions.SelfWakeBlocks | src/executor.rs:766-771 | a run from the start of `block_on` that ends so |
| Programs.TasksArePartitioned | src/executor.rs:289-306 | `Partition` in every state of every program that calls `run` and `block_on`, in any order and number |
| Programs.CountsAreExact | src/queue.rs:31-110 | `ReferencesAreConserved` likewise |
| Programs.MessagesAreInOrder | src/executor.rs:312-335 | `PipeIsFifo` likewise |
| Programs.PollsAreRight | src/executor.rs:300-306 | `EveryPollIsRight` likewise: polls of tasks by either loop |
| Priorities.PollsByPriority | src/executor.rs:231-238 | in every program, when either loop polls a task, no linked task that does not sleep was spawned with a priority before the polled task's, high before normal before low; those spawned with the same are behind it in one queue |
| Priorities.ProgramAsGiven | src/executor.rs:174-202 | tasks keep the priority that they were spawned with |
| Programs.FinishedStaysOut | src/executor.rs:64-66 | `CompletedStaysOut` likewise, in every continuation that keeps the executor |
| ExecutorObject.Executor.EpollWait | src/executor.rs:240-287 | the loop over the reported events has the effect of processing them one by one |
| ExecutorObject.Executor.WakeFromPipe | src/executor.rs:312-335 | reads one message and wakes the task it names |
| ExecutorObject.Executor.Enqueue | src/executor.rs:289-293 | takes over one reference; a completed task is not queued and the reference is dropped |
| ExecutorObject.Executor.Wake | src/executor.rs:364-400 | a same-thread wake: event check first if the task wakes itself, then enqueue |
| ExecutorObject.Executor.HighestPriorityRunnableTask | src/executor.rs:300-306 | the oldest task of the first non-empty run queue, or None exactly if all three are empty |
| ExecutorObject.Executor.PollWith | src/executor.rs:506-544 | whatever number of interruptions the I/O has, result and waker state are those of its final outcome |
| ExecutorObject.Executor.PollFd | src/fd.rs:48-97 | a burst yield wakes the caller and reads as Pending |
| ExecutorObject.Executor.AddFd | src/executor.rs:209-222 | a failed registration leaves the buffer as long as it was |
| ExecutorObject.Executor.AfterPending | src/executor.rs:670-674 | unlinked tasks go to sleep, linked ones stay where they are |
| ExecutorObject.Executor.AfterReady | src/executor.rs:661-666 | output, handle waker, mark and reference, in the source's order |
| ExecutorObject.Executor.Run | src/executor.rs:680-706 | everything `run` does, and everything the kernel and other threads do while it waits, is a run of the transition system; Ok without a shutdown means that every task of the replaced executor completed or was aborted and the new one is as new; after a shutdown it is, up to what destructors of released tasks do to it; an error means that epoll or making a new executor failed; with no task linked it returns at once; and where it has not returned a task is being polled or sleeps. What it returns and leaves is what `Runs`, one flat recursion over the turns, says, so no turn is skipped and none left unused |
| ExecutorObject.Executor.ReplaceExecutor | src/executor.rs:701-706 | if no new executor can be made the old one stays; else its queues are dropped and the destructors act on the new one |
| ExecutorObject.Executor.WaitForEvents | src/executor.rs:697-698 | the untimed wait: what kernel and other threads do comes before what is reported |
| ExecutorObject.Executor.DropQueues | src/queue.rs:105-110 | the old executor's rings are emptied, and their counts are what the transition system says of its tasks |
| ExecutorObject.Executor.BlockOn | src/executor.rs:797-811 | everything `block_on` does, and what happens while it waits, is a run of its transition system; it returns in the first turn in which the future is ready and not before, in the state that the turns up to there lead to |
| ExecutorSteps.LeftForAReason | src/executor.rs:680-699 | the loop of `run` is left by an error only if epoll failed, and otherwise only after a shutdown or with no task linked |
| ExecutorSteps.SettledIsFirst | src/executor.rs:527-544 | the I/O call is repeated while it is interrupted; the first other result counts, and nothing after it |
| ThreadJoin.NeverCrashes | src/thread.rs:48-54 | neither of the two panics can be reached under any interleaving |
| ThreadJoin.CompletionWakesLastPoll | src/thread.rs:113-136 | once complete, exactly the waker of the last Pending poll is woken, exactly once, and no later poll is Pending |
| ThreadJoin.ResultIsTheThreads | src/thread.rs:128-134 | the future's value is the closure's |
| ThreadJoin.ResultIsReturned | src/thread.rs:45-56 | told by the steps alone: the closure returns at most one value, and the future's result is that value |
| ThreadJoin.WokenIsLastPolled | src/thread.rs:48-54 | told by the steps alone: what is woken, once at most, is the waker given to the last poll before the closure's end |
| ThreadJoin.JoinIsNeverStuck | src/thread.rs:123-134 | a poll that holds the lock in `join()` never waits for a thread that needs it |
| ThreadJoin.PanicIsNeverDelivered | src/thread.rs:46-55 | once the thread has ended: its joiner was woken, and can finish, if and only if the closure did not panic |
| ThreadJoin.Shared.PollJoin | src/thread.rs:117-136 | one critical section of the poller |
| ThreadJoin.Shared.Finish | src/thread.rs:48-54 | one critical section of the thread; it takes out the waker of the last Pending poll |
| WakerRefs.TaskArc.PerformAll | src/executor.rs:357-468 | over any mix of clones, wakes, drops, fd events, messages read and owners gone, the weak count is the live wakers plus the unread messages if every pipe write succeeds |
| WakerRefs.NothingLeaks | src/executor.rs:387-436 | with no failed write no reference is lost: each message is one remote wake not yet read, each waker one clone not yet used up, exactly so while the task lives |
| WakerRefs.LeaksAreFailedWrites | src/executor.rs:387-396 | whatever writes fail: what leaks is one reference for each failed write made while the task lived, what is unread one for each that succeeded |
| WakerRefs.TaskArc.Clone | src/executor.rs:402-421 | cloning a live task's waker adds one weak reference and one waker; a dead task's adds neither |
| WakerRefs.TaskArc.WakeByVal | src/executor.rs:423-436 | consumes the waker's reference; a remote wake puts one of its own into the pipe |
| WakerRefs.TaskArc.WakeByRef | src/executor.rs:438-452 | as above, and the waker keeps its reference |
| WakerRefs.TaskArc.DeliverEvent | src/executor.rs:277-283 | an fd event borrows the stored reference and gives it back |
| WakerRefs.TaskArc.ReadMessage | src/executor.rs:327-334 | reading a message consumes its reference |

## Left out

- What tasks store besides their queue entry and strong count is a table of records (`Executor.tasks`), not one object per task; the table repeats the counts that the rings keep.
- Wakers that are neither a task's nor that of `block_on` are kept and replaced, but what waking them does is not modelled.
- Pointer-offset arithmetic of `from_entry`, pinning and the raw vtable layout: entry and task are one object.
- Real system calls: fcntl, epoll and pipe are the kernel model above; pipe reads and writes succeed, except that `WakerRefs` also counts the reference that a failed write leaks.
- Errors of epoll_wait end `run` but change nothing else; an error in the middle of an array of events (from a failed pipe read) is not modelled.
- `block_on` called from inside a task, panics and unwinding inside the executor's thread, and reentrant borrows.
- Interest in neither EPOLLIN nor EPOLLOUT (EPOLLPRI alone, say) can be registered but not polled here.
- Fd numbers and task addresses are not reused, and wakers of tasks of a replaced executor are not used after the replacement.
- `EXECUTOR` as thread-local storage and its destruction at thread exit.
- Destruction of a task's contents from another thread, and memory ordering.
- Executor.Run: observes a finite number of turns of the loop, since futures need not end; the theorems about the transition system have no such bound.
- `src/signal.rs`, `src/timer.rs`, `src/time.rs`, `src/futures.rs`: thin layers over what is modelled; they would add easy members only.
- Tracing, task names, `Builder`, metadata and the examples.
